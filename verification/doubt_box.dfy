/** The doubt box: the canned answer chosen for a question (a keyword test
    on the lower-cased question, fraction first), the progress update an
    ask sends, and the "simpler" rendering that keeps the first fifteen
    words of the explanation. */
module DoubtBox {
  import opened Wrappers
  import opened Text
  import opened Languages
  import opened Progress

  datatype AIResponse = AIResponse(explanation: string, steps: seq<string>, example: string, tip: string)

  datatype Topic = Fraction | Photosynthesis

  /** The two keyword tests, on an already lower-cased question. */
  predicate MentionsFraction(q: string) {
    Contains(q, "fraction") || Contains(q, "भिन्न") || Contains(q, "भिन्")
  }

  predicate MentionsPhotosynthesis(q: string) {
    Contains(q, "photo") || Contains(q, "प्रकाश") || Contains(q, "plant")
  }

  /** The canned topic a question is about, fraction taking priority. */
  function DetectTopic(question: string): (t: Option<Topic>)
    ensures var q := ToLower(question);
      && (t == Some(Fraction) <==> MentionsFraction(q))
      && (t == Some(Photosynthesis) <==> !MentionsFraction(q) && MentionsPhotosynthesis(q))
      && (t.None? <==> !MentionsFraction(q) && !MentionsPhotosynthesis(q))
  {
    var q := ToLower(question);
    if MentionsFraction(q) then Some(Fraction)
    else if MentionsPhotosynthesis(q) then Some(Photosynthesis)
    else None
  }

  /** The `भिन्न` test adds nothing: every question containing it also
      contains `भिन्`, so two keywords decide the fraction topic. */
  lemma FullWordIsRedundant(q: string)
    ensures MentionsFraction(q) <==> Contains(q, "fraction") || Contains(q, "भिन्")
  {
    if Contains(q, "भिन्न") {
      ContainsPrefix(q, "भिन्न", 4);
      assert "भिन्न"[..4] == "भिन्";
    }
  }

  /** Detection ignores ASCII case. */
  lemma DetectIgnoresCase(question: string)
    ensures DetectTopic(ToLower(question)) == DetectTopic(question)
  {
    ToLowerIdempotent(question);
  }

  /** The four numbered steps every canned answer carries. */
  function FourSteps(a: string, b: string, c: string, d: string): (steps: seq<string>)
    ensures |steps| == 4
  {
    [a, b, c, d]
  }

  function FractionResponse(l: Language): (r: AIResponse)
    ensures |r.steps| == 4
  {
    match l
    case Hindi => AIResponse(
      ("भिन्न (Fraction) एक " + "संख्या है जो पूरे का " + "एक हिस्सा दर्शाती है। " + "जैसे अगर हम एक सेब को " + "4 टुकड़ों में काटें " + "और 1 टुकड़ा लें, तो " + "वह 1/4 भिन्न है।"),
      FourSteps(("ऊपर की संख्या को अंश " + "(Numerator) कहते हैं"),
       ("नीचे की संख्या को हर " + "(Denominator) कहते हैं"),
       "अंश ÷ हर = दशमलव संख्या",
       ("जोड़ने के लिए हर को " + "बराबर करें")),
      ("🍕 Pizza: 8 टुकड़े हैं, " + "तुमने 3 खाए → तुम्हारा " + "हिस्सा = 3/8"),
      ("💡 याद रखो: हर कभी 0 " + "नहीं हो सकता!"))
    case Hinglish => AIResponse(
      ("Fraction ek number hai " + "jo ek cheez ka part " + "batata hai. Jaise agar " + "ek pizza ke 4 pieces " + "hain aur tumne 1 khaya, " + "toh tumhara fraction " + "= 1/4 hai!"),
      FourSteps(("Upar wala number = Numerator" + " (kitna liya)"),
       ("Neeche wala number = " + "Denominator (total kitne " + "parts)"),
       ("Jab hum add karte hain " + "→ pehle denominator " + "same karo"),
       ("Multiply karne mein " + "seedha numerator × numerator")),
      ("🍎 Ek apple ke 2 pieces " + "karo, ek piece lo → " + "1/2 fraction hai!"),
      ("💡 Trick: Denominator " + "kabhi zero nahi hoga!"))
    case English => AIResponse(
      ("A fraction shows a part " + "of a whole thing. The " + "top number is how many " + "parts you have. The " + "bottom number is how " + "many total parts there " + "are."),
      FourSteps(("Top number = Numerator " + "(your parts)"),
       ("Bottom number = Denominator " + "(total parts)"),
       ("To add: make denominators " + "the same first"),
       ("To multiply: multiply " + "top × top, bottom × " + "bottom")),
      ("🍕 Pizza cut into 8 slices, " + "you eat 3 = 3/8 of pizza " + "eaten!"),
      ("💡 Remember: Denominator " + "can never be zero!"))
  }

  function PhotosynthesisResponse(l: Language): (r: AIResponse)
    ensures |r.steps| == 4
  {
    match l
    case Hindi => AIResponse(
      ("प्रकाश संश्लेषण " + ("(Photosynthesis) वह " + "प्रक्रिया है ") + "जिसमें पौधे सूर्य के " + "प्रकाश का उपयोग करके " + "खाना बनाते हैं। पत्तियों " + "में हरा पदार्थ (Chlorophyll)" + " होता है जो यह काम करता " + "है।"),
      FourSteps(("पौधा पत्तियों से सूर्य " + "का प्रकाश लेता है"),
       "जड़ों से पानी (H₂O) लेता है",
       ("हवा से CO₂ (Carbon Dioxide) " + "लेता है"),
       ("Chlorophyll की मदद से " + "Glucose बनाता है और " + "O₂ छोड़ता है")),
      ("🌱 जैसे हम खाना पकाते " + "हैं, पौधे सूरज की रोशनी " + "से खाना पकाते हैं!"),
      ("💡 Formula: 6CO₂ + 6H₂O " + "+ Light → C₆H₁₂O₆ + " + "6O₂"))
    case Hinglish => AIResponse(
      ("Photosynthesis ek process " + "hai jisme plants suraj " + "ki roshni se apna khana " + "banate hain. Leaves " + "mein hara color Chlorophyll " + "hota hai jo yeh kaam " + "karta hai."),
      FourSteps(("Plant leaves se sunlight " + "absorb karta hai"),
       "Roots se paani leta hai",
       "Hawa se CO₂ leta hai",
       ("In sab se glucose (sugar) " + "banata hai aur oxygen " + "release karta hai")),
      ("🌿 Seedha samjho: Plant " + "= Chef, Sunlight = Gas, " + "CO₂+Water = Ingredients, " + "Glucose = Khana!"),
      ("💡 Isliye hare patte " + "important hain – ye " + "humein oxygen dete hain!"))
    case English => AIResponse(
      ("Photosynthesis is how " + "plants make their own " + "food using sunlight. " + "The green color in leaves " + "(Chlorophyll) helps " + "capture sunlight energy."),
      FourSteps("Leaves capture sunlight",
       "Roots absorb water (H₂O)",
       "Leaves take in CO₂ from air",
       ("Using light energy → " + "make glucose + release " + "oxygen")),
      ("🌱 Think of leaves as " + "solar-powered kitchens " + "making food from sunlight!"),
      ("💡 Simple formula: Sun " + "+ Water + CO₂ → Food " + "+ Oxygen"))
  }

  /** The question in double quotes, as the generic answers embed it. */
  function Quoted(question: string): string {
    "\"" + question + "\""
  }

  /** The text around the quoted question in the generic explanation. */
  function GenericLead(l: Language): string {
    match l
    case Hindi => ""
    case Hinglish => ""
    case English => "Great question about "
  }

  function GenericTail(l: Language): string {
    match l
    case Hindi => (" के बारे में – यह एक " + "अच्छा सवाल है! आइए इसे " + "आसान तरीके से समझते " + "हैं। इस topic को " + "step-by-step समझने की कोशिश करें।")
    case Hinglish => (" ke baare mein – bahut " + "achha question hai! " + "Chalte hain step by " + "step samjhein. Pehle " + "basic clear karein.")
    case English => ("! Let's break it down " + "step by step in simple " + "words. Understanding " + "basics first makes " + "everything easier.")
  }

  function GenericSteps(l: Language): (steps: seq<string>)
    ensures |steps| == 4
  {
    match l
    case Hindi => FourSteps("पहले basic concept समझें", "फिर example देखें", "Practice करें", "अगर doubt हो तो फिर पूछें")
    case Hinglish => FourSteps("Basic concept pehle", "Phir example dekho", "Practice karo", "Doubt ho toh poochho")
    case English => FourSteps("Start with the basic idea", "Look at a real example", "Try to solve", "Ask again if confused")
  }

  function GenericExample(l: Language): string {
    match l
    case Hindi => ("🌟 Real life में देखो " + "– हर चीज़ में Math और " + "Science छुपी है!")
    case Hinglish => ("🌟 Real life mein dekho " + "– sab mein Math aur " + "Science chhupa hai!")
    case English => ("🌟 Look around you – " + "Math and Science are " + "everywhere in real life!")
  }

  function GenericTip(l: Language): string {
    match l
    case Hindi => ("💡 हमेशा सवाल पूछो – " + "यही सीखने का सबसे अच्छा " + "तरीका है!")
    case Hinglish => ("💡 Questions poochho " + "– yehi sabse best tarika " + "hai sikhne ka!")
    case English => ("💡 Always ask questions " + "– that's the best way " + "to learn!")
  }

  /** The answer for a question no keyword matches: the question itself is
      quoted in the explanation. */
  function GenericResponse(question: string, l: Language): (r: AIResponse)
    ensures |r.steps| == 4
    ensures Contains(r.explanation, Quoted(question))
  {
    ContainsMiddle(GenericLead(l), Quoted(question), GenericTail(l));
    AIResponse(GenericLead(l) + Quoted(question) + GenericTail(l),
      GenericSteps(l), GenericExample(l), GenericTip(l))
  }

  /** `getAIResponse`: the detected topic's answer in the chosen language,
      otherwise the generic answer; every answer has four steps. */
  function GetAIResponse(question: string, l: Language): (r: AIResponse)
    ensures DetectTopic(question) == Some(Fraction) ==> r == FractionResponse(l)
    ensures DetectTopic(question) == Some(Photosynthesis) ==> r == PhotosynthesisResponse(l)
    ensures DetectTopic(question).None? ==> r == GenericResponse(question, l)
    ensures |r.steps| == 4
  {
    match DetectTopic(question)
    case Some(Fraction) => FractionResponse(l)
    case Some(Photosynthesis) => PhotosynthesisResponse(l)
    case None => GenericResponse(question, l)
  }

  const GeneralConcept := "general concept"

  /** What a completed ask produces: the answer shown and the update sent. */
  datatype Ask = Ask(response: AIResponse, update: Update)

  /** `handleAsk`: nothing happens for a blank question without an image.
      Otherwise an empty question is answered as "general concept", the
      trimmed question joins the topics if it is non-blank and new, and the
      question count goes up. */
  function HandleAsk(question: string, hasImage: bool, l: Language, p: StudentProgress): (r: Option<Ask>)
    ensures r.None? <==> Trim(question) == "" && !hasImage
    ensures r.Some? ==>
      r.value.response == GetAIResponse(if question == "" then GeneralConcept else question, l)
    ensures r.Some? ==>
      && r.value.update.questionsAsked == Some(p.questionsAsked + 1)
      && r.value.update.topicsSearched.Some?
      && r.value.update.correctAnswers.None? && r.value.update.wrongAnswers.None?
      && r.value.update.weakTopics.None? && r.value.update.masteryLevel.None?
    ensures r.Some? && Trim(question) != "" ==>
      r.value.update.topicsSearched.value == AppendIfAbsent(p.topicsSearched, Trim(question))
    ensures r.Some? && Trim(question) == "" ==>
      r.value.update.topicsSearched.value == p.topicsSearched
  {
    var trimmed := Trim(question);
    if trimmed == "" && !hasImage then None
    else
      var asked := if question == "" then GeneralConcept else question;
      var topics := if trimmed != "" then AppendIfAbsent(p.topicsSearched, trimmed) else p.topicsSearched;
      Some(Ask(GetAIResponse(asked, l),
               Update(Some(topics), Some(p.questionsAsked + 1), None, None, None, None)))
  }

  /** After an ask is merged: one more question, the answer counters as
      they were, the trimmed question among the topics, no duplicate added,
      and asking the same question again leaves the topics alone. */
  lemma AskEffect(question: string, hasImage: bool, l: Language, p: StudentProgress)
    requires Trim(question) != "" || hasImage
    ensures var a := HandleAsk(question, hasImage, l, p).value;
      var g := Merge(p, a.update);
      && g.questionsAsked == p.questionsAsked + 1
      && g.correctAnswers == p.correctAnswers && g.wrongAnswers == p.wrongAnswers
      && (Trim(question) != "" ==> Trim(question) in g.topicsSearched)
      && (NoDup(p.topicsSearched) ==> NoDup(g.topicsSearched))
      && HandleAsk(question, hasImage, l, g).value.update.topicsSearched.value == g.topicsSearched
  {
    var g := Merge(p, HandleAsk(question, hasImage, l, p).value.update);
    if Trim(question) != "" {
      AppendIfAbsentIdempotent(p.topicsSearched, Trim(question));
    }
  }

  const WordLimit: nat := 15

  /** `slice(0, n)`. */
  function Take<T>(s: seq<T>, n: nat): (r: seq<T>)
    ensures |r| == if |s| < n then |s| else n
    ensures r == s[..|r|]
  {
    if |s| <= n then s else s[..n]
  }

  function SimplerPrefix(l: Language): string {
    match l
    case Hindi => "✨ सरल शब्दों में: "
    case Hinglish => "✨ Aur simple mein: "
    case English => "✨ Even simpler: "
  }

  /** The first fifteen space-separated words of an explanation. */
  function FirstWords(explanation: string): string {
    Join(Take(Split(explanation, ' '), WordLimit), ' ')
  }

  /** The simplified explanation: a language prefix, the first fifteen
      words, and an ellipsis. The words kept are exactly the first
      min(15, n) words of the explanation, and they are a prefix of it. */
  function Simplify(explanation: string, l: Language): (r: string)
    ensures r == SimplerPrefix(l) + FirstWords(explanation) + "..."
    ensures StartsWith(explanation, FirstWords(explanation))
    ensures Split(FirstWords(explanation), ' ') == Take(Split(explanation, ' '), WordLimit)
    ensures |Split(FirstWords(explanation), ' ')| <= WordLimit
  {
    var parts := Split(explanation, ' ');
    var k := if |parts| < WordLimit then |parts| else WordLimit;
    JoinPrefix(parts, k, ' ');
    JoinSplit(explanation, ' ');
    SplitJoin(parts[..k], ' ');
    SimplerPrefix(l) + FirstWords(explanation) + "..."
  }

  /** An explanation of at most fifteen words is kept whole. */
  lemma ShortExplanationKeptWhole(explanation: string, l: Language)
    requires |Split(explanation, ' ')| <= WordLimit
    ensures Simplify(explanation, l) == SimplerPrefix(l) + explanation + "..."
  {
    JoinSplit(explanation, ' ');
  }
}
