/** The learn-topic screen: the canned lesson built around any topic, the
    `handleLearn` guard and progress update, and the reset button. */
module LearnTopic {
  import opened Wrappers
  import opened Text
  import opened Languages
  import opened Progress

  /** One `{q, a}` practice pair of a lesson. */
  datatype Exercise = Exercise(q: string, a: string)

  datatype Lesson = Lesson(definition: string, steps: seq<string>, mistakes: seq<string>, practice: seq<Exercise>)

  /** A practice question built around the topic. */
  function Ask(lead: string, topic: string, tail: string, answer: string): (e: Exercise)
    ensures Contains(e.q, topic) && e.a == answer
  {
    ContainsMiddle(lead, topic, tail);
    Exercise(lead + topic + tail, answer)
  }

  function DefinitionTail(l: Language): string {
    match l
    case Hindi => (" एक महत्वपूर्ण concept " + "है। आइए इसे बिल्कुल " + "शुरू से समझते हैं। यह " + "हमारी रोज़ की ज़िंदगी " + "में बहुत काम आता है।")
    case Hinglish => (" ek important concept " + "hai. Chalte hain bilkul " + "start se samjhein. Yeh " + "hamari daily life mein " + "bahut kaam aata hai.")
    case English => (" is an important concept. " + "Let's understand it " + "from the very beginning. " + "It is useful in our " + "daily life too!")
  }

  function Steps(l: Language): (steps: seq<string>)
    ensures |steps| == 4
  {
    match l
    case Hindi => ["पहले definition समझो", "फिर example देखो", "छोटे-छोटे parts में बाँटो", "Practice problems solve करो"]
    case Hinglish => ["Pehle definition samjho", "Phir example dekho", "Chote parts mein todo", "Practice problems karo"]
    case English => [("First understand the " + "definition"), "Then see a real example", "Break it into smaller parts", "Solve practice problems"]
  }

  function Mistakes(l: Language): (mistakes: seq<string>)
    ensures |mistakes| == 3
  {
    match l
    case Hindi => ["Steps skip मत करो", "Formula रटने की बजाय समझो", "Practice ज़रूर करो"]
    case Hinglish => ["Steps kabhi skip mat karo", "Formula ratne ki jagah samjho", "Daily practice karo"]
    case English => ["Never skip steps", ("Understand formulas, " + "don't just memorize"), "Practice every day"]
  }

  function Practice(topic: string, l: Language): (practice: seq<Exercise>)
    ensures |practice| == 3
    ensures forall i :: 0 <= i < |practice| ==> Contains(practice[i].q, topic)
  {
    match l
    case Hindi => [
      Ask("", topic, (" का सबसे आसान example " + "क्या है?"), "रोज़ की ज़िंदगी में देखो!"),
      Ask("", topic, " कहाँ use होता है?", ("हर जगह – घर में, बाजार " + "में, प्रकृति में!")),
      Ask("", topic, " को कैसे याद रखें?", ("story बनाओ और real life " + "से जोड़ो!"))]
    case Hinglish => [
      Ask("", topic, (" ka sabse easy example " + "kya hai?"), "Daily life mein dekho!"),
      Ask("", topic, " kahan use hota hai?", ("Har jagah – ghar mein, " + "market mein, nature " + "mein!")),
      Ask("", topic, " yaad kaise rakhein?", ("Story banao aur real " + "life se jodo!"))]
    case English => [
      Ask(("What is the simplest " + "example of "), topic, "?", "Look in your daily life!"),
      Ask("Where is ", topic, " used in real life?", ("Everywhere – home, market, " + "nature!")),
      Ask("How to remember ", topic, "?", ("Make a story and connect " + "to real life!"))]
  }

  /** `getTopicContent`: the same lesson shape for every topic, opening with
      the topic itself. */
  function GetTopicContent(topic: string, l: Language): (r: Lesson)
    ensures StartsWith(r.definition, topic)
    ensures |r.steps| == 4 && |r.mistakes| == 3 && |r.practice| == 3
  {
    Lesson(topic + DefinitionTail(l), Steps(l), Mistakes(l), Practice(topic, l))
  }

  /** Every practice question of a lesson mentions its topic. */
  lemma LessonMentionsTopic(topic: string, l: Language)
    ensures var r := GetTopicContent(topic, l);
      forall i :: 0 <= i < |r.practice| ==> Contains(r.practice[i].q, topic)
  {
    assert GetTopicContent(topic, l).practice == Practice(topic, l);
  }

  /** The topic field, the lesson on screen and the topic it is about. */
  datatype Screen = Screen(input: string, content: Option<Lesson>, currentTopic: string)

  datatype Learned = Learned(screen: Screen, update: Option<Update>)

  /** `handleLearn(t)`: the argument if it is a non-empty string, else the
      field; nothing happens when that is blank. The raw (untrimmed) topic
      joins the topics if new, and no other field is sent. */
  function HandleLearn(st: Screen, arg: Option<string>, l: Language, p: StudentProgress): (r: Learned)
    ensures var t := OrDefault(arg, st.input);
      && (Trim(t) == "" ==> r == Learned(st, None))
      && (Trim(t) != "" ==>
            && r.screen == st.(content := Some(GetTopicContent(t, l)), currentTopic := t)
            && r.update == Some(Update(Some(AppendIfAbsent(p.topicsSearched, t)), None, None, None, None, None)))
  {
    var t := OrDefault(arg, st.input);
    if Trim(t) == "" then Learned(st, None)
    else
      Learned(st.(content := Some(GetTopicContent(t, l)), currentTopic := t),
              Some(Update(Some(AppendIfAbsent(p.topicsSearched, t)), None, None, None, None, None)))
  }

  /** After a lesson is merged: the topic is recorded once, the earlier
      topics keep their places, and the question and answer counters do not
      move. */
  lemma LearnEffect(st: Screen, arg: Option<string>, l: Language, p: StudentProgress)
    requires HandleLearn(st, arg, l, p).update.Some?
    ensures var t := OrDefault(arg, st.input);
      var g := Merge(p, HandleLearn(st, arg, l, p).update.value);
      && t in g.topicsSearched
      && g.topicsSearched[..|p.topicsSearched|] == p.topicsSearched
      && (NoDup(p.topicsSearched) ==> NoDup(g.topicsSearched))
      && g.questionsAsked == p.questionsAsked
      && g.correctAnswers == p.correctAnswers && g.wrongAnswers == p.wrongAnswers
      && g.weakTopics == p.weakTopics
  {
  }

  /** The "learn another topic" button. */
  function Reset(st: Screen): (r: Screen)
    ensures r.content.None? && r.input == "" && r.currentTopic == ""
  {
    Screen("", None, "")
  }

  /** Resetting after a lesson leaves no trace of it on screen. */
  lemma ResetForgetsLesson(st: Screen, arg: Option<string>, l: Language, p: StudentProgress)
    ensures Reset(HandleLearn(st, arg, l, p).screen) == Reset(st)
  {
  }
}
