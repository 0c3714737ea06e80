/** The practice quiz: a fixed bank of five multiple-choice questions per
    language and the session state machine that walks through it (answer
    once, advance or finish, restart), together with the update it sends to
    the global progress record. */
module Practice {
  import opened Wrappers
  import opened Languages
  import opened Progress

  datatype Question = Question(q: string, options: seq<string>, correct: nat, explanation: string)

  const BankSize: nat := 5

  /** The index of the right option for each question, the same in every
      language. */
  const AnswerKey: seq<nat> := [1, 1, 2, 1, 0]

  /** Four options and an answer index that points at one of them. */
  predicate WellFormed(q: Question) {
    |q.options| == 4 && q.correct < |q.options|
  }

  /** The five questions, in the order the session asks them. */
  function Bank(l: Language): (qs: seq<Question>)
    ensures |qs| == BankSize
    ensures forall i :: 0 <= i < |qs| ==> WellFormed(qs[i])
    ensures forall i :: 0 <= i < |qs| ==> qs[i].correct == AnswerKey[i]
  {
    seq(BankSize, i requires 0 <= i < BankSize => Nth(i, l))
  }

  /** Question number `k` of the bank. */
  function Nth(k: nat, l: Language): (q: Question)
    requires k < BankSize
    ensures WellFormed(q) && q.correct == AnswerKey[k]
  {
    if k == 0 then FractionSum(l)
    else if k == 1 then PlantFood(l)
    else if k == 2 then Product(l)
    else if k == 3 then TriangleAngles(l)
    else SunDistance(l)
  }

  function FractionSum(l: Language): (q: Question)
    ensures WellFormed(q) && q.correct == AnswerKey[0]
  {
    var options := ["1/2", "3/4", "2/6", "1/4"];
    match l
    case Hindi => Question("1/2 + 1/4 = ?", options, 1, ("1/2 = 2/4, तो 2/4 + " + "1/4 = 3/4 ✅"))
    case Hinglish => Question("1/2 + 1/4 = ?", options, 1, ("1/2 = 2/4 hai, toh 2/4 " + "+ 1/4 = 3/4 ✅"))
    case English => Question("1/2 + 1/4 = ?", options, 1, ("1/2 = 2/4, so 2/4 + " + "1/4 = 3/4 ✅"))
  }

  function PlantFood(l: Language): (q: Question)
    ensures WellFormed(q) && q.correct == AnswerKey[1]
  {
    match l
    case Hindi =>
      Question(("पौधों में भोजन बनाने " + "की प्रक्रिया क्या कहलाती " + "है?"),
        ["श्वसन", "प्रकाश संश्लेषण", "पाचन", "जनन"], 1,
        ("Photosynthesis = प्रकाश " + "संश्लेषण – पौधे इसी " + "से खाना बनाते हैं ✅"))
    case Hinglish =>
      Question(("Plants mein khana banane " + "ki process ko kya kehte " + "hain?"),
        ["Respiration", "Photosynthesis", "Digestion", "Reproduction"], 1,
        ("Photosynthesis – plants " + "isi se apna khana banate " + "hain ✅"))
    case English =>
      Question(("What is the process " + "of making food in plants " + "called?"),
        ["Respiration", "Photosynthesis", "Digestion", "Reproduction"], 1,
        ("Photosynthesis – that's " + "how plants make their " + "food ✅"))
  }

  function Product(l: Language): (q: Question)
    ensures WellFormed(q) && q.correct == AnswerKey[2]
  {
    var options := ["10", "15", "25", "30"];
    match l
    case Hindi => Question("5 × 5 = ?", options, 2, ("5 × 5 = 25 ✅ (5 को 5 " + "बार जोड़ो)"))
    case Hinglish => Question("5 × 5 = ?", options, 2, ("5 × 5 = 25 ✅ (5 ko 5 " + "baar jodo)"))
    case English => Question("5 × 5 = ?", options, 2, ("5 × 5 = 25 ✅ (add 5 " + "five times)"))
  }

  function TriangleAngles(l: Language): (q: Question)
    ensures WellFormed(q) && q.correct == AnswerKey[3]
  {
    var options := ["2", "3", "4", "5"];
    match l
    case Hindi => Question(("त्रिभुज के कितने कोण " + "होते हैं?"), options, 1, "त्रिभुज = 3 भुजाएँ और 3 कोण ✅")
    case Hinglish => Question(("Triangle ke kitne angle " + "hote hain?"), options, 1, ("Triangle = 3 sides aur " + "3 angles ✅"))
    case English => Question(("How many angles does " + "a triangle have?"), options, 1, ("Triangle = 3 sides and " + "3 angles ✅"))
  }

  function SunDistance(l: Language): (q: Question)
    ensures WellFormed(q) && q.correct == AnswerKey[4]
  {
    match l
    case Hindi =>
      Question(("पृथ्वी से सूर्य की दूरी " + "लगभग कितनी है?"),
        ["15 करोड़ km", "1 करोड़ km", "50 करोड़ km", "5 करोड़ km"], 0,
        ("पृथ्वी से सूर्य ≈ 15 " + "करोड़ किलोमीटर दूर है " + "✅"))
    case Hinglish =>
      Question(("Earth se Sun ki distance " + "kitni hai?"),
        ["15 crore km", "1 crore km", "50 crore km", "5 crore km"], 0,
        ("Earth se Sun ≈ 15 crore " + "kilometer door hai ✅"))
    case English =>
      Question(("What is the approximate " + "distance from Earth " + "to Sun?"),
        ["150 million km", "10 million km", "500 million km", "50 million km"], 0,
        ("Earth to Sun ≈ 150 million " + "kilometers ✅"))
  }

  /** The component's state: the question on screen, the chosen option, and
      the session's own score. */
  datatype Session = Session(
    currentQ: nat,
    selected: Option<int>,
    showResult: bool,
    correct: nat,
    wrong: nat,
    finished: bool)

  const Start := Session(0, None, false, 0, 0, false)

  /** What every reachable session satisfies: the index is in the bank, the
      result is shown exactly when an option is chosen, and no question has
      been scored more than once. */
  predicate Valid(s: Session) {
    && s.currentQ < BankSize
    && (s.showResult <==> s.selected.Some?)
    && s.correct + s.wrong <= s.currentQ + (if s.selected.Some? then 1 else 0)
  }

  /** A session in which every question up to the current one was answered. */
  predicate AllAnswered(s: Session) {
    s.correct + s.wrong == s.currentQ + (if s.selected.Some? then 1 else 0)
  }

  /** `index === q.correct` for the question on screen, read off the answer
      key (see `IsCorrectReadsBank`). */
  function IsCorrect(l: Language, s: Session, index: int): bool
    requires s.currentQ < BankSize
  {
    index == AnswerKey[s.currentQ] as int
  }

  /** The verdict is the one the bank's own question gives, in every
      language. */
  lemma IsCorrectReadsBank(l: Language, s: Session, index: int)
    requires s.currentQ < BankSize
    ensures IsCorrect(l, s, index) <==> index == Bank(l)[s.currentQ].correct as int
  {
  }

  /** The session half of `handleSelect` for a question not yet answered:
      record the choice, show the result, and score it in exactly one of
      the two session counters. */
  function Answer(s: Session, l: Language, index: int): (r: Session)
    requires Valid(s) && s.selected.None?
    ensures r.selected == Some(index) && r.showResult
    ensures r.currentQ == s.currentQ && r.finished == s.finished
    ensures IsCorrect(l, s, index) ==> r.correct == s.correct + 1 && r.wrong == s.wrong
    ensures !IsCorrect(l, s, index) ==> r.correct == s.correct && r.wrong == s.wrong + 1
    ensures Valid(r)
    ensures AllAnswered(s) ==> AllAnswered(r)
  {
    var hit := IsCorrect(l, s, index);
    s.(selected := Some(index), showResult := true,
       correct := s.correct + (if hit then 1 else 0),
       wrong := s.wrong + (if hit then 0 else 1))
  }

  /** The partial progress update `handleSelect` sends: the two answer
      counters, one of them one higher, and no other field. */
  function AnswerUpdate(p: StudentProgress, hit: bool): (u: Update)
    ensures u.topicsSearched.None? && u.questionsAsked.None? && u.weakTopics.None?
    ensures u.masteryLevel.None?
    ensures u.correctAnswers.Some? && u.wrongAnswers.Some?
    ensures u.correctAnswers.value + u.wrongAnswers.value == p.correctAnswers + p.wrongAnswers + 1
    ensures hit <==> u.correctAnswers.value == p.correctAnswers + 1
    ensures hit <==> u.wrongAnswers.value == p.wrongAnswers
  {
    Update(None, None,
      Some(p.correctAnswers + (if hit then 1 else 0)),
      Some(p.wrongAnswers + (if hit then 0 else 1)),
      None, None)
  }

  datatype Selection = Selection(session: Session, update: Option<Update>)

  /** `handleSelect`: a second click on an answered question changes nothing
      and sends no update. */
  function Select(s: Session, l: Language, index: int, p: StudentProgress): (r: Selection)
    requires Valid(s)
    ensures s.selected.Some? ==> r == Selection(s, None)
    ensures s.selected.None? ==> r.session == Answer(s, l, index)
    ensures s.selected.None? ==> r.update == Some(AnswerUpdate(p, IsCorrect(l, s, index)))
    ensures Valid(r.session)
  {
    if s.selected.Some? then Selection(s, None)
    else Selection(Answer(s, l, index), Some(AnswerUpdate(p, IsCorrect(l, s, index))))
  }

  /** One answer moves the session score and the global score the same way:
      the same counter goes up by one in both, and the merged record keeps
      the topics and question count it had. */
  lemma SelectMovesBothScores(s: Session, l: Language, index: int, p: StudentProgress)
    requires Valid(s) && s.selected.None?
    ensures var r := Select(s, l, index, p);
      var g := Merge(p, r.update.value);
      && g.correctAnswers - p.correctAnswers == r.session.correct - s.correct
      && g.wrongAnswers - p.wrongAnswers == r.session.wrong - s.wrong
      && g.correctAnswers + g.wrongAnswers == p.correctAnswers + p.wrongAnswers + 1
      && g.topicsSearched == p.topicsSearched
      && g.questionsAsked == p.questionsAsked
      && g.weakTopics == p.weakTopics
  {
  }

  /** `handleNext`: move to the next question with the choice cleared, or
      mark the session finished on the last one. */
  function Next(s: Session): (r: Session)
    ensures s.currentQ + 1 < BankSize ==>
      r.currentQ == s.currentQ + 1 && r.selected.None? && !r.showResult && r.finished == s.finished
    ensures s.currentQ + 1 >= BankSize ==> r == s.(finished := true)
    ensures r.correct == s.correct && r.wrong == s.wrong
    ensures Valid(s) ==> Valid(r)
    ensures Valid(s) && s.selected.Some? && AllAnswered(s) ==> AllAnswered(r)
  {
    if s.currentQ < BankSize - 1 then
      s.(currentQ := s.currentQ + 1, selected := None, showResult := false)
    else
      s.(finished := true)
  }

  /** `handleRestart`: every session field back to its first value. */
  function Restart(s: Session): (r: Session)
    ensures r.currentQ == 0 && r.selected.None? && !r.showResult
    ensures r.correct == 0 && r.wrong == 0 && !r.finished
    ensures Valid(r) && AllAnswered(r)
  {
    Start
  }

  /** The score shown when the session is finished. */
  function SessionPercent(s: Session): (pct: int)
    requires Valid(s)
    ensures 0 <= pct <= 100
    ensures s.correct == 0 ==> pct == 0
    ensures s.correct == BankSize ==> pct == 100
  {
    RoundedPercent(s.correct, BankSize)
  }

  /** How many of `answers` hit the key, starting at question `k`. */
  function Hits(k: nat, answers: seq<int>): (n: nat)
    requires k + |answers| <= BankSize
    ensures n <= |answers|
    decreases |answers|
  {
    if answers == [] then 0
    else (if answers[0] == AnswerKey[k] as int then 1 else 0) + Hits(k + 1, answers[1..])
  }

  /** A run through the quiz as the screen allows it: choose an option, then
      press next, once per answer. */
  function Play(s: Session, l: Language, answers: seq<int>): Session
    requires Valid(s)
    decreases |answers|
  {
    if answers == [] then s
    else
      var chosen := Select(s, l, answers[0], DefaultProgress).session;
      Play(Next(chosen), l, answers[1..])
  }

  /** One round of `Play`: the answer is scored once and the session moves
      on (or finishes after the last question). */
  lemma PlayStep(s: Session, l: Language, answers: seq<int>)
    requires Valid(s) && s.selected.None? && !s.finished && AllAnswered(s)
    requires |answers| > 0 && s.currentQ + |answers| == BankSize
    ensures var next := Next(Select(s, l, answers[0], DefaultProgress).session);
      && Play(s, l, answers) == Play(next, l, answers[1..])
      && next.correct == s.correct + Hits(s.currentQ, answers) - Hits(s.currentQ + 1, answers[1..])
      && next.correct + next.wrong == s.currentQ + 1
      && Valid(next) && AllAnswered(next)
      && (|answers| > 1 ==> next.selected.None? && !next.finished && next.currentQ == s.currentQ + 1)
      && (|answers| == 1 ==> next.finished)
  {
  }

  /** Answering the remaining questions in order ends the session with every
      question scored once, `Hits` of them correct. */
  lemma {:induction false} PlayScores(s: Session, l: Language, answers: seq<int>)
    requires Valid(s) && s.selected.None? && !s.finished && AllAnswered(s)
    requires |answers| > 0 && s.currentQ + |answers| == BankSize
    ensures var r := Play(s, l, answers);
      && r.finished
      && r.correct == s.correct + Hits(s.currentQ, answers)
      && r.correct + r.wrong == BankSize
      && Valid(r)
    decreases |answers|
  {
    var next := Next(Select(s, l, answers[0], DefaultProgress).session);
    PlayStep(s, l, answers);
    if |answers| > 1 {
      PlayScores(next, l, answers[1..]);
    } else {
      assert answers[1..] == [];
    }
  }

  /** A full session from the start scores exactly the hits among the five
      answers. */
  lemma FullSession(l: Language, answers: seq<int>)
    requires |answers| == BankSize
    ensures var r := Play(Start, l, answers);
      r.finished && r.correct == Hits(0, answers) && r.correct + r.wrong == BankSize
  {
    PlayScores(Start, l, answers);
  }
}
