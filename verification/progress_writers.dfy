/** The three screens that write the progress record (practice answers,
    doubts, lessons), each passing its partial update through
    `handleUpdateProgress`, and the invariants the record keeps under any
    sequence of them. */
module ProgressWriters {
  import opened Wrappers
  import opened Languages
  import opened Progress
  import opened Text
  import Practice
  import DoubtBox
  import LearnTopic

  /** One user action that may write the record: scoring a practice answer,
      asking a doubt, or opening a lesson (with the topic button's argument
      and the text in the field). */
  datatype Action =
    | Answered(hit: bool)
    | Asked(question: string, hasImage: bool)
    | Learned(arg: Option<string>, field: string)

  /** The partial update an action sends from record `p`, if any. */
  function UpdateFor(a: Action, l: Language, p: StudentProgress): Option<Update> {
    match a
    case Answered(hit) => Some(Practice.AnswerUpdate(p, hit))
    case Asked(question, hasImage) =>
      (match DoubtBox.HandleAsk(question, hasImage, l, p)
       case None => None
       case Some(ask) => Some(ask.update))
    case Learned(arg, field) =>
      LearnTopic.HandleLearn(LearnTopic.Screen(field, None, ""), arg, l, p).update
  }

  function Apply(p: StudentProgress, a: Action, l: Language): StudentProgress {
    match UpdateFor(a, l, p)
    case None => p
    case Some(u) => Merge(p, u)
  }

  function Run(p: StudentProgress, actions: seq<Action>, l: Language): StudentProgress
    decreases |actions|
  {
    if actions == [] then p else Run(Apply(p, actions[0], l), actions[1..], l)
  }

  /** Unique topics (they are React keys on the progress screen) and a
      stored mastery level that matches the formula. */
  predicate Healthy(p: StudentProgress) {
    NoDup(p.topicsSearched) && Consistent(p)
  }

  function AnswerCount(actions: seq<Action>): (n: nat)
    ensures n <= |actions|
    decreases |actions|
  {
    if actions == [] then 0
    else (if actions[0].Answered? then 1 else 0) + AnswerCount(actions[1..])
  }

  /** What one write may do to a healthy record: keep it healthy, add one
      to the answer total exactly when it scores an answer, never take back
      a correct answer, and only ever append topics. */
  predicate WellBehaved(p: StudentProgress, q: StudentProgress, answered: bool) {
    && Healthy(q)
    && q.correctAnswers + q.wrongAnswers == p.correctAnswers + p.wrongAnswers + (if answered then 1 else 0)
    && q.correctAnswers >= p.correctAnswers
    && |q.topicsSearched| >= |p.topicsSearched|
    && q.topicsSearched[..|p.topicsSearched|] == p.topicsSearched
  }

  lemma AnswerIsWellBehaved(p: StudentProgress, hit: bool, l: Language)
    requires Healthy(p)
    ensures WellBehaved(p, Apply(p, Answered(hit), l), true)
    ensures Apply(p, Answered(hit), l).topicsSearched == p.topicsSearched
  {
    var q := Merge(p, Practice.AnswerUpdate(p, hit));
    assert q.topicsSearched == p.topicsSearched;
  }

  /** A partial update that appends to the topics (keeping them unique) and
      raises the answer total by at most the one answer it scores. */
  predicate GoodUpdate(p: StudentProgress, u: Update, answered: bool) {
    && (u.topicsSearched.Some? ==>
          var t := u.topicsSearched.value;
          NoDup(t) && |t| >= |p.topicsSearched| && t[..|p.topicsSearched|] == p.topicsSearched)
    && u.correctAnswers.GetOr(p.correctAnswers) + u.wrongAnswers.GetOr(p.wrongAnswers)
         == p.correctAnswers + p.wrongAnswers + (if answered then 1 else 0)
    && u.correctAnswers.GetOr(p.correctAnswers) >= p.correctAnswers
  }

  lemma GoodUpdateIsWellBehaved(p: StudentProgress, u: Update, answered: bool)
    requires Healthy(p) && GoodUpdate(p, u, answered)
    ensures WellBehaved(p, Merge(p, u), answered)
  {
  }

  /** An update that leaves both answer counters alone and sends either no
      topics or the old ones with at most one unseen topic added is good. */
  lemma TopicUpdateIsGood(p: StudentProgress, u: Update, t: string)
    requires NoDup(p.topicsSearched)
    requires u.correctAnswers.None? && u.wrongAnswers.None?
    requires u.topicsSearched.None? || u.topicsSearched.value == p.topicsSearched
      || u.topicsSearched.value == AppendIfAbsent(p.topicsSearched, t)
    ensures GoodUpdate(p, u, false)
  {
  }

  /** The update a doubt sends is a good one. */
  lemma AskUpdateIsGood(p: StudentProgress, question: string, hasImage: bool, l: Language)
    requires Healthy(p)
    ensures var r := DoubtBox.HandleAsk(question, hasImage, l, p);
      r.Some? ==> GoodUpdate(p, r.value.update, false)
  {
    var r := DoubtBox.HandleAsk(question, hasImage, l, p);
    if r.Some? {
      TopicUpdateIsGood(p, r.value.update, Trim(question));
    }
  }

  lemma AskIsWellBehaved(p: StudentProgress, question: string, hasImage: bool, l: Language)
    requires Healthy(p)
    ensures WellBehaved(p, Apply(p, Asked(question, hasImage), l), false)
  {
    AskUpdateIsGood(p, question, hasImage, l);
    var r := DoubtBox.HandleAsk(question, hasImage, l, p);
    if r.Some? {
      GoodUpdateIsWellBehaved(p, r.value.update, false);
    }
  }

  /** The update a lesson sends is a good one. */
  lemma LearnUpdateIsGood(p: StudentProgress, arg: Option<string>, field: string, l: Language)
    requires Healthy(p)
    ensures var r := LearnTopic.HandleLearn(LearnTopic.Screen(field, None, ""), arg, l, p);
      r.update.Some? ==> GoodUpdate(p, r.update.value, false)
  {
    var r := LearnTopic.HandleLearn(LearnTopic.Screen(field, None, ""), arg, l, p);
    if r.update.Some? {
      TopicUpdateIsGood(p, r.update.value, OrDefault(arg, field));
    }
  }

  lemma LearnIsWellBehaved(p: StudentProgress, arg: Option<string>, field: string, l: Language)
    requires Healthy(p)
    ensures WellBehaved(p, Apply(p, Learned(arg, field), l), false)
  {
    LearnUpdateIsGood(p, arg, field, l);
    var r := LearnTopic.HandleLearn(LearnTopic.Screen(field, None, ""), arg, l, p);
    if r.update.Some? {
      GoodUpdateIsWellBehaved(p, r.update.value, false);
    }
  }

  /** Every kind of write is well behaved. */
  lemma ApplyKeepsHealthy(p: StudentProgress, a: Action, l: Language)
    requires Healthy(p)
    ensures WellBehaved(p, Apply(p, a, l), a.Answered?)
  {
    match a
    case Answered(hit) => AnswerIsWellBehaved(p, hit, l);
    case Asked(question, hasImage) => AskIsWellBehaved(p, question, hasImage, l);
    case Learned(arg, field) => LearnIsWellBehaved(p, arg, field, l);
  }

  /** Any sequence of writes keeps the record healthy, counts one answer per
      scored question, and never lowers the mastery level. */
  lemma {:induction false} RunKeepsHealthy(p: StudentProgress, actions: seq<Action>, l: Language)
    requires Healthy(p)
    ensures var q := Run(p, actions, l);
      && Healthy(q)
      && q.correctAnswers + q.wrongAnswers == p.correctAnswers + p.wrongAnswers + AnswerCount(actions)
      && q.masteryLevel >= p.masteryLevel
    decreases |actions|
  {
    if actions != [] {
      var next := Apply(p, actions[0], l);
      ApplyKeepsHealthy(p, actions[0], l);
      MasteryMonotone(|p.topicsSearched|, p.correctAnswers, |next.topicsSearched|, next.correctAnswers);
      RunKeepsHealthy(next, actions[1..], l);
    }
  }

  /** A fresh record is healthy, so every record the app builds is. */
  lemma FreshRecordStaysHealthy(actions: seq<Action>, l: Language)
    ensures Healthy(Run(DefaultProgress, actions, l))
    ensures var q := Run(DefaultProgress, actions, l);
      q.correctAnswers + q.wrongAnswers == AnswerCount(actions)
  {
    DefaultIsConsistent();
    RunKeepsHealthy(DefaultProgress, actions, l);
  }
}
