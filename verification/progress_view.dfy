/** The student's progress screen: the figures it derives from the
    progress record and which cards it shows. */
module ProgressView {
  import opened Wrappers
  import opened Progress

  /** The stars over the mastery bar. */
  function Stars(mastery: int): (n: nat)
    ensures n <= 3
    ensures n == (if mastery >= 20 then 1 else 0) + (if mastery >= 50 then 1 else 0)
                 + (if mastery >= 80 then 1 else 0)
  {
    if mastery >= 80 then 3 else if mastery >= 50 then 2 else if mastery >= 20 then 1 else 0
  }

  /** More mastery never shows fewer stars. */
  lemma StarsMonotone(m: int, m': int)
    requires m <= m'
    ensures Stars(m) <= Stars(m')
  {
  }

  /** The colour of an accuracy figure. */
  datatype Band = Success | Warning | Destructive

  function AccuracyBand(accuracy: int): (b: Band)
    ensures b == Success <==> accuracy >= 80
    ensures b == Warning <==> 60 <= accuracy < 80
    ensures b == Destructive <==> accuracy < 60
  {
    if accuracy >= 80 then Success else if accuracy >= 60 then Warning else Destructive
  }

  function Rank(b: Band): nat {
    match b
    case Destructive => 0
    case Warning => 1
    case Success => 2
  }

  /** A higher accuracy never gets a worse colour. */
  lemma BandMonotone(a: int, a': int)
    requires a <= a'
    ensures Rank(AccuracyBand(a)) <= Rank(AccuracyBand(a'))
  {
  }

  const RecentCount: nat := 8

  /** What the screen shows: the accuracy card (with its colour) only once
      something was answered, the recent-topic badges, and whether the
      weak-topic advice replaces the all-clear line. */
  datatype View = View(
    accuracy: int,
    mastery: int,
    stars: nat,
    accuracyCard: Option<Band>,
    recent: seq<string>,
    weakAdvice: bool)

  function Render(p: StudentProgress): (v: View)
    ensures 0 <= v.accuracy <= 100 && 0 <= v.mastery <= 100 && v.stars <= 3
    ensures v.accuracy == Accuracy(p.correctAnswers, p.wrongAnswers)
    ensures v.mastery == Mastery(|p.topicsSearched|, p.correctAnswers)
    ensures v.stars == Stars(v.mastery)
    ensures v.accuracyCard.Some? <==> p.correctAnswers + p.wrongAnswers > 0
    ensures v.accuracyCard.Some? ==> v.accuracyCard.value == AccuracyBand(v.accuracy)
    ensures |v.recent| == if |p.topicsSearched| < RecentCount then |p.topicsSearched| else RecentCount
    ensures exists front :: front + v.recent == p.topicsSearched
    ensures v.weakAdvice <==> p.wrongAnswers > 2
  {
    var accuracy := Accuracy(p.correctAnswers, p.wrongAnswers);
    var mastery := Mastery(|p.topicsSearched|, p.correctAnswers);
    View(accuracy, mastery, Stars(mastery),
      if p.correctAnswers + p.wrongAnswers > 0 then Some(AccuracyBand(accuracy)) else None,
      LastN(p.topicsSearched, RecentCount),
      p.wrongAnswers > 2)
  }

  /** The screen recomputes mastery, and on a record kept by
      `handleUpdateProgress` it shows exactly the stored level. */
  lemma RenderShowsStoredMastery(p: StudentProgress)
    requires Consistent(p)
    ensures Render(p).mastery == p.masteryLevel
  {
  }

  /** The recent-topic badges are unique keys whenever the topics are. */
  lemma RecentKeysUnique(p: StudentProgress)
    requires NoDup(p.topicsSearched)
    ensures NoDup(Render(p).recent)
  {
  }

  /** The empty-state card shows exactly when there are no topics. */
  lemma RecentEmptyIffNoTopics(p: StudentProgress)
    ensures Render(p).recent == [] <==> p.topicsSearched == []
  {
  }

  /** Answering correctly can only add stars. */
  lemma CorrectAnswerNeverCostsStars(p: StudentProgress)
    ensures Render(p).stars <= Render(p.(correctAnswers := p.correctAnswers + 1)).stars
  {
    MasteryMonotone(|p.topicsSearched|, p.correctAnswers, |p.topicsSearched|, p.correctAnswers + 1);
  }
}
