/** The parent's dashboard: the same figures as the student's screen,
    computed again from the record it is given, with a shorter topic list
    and the number of the student it reports on. */
module ParentDashboard {
  import opened Wrappers
  import opened Text
  import opened Progress
  import ProgressView

  const RecentCount: nat := 5

  datatype ParentView = ParentView(
    student: string,
    accuracy: int,
    mastery: int,
    accuracyBand: ProgressView.Band,
    recent: seq<string>,
    attention: bool)

  function Render(p: StudentProgress, mobile: string, studentMobile: string): (v: ParentView)
    ensures v.student == (if studentMobile != "" then studentMobile else mobile)
    ensures 0 <= v.accuracy <= 100 && 0 <= v.mastery <= 100
    ensures p.correctAnswers + p.wrongAnswers == 0 ==> v.accuracy == 0
    ensures v.accuracyBand == ProgressView.AccuracyBand(v.accuracy)
    ensures |v.recent| == if |p.topicsSearched| < RecentCount then |p.topicsSearched| else RecentCount
    ensures exists front :: front + v.recent == p.topicsSearched
    ensures v.attention <==> p.wrongAnswers > 2
  {
    var accuracy := Accuracy(p.correctAnswers, p.wrongAnswers);
    ParentView(
      OrDefault(Some(studentMobile), mobile),
      accuracy,
      Mastery(|p.topicsSearched|, p.correctAnswers),
      ProgressView.AccuracyBand(accuracy),
      LastN(p.topicsSearched, RecentCount),
      p.wrongAnswers > 2)
  }

  /** Parent and student see the same accuracy, mastery and warning for the
      same record, and the parent's topics are the tail of the student's. */
  lemma AgreesWithStudentView(p: StudentProgress, mobile: string, studentMobile: string)
    ensures var v := Render(p, mobile, studentMobile);
      var w := ProgressView.Render(p);
      && v.accuracy == w.accuracy
      && v.mastery == w.mastery
      && v.attention == w.weakAdvice
      && exists front :: front + v.recent == w.recent
  {
    var s := p.topicsSearched;
    var v := Render(p, mobile, studentMobile);
    var w := ProgressView.Render(p);
    var k5 := if |s| < RecentCount then |s| else RecentCount;
    var k8 := if |s| < ProgressView.RecentCount then |s| else ProgressView.RecentCount;
    assert v.recent == s[|s| - k5..];
    assert w.recent == s[|s| - k8..];
    assert w.recent[..k8 - k5] + v.recent == w.recent;
  }
}
