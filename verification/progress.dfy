/** The `StudentProgress` record, its default, the partial update the
    components send, and the derived figures (rounded percentages and the
    mastery level) that several screens compute the same way. */
module Progress {
  import opened Wrappers

  /** The counters are natural numbers: every writer starts them at 0 and
      only adds to them. */
  datatype StudentProgress = StudentProgress(
    topicsSearched: seq<string>,
    questionsAsked: nat,
    correctAnswers: nat,
    wrongAnswers: nat,
    weakTopics: seq<string>,
    masteryLevel: int)

  const DefaultProgress := StudentProgress([], 0, 0, 0, [], 0)

  /** `Partial<StudentProgress>`: `None` is a field the update leaves out. */
  datatype Update = Update(
    topicsSearched: Option<seq<string>>,
    questionsAsked: Option<nat>,
    correctAnswers: Option<nat>,
    wrongAnswers: Option<nat>,
    weakTopics: Option<seq<string>>,
    masteryLevel: Option<int>)

  const NoChange := Update(None, None, None, None, None, None)

  /** `Math.round` on an exact rational: halves go up. */
  function RoundHalfUp(x: real): int {
    (x + 0.5).Floor
  }

  /** The floor of an exact quotient of naturals is integer division. */
  lemma FloorOfQuotient(a: nat, b: nat)
    requires b > 0
    ensures (a as real / b as real).Floor == a / b
  {
    var q := a / b;
    var r := a % b;
    assert a == q * b + r;
    assert (a as real) == (q as real) * (b as real) + r as real;
    assert (a as real) / (b as real) == q as real + (r as real) / (b as real);
    assert 0.0 <= (r as real) / (b as real) < 1.0;
  }

  /** Multiplying by a natural number keeps the order. */
  lemma MulMono(x: int, y: int, b: nat)
    ensures x <= y ==> x * b <= y * b
  {
    if x <= y {
      var d: nat := y - x;
      assert y * b == x * b + d * b;
    }
  }

  /** Integer division stays at or below `c` when `a < (c+1)·b`. */
  lemma DivAtMost(a: nat, b: nat, c: nat)
    requires b > 0 && a < (c + 1) * b
    ensures a / b <= c
  {
    var q := a / b;
    assert q * b <= a;
    MulMono(c + 1, q, b);
  }

  /** Integer division reaches at least `c` when `c·b <= a`. */
  lemma DivAtLeast(a: nat, b: nat, c: nat)
    requires b > 0 && c * b <= a
    ensures a / b >= c
  {
    var q := a / b;
    assert a < (q + 1) * b;
    MulMono(q + 1, c, b);
  }

  /** `Math.round(part / whole * 100)` with the `whole > 0` guard the
      screens put around it; 0 for an empty whole. The integer form is
      floor((200·part + whole) / (2·whole)). */
  function RoundedPercent(part: nat, whole: nat): (p: int)
    ensures whole == 0 ==> p == 0
    ensures part <= whole ==> 0 <= p <= 100
    ensures whole > 0 && part == whole ==> p == 100
    ensures part == 0 ==> p == 0
  {
    if whole == 0 then 0
    else
      PercentBounds(part, whole);
      (200 * part + whole) / (2 * whole)
  }

  lemma PercentBounds(part: nat, whole: nat)
    requires whole > 0
    ensures var p := (200 * part + whole) / (2 * whole);
      && p >= 0
      && (part <= whole ==> p <= 100)
      && (part == whole ==> p == 100)
      && (part == 0 ==> p == 0)
  {
    var a := 200 * part + whole;
    var b := 2 * whole;
    if part <= whole {
      DivAtMost(a, b, 100);
    }
    if part == whole {
      DivAtLeast(a, b, 100);
    }
    if part == 0 {
      DivAtMost(a, b, 0);
    }
  }

  /** The integer form is the rounded exact percentage. */
  lemma RoundedPercentIsRounded(part: nat, whole: nat)
    requires whole > 0
    ensures RoundedPercent(part, whole) == RoundHalfUp(part as real / whole as real * 100.0)
  {
    var P := part as real;
    var w := whole as real;
    var u := 1.0 / w;
    var x := P / w * 100.0;
    var y := (200 * part + whole) as real / (2 * whole) as real;
    assert w * u == 1.0;
    assert P / w == P * u;
    assert y == (200.0 * P + w) * u * 0.5;
    assert x + 0.5 == 100.0 * P * u + 0.5 * w * u;
    assert x + 0.5 == y;
    FloorOfQuotient(200 * part + whole, 2 * whole);
  }

  /** A larger part of the same whole never rounds to a smaller percentage. */
  lemma RoundedPercentMonotone(part: nat, part': nat, whole: nat)
    requires part <= part'
    ensures RoundedPercent(part, whole) <= RoundedPercent(part', whole)
  {
    if whole > 0 {
      var b := 2 * whole;
      var q := (200 * part + whole) / b;
      var q' := (200 * part' + whole) / b;
      assert q * b <= 200 * part + whole <= 200 * part' + whole < (q' + 1) * b;
      MulMono(q' + 1, q, b);
    }
  }

  /** Answer accuracy: the rounded share of correct answers, 0 before any. */
  function Accuracy(correct: nat, wrong: nat): (a: int)
    ensures 0 <= a <= 100
    ensures correct + wrong == 0 ==> a == 0
    ensures correct == 0 ==> a == 0
    ensures wrong == 0 && correct > 0 ==> a == 100
  {
    RoundedPercent(correct, correct + wrong)
  }

  /** `min(100, Math.round((10·topics + 5·correct) / 1.5))`, in integers. */
  function Mastery(topics: nat, correct: nat): (m: int)
    ensures 0 <= m <= 100
  {
    var raw := (40 * topics + 20 * correct + 3) / 6;
    if raw < 100 then raw else 100
  }

  /** The integer form equals the rounded exact quotient. */
  lemma MasteryIsRounded(topics: nat, correct: nat)
    ensures var x := RoundHalfUp((10 * topics + 5 * correct) as real / 1.5);
      Mastery(topics, correct) == if x < 100 then x else 100
  {
    var n := 10 * topics + 5 * correct;
    assert n as real / 1.5 + 0.5 == (4 * n + 3) as real / 6 as real;
    FloorOfQuotient(4 * n + 3, 6);
  }

  /** The unrounded quotient is never exactly half-way between integers, so
      rounding direction never matters and the integer form is exact. */
  lemma MasteryHasNoHalfCase(topics: nat, correct: nat, k: int)
    ensures (10 * topics + 5 * correct) as real / 1.5 != k as real + 0.5
  {
    var n := 10 * topics + 5 * correct;
    assert n as real / 1.5 == k as real + 0.5 ==> 4 * n == 6 * k + 3;
    assert 4 * n == 2 * (2 * n) && 6 * k + 3 == 2 * (3 * k + 1) + 1;
  }

  /** Mastery never goes down as topics or correct answers grow. */
  lemma MasteryMonotone(t: nat, c: nat, t': nat, c': nat)
    requires t <= t' && c <= c'
    ensures Mastery(t, c) <= Mastery(t', c')
  {
    assert 40 * t + 20 * c + 3 <= 40 * t' + 20 * c' + 3;
  }

  /** The stored mastery level agrees with the formula. */
  predicate Consistent(p: StudentProgress) {
    p.masteryLevel == Mastery(|p.topicsSearched|, p.correctAnswers)
  }

  lemma DefaultIsConsistent()
    ensures Consistent(DefaultProgress)
    ensures DefaultProgress.topicsSearched == [] && DefaultProgress.weakTopics == []
    ensures DefaultProgress.questionsAsked == 0 && DefaultProgress.correctAnswers == 0
    ensures DefaultProgress.wrongAnswers == 0
  {
  }

  /** `{...prev, ...update}` followed by the mastery recomputation of
      `handleUpdateProgress`: every field the update carries replaces the
      old one, every other is kept, and the mastery level is recomputed from
      the merged record whatever the update says about it. */
  function Merge(prev: StudentProgress, u: Update): (r: StudentProgress)
    ensures r.topicsSearched == (if u.topicsSearched.Some? then u.topicsSearched.value else prev.topicsSearched)
    ensures r.questionsAsked == (if u.questionsAsked.Some? then u.questionsAsked.value else prev.questionsAsked)
    ensures r.correctAnswers == (if u.correctAnswers.Some? then u.correctAnswers.value else prev.correctAnswers)
    ensures r.wrongAnswers == (if u.wrongAnswers.Some? then u.wrongAnswers.value else prev.wrongAnswers)
    ensures r.weakTopics == (if u.weakTopics.Some? then u.weakTopics.value else prev.weakTopics)
    ensures Consistent(r) && 0 <= r.masteryLevel <= 100
  {
    var merged := StudentProgress(
      u.topicsSearched.GetOr(prev.topicsSearched),
      u.questionsAsked.GetOr(prev.questionsAsked),
      u.correctAnswers.GetOr(prev.correctAnswers),
      u.wrongAnswers.GetOr(prev.wrongAnswers),
      u.weakTopics.GetOr(prev.weakTopics),
      u.masteryLevel.GetOr(prev.masteryLevel));
    merged.(masteryLevel := Mastery(|merged.topicsSearched|, merged.correctAnswers))
  }

  /** The update's own `masteryLevel` has no effect. */
  lemma MergeIgnoresMasteryField(prev: StudentProgress, u: Update, m: Option<int>)
    ensures Merge(prev, u) == Merge(prev, u.(masteryLevel := m))
  {
  }

  /** Applying the same update twice is applying it once. */
  lemma MergeIdempotent(prev: StudentProgress, u: Update)
    ensures Merge(Merge(prev, u), u) == Merge(prev, u)
  {
  }

  /** An empty update changes a record exactly when its mastery is stale. */
  lemma MergeNothing(prev: StudentProgress)
    ensures Merge(prev, NoChange) == prev <==> Consistent(prev)
  {
  }

  /** No string occurs twice. */
  predicate NoDup(s: seq<string>) {
    forall i, j :: 0 <= i < j < |s| ==> s[i] != s[j]
  }

  /** `if (!topics.includes(t)) topics.push(t)`. */
  function AppendIfAbsent(topics: seq<string>, t: string): (r: seq<string>)
    ensures t in r
    ensures |topics| <= |r| <= |topics| + 1 && r[..|topics|] == topics
    ensures t in topics <==> r == topics
    ensures forall x :: x in r <==> x in topics || x == t
    ensures NoDup(topics) ==> NoDup(r)
  {
    if t in topics then topics else topics + [t]
  }

  /** Appending the same topic again changes nothing. */
  lemma AppendIfAbsentIdempotent(topics: seq<string>, t: string)
    ensures AppendIfAbsent(AppendIfAbsent(topics, t), t) == AppendIfAbsent(topics, t)
  {
  }

  /** `s.slice(-n)` for a positive `n`: the last `min(n, |s|)` entries, in
      their original order. */
  function LastN(s: seq<string>, n: nat): (r: seq<string>)
    requires n > 0
    ensures |r| == if |s| < n then |s| else n
    ensures exists front :: front + r == s
    ensures NoDup(s) ==> NoDup(r)
  {
    var k := if |s| < n then |s| else n;
    assert s[..|s| - k] + s[|s| - k..] == s;
    s[|s| - k..]
  }
}
