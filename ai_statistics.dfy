/** The statistics half of the AI service (ai.service.ts): the joined attempt
    records sent for analysis and calculateStatistics over them. Rates are
    exact rationals; `Math.round(x * 100) / 100` is modelled exactly on them. */
module WeaknessStatistics {
  import opened Common
  import opened Entities

  /** One attempt joined with its question (AttemptData without `createdAt`). */
  datatype AttemptData = AttemptData(
    attemptId: int,
    quizId: int,
    chapterId: nat,
    grade: int,
    questionType: QuizType,
    questionText: string,
    correctAnswer: string,
    selectedAnswer: string,
    isCorrect: bool,
    explanation: string)

  /** The `statistics` block of a WeaknessAnalysisRequest. */
  datatype Statistics = Statistics(
    totalAttempts: nat,
    correctCount: nat,
    wrongCount: nat,
    accuracyRate: real,
    wrongByChapter: map<nat, nat>,
    wrongByType: map<QuizType, nat>)

  function IsCorrect(a: AttemptData): bool { a.isCorrect }
  function IsWrong(a: AttemptData): bool { !a.isCorrect }
  function ChapterOf(a: AttemptData): nat { a.chapterId }
  function TypeOf(a: AttemptData): QuizType { a.questionType }

  /** `total > 0 ? (correct / total) * 100 : 0`, on exact rationals. */
  function AccuracyPercent(correct: nat, total: nat): (r: real)
    ensures total == 0 ==> r == 0.0
    ensures correct <= total ==> 0.0 <= r <= 100.0
    ensures total > 0 ==> r * total as real == 100.0 * correct as real
  {
    if total > 0 then
      var q := correct as real / total as real;
      assert q * total as real == correct as real;
      q * 100.0
    else 0.0
  }

  /** `Math.round(x * 100) / 100`: to the nearest hundredth, halves rounded up. */
  function RoundHundredths(x: real): (r: real)
    ensures x - 0.005 < r <= x + 0.005
    ensures (r * 100.0).Floor as real == r * 100.0
    ensures 0.0 <= x ==> 0.0 <= r
    ensures x <= 100.0 ==> r <= 100.0
  {
    var n := (x * 100.0 + 0.5).Floor;
    assert n as real <= x * 100.0 + 0.5 < n as real + 1.0;
    n as real / 100.0
  }

  /** calculateStatistics, stated as a value: the counts, the rounded rate and
      the two tallies of the wrong attempts. */
  function StatisticsOf(attempts: seq<AttemptData>): (s: Statistics)
    ensures s.totalAttempts == |attempts|
    ensures s.correctCount + s.wrongCount == s.totalAttempts
    ensures s.correctCount == |Filter(attempts, IsCorrect)|
    ensures s.wrongCount == |Filter(attempts, IsWrong)|
    ensures attempts == [] ==> s.accuracyRate == 0.0
    ensures attempts != [] ==> s.accuracyRate == RoundHundredths(AccuracyPercent(s.correctCount, s.totalAttempts))
    ensures 0.0 <= s.accuracyRate <= 100.0
    ensures s.wrongByChapter.Keys == set a | a in attempts && !a.isCorrect :: a.chapterId
    ensures s.wrongByType.Keys == set a | a in attempts && !a.isCorrect :: a.questionType
  {
    var total := |attempts|;
    var correct := |Filter(attempts, IsCorrect)|;
    var wrong := Filter(attempts, IsWrong);
    FilterComplement(attempts, IsCorrect, IsWrong);
    Statistics(total, correct, total - correct, RoundHundredths(AccuracyPercent(correct, total)),
               Tally(wrong, ChapterOf), Tally(wrong, TypeOf))
  }

  function WrongIn(chapterId: nat): AttemptData -> bool {
    (a: AttemptData) => !a.isCorrect && a.chapterId == chapterId
  }

  function WrongOfType(t: QuizType): AttemptData -> bool {
    (a: AttemptData) => !a.isCorrect && a.questionType == t
  }

  /** Counting a tally through a filter counts the elements that pass both. */
  lemma {:induction false} TallyOfFiltered<K>(s: seq<AttemptData>, key: AttemptData -> K, k: K, both: AttemptData -> bool)
    requires forall a :: both(a) == (IsWrong(a) && key(a) == k)
    ensures CountKey(Filter(s, IsWrong), key, k) == |Filter(s, both)|
    decreases |s|
  {
    if s != [] {
      var init, last := s[..|s| - 1], s[|s| - 1];
      TallyOfFiltered(init, key, k, both);
      assert both(last) == (IsWrong(last) && key(last) == k);
      var w := Filter(init, IsWrong);
      assert Filter(s, IsWrong) == w + (if IsWrong(last) then [last] else []);
      assert Filter(s, both) == Filter(init, both) + (if both(last) then [last] else []);
      if IsWrong(last) {
        assert (w + [last])[..|w + [last]| - 1] == w;
        assert CountKey(w + [last], key, k) == CountKey(w, key, k) + (if key(last) == k then 1 else 0);
        assert |Filter(s, both)| == |Filter(init, both)| + (if key(last) == k then 1 else 0);
      } else {
        assert Filter(s, IsWrong) == w;
        assert Filter(s, both) == Filter(init, both);
      }
    }
  }

  /** The per-chapter and per-type counts: each entry is the number of wrong
      attempts with that key, and the entries add up to wrongCount. */
  lemma WrongTallies(attempts: seq<AttemptData>)
    ensures SumValues(StatisticsOf(attempts).wrongByChapter) == StatisticsOf(attempts).wrongCount
    ensures SumValues(StatisticsOf(attempts).wrongByType) == StatisticsOf(attempts).wrongCount
    ensures forall c :: c in StatisticsOf(attempts).wrongByChapter ==>
      StatisticsOf(attempts).wrongByChapter[c] == |Filter(attempts, WrongIn(c))|
    ensures forall t :: t in StatisticsOf(attempts).wrongByType ==>
      StatisticsOf(attempts).wrongByType[t] == |Filter(attempts, WrongOfType(t))|
  {
    var s := StatisticsOf(attempts);
    var wrong := Filter(attempts, IsWrong);
    TallySum(wrong, ChapterOf);
    TallySum(wrong, TypeOf);
    forall c | c in s.wrongByChapter ensures s.wrongByChapter[c] == |Filter(attempts, WrongIn(c))| {
      TallyCounts(wrong, ChapterOf, c);
      TallyOfFiltered(attempts, ChapterOf, c, WrongIn(c));
    }
    forall t | t in s.wrongByType ensures s.wrongByType[t] == |Filter(attempts, WrongOfType(t))| {
      TallyCounts(wrong, TypeOf, t);
      TallyOfFiltered(attempts, TypeOf, t, WrongOfType(t));
    }
  }

  /** The `forEach` that builds a counting dictionary: `m[key(a)] = (m[key(a)] || 0) + 1`. */
  method CountBy<K>(s: seq<AttemptData>, key: AttemptData -> K) returns (m: map<K, nat>)
    ensures m == Tally(s, key)
  {
    m := map[];
    var j := 0;
    while j < |s|
      invariant 0 <= j <= |s|
      invariant m == Tally(s[..j], key)
    {
      var a := s[j];
      assert s[..j + 1] == s[..j] + [a];
      TallyAppend(s[..j], a, key);
      var k := key(a);
      m := m[k := (if k in m then m[k] else 0) + 1];
      j := j + 1;
    }
    assert s[..j] == s;
  }

  /** calculateStatistics: the counts by `filter`, then one counting pass
      per dictionary over the wrong attempts. */
  method CalculateStatistics(attempts: seq<AttemptData>) returns (s: Statistics)
    ensures s == StatisticsOf(attempts)
  {
    var total := |attempts|;
    var correct := |Filter(attempts, IsCorrect)|;
    FilterComplement(attempts, IsCorrect, IsWrong);
    var rate := AccuracyPercent(correct, total);

    var byChapter := CountBy(Filter(attempts, IsWrong), ChapterOf);
    var byType := CountBy(Filter(attempts, IsWrong), TypeOf);
    s := Statistics(total, correct, total - correct, RoundHundredths(rate), byChapter, byType);
  }
}
