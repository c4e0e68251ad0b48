/** The analysis half of the AI service (ai.service.ts): joining a child's
    attempts with their questions, the fallback weakness report built when
    no model reply is available, the defaults applied to a model reply, and
    analyzeWeakness choosing between them. The model reply itself is an
    input: `None` when the call or its JSON parsing failed. */
module WeaknessAnalysis {
  import opened Common
  import opened Entities
  import opened WeaknessStatistics
  import Quiz

  datatype Priority = High | Medium | Low

  /** A Weakness entry; `chapterName` is `None` when absent. */
  datatype Weakness = Weakness(
    category: string,
    chapterId: int,
    chapterName: Option<string>,
    problemCount: int,
    accuracyRate: real,
    commonMistakes: seq<string>,
    priority: Priority)

  /** WeaknessAnalysisResponse. */
  datatype AnalysisResponse = AnalysisResponse(
    weaknesses: seq<Weakness>,
    recommendations: seq<string>,
    overallScore: real,
    improvementAreas: seq<string>)

  /** WeaknessAnalysisRequest. */
  datatype AnalysisRequest = AnalysisRequest(userId: int, attempts: seq<AttemptData>, statistics: Statistics)

  // ---------------------------------------------------------------------
  // prepareAnalysisData: the join of attempts with their questions
  // ---------------------------------------------------------------------

  /** The question text: a bare string, or the object's `text` member or ''. */
  function QuestionText(b: QuestionBody): (t: string)
    ensures b.Plain? ==> t == b.text
    ensures b.Structured? && b.textField.Some? ==> t == b.textField.value
    ensures b.Structured? && b.textField.None? ==> t == ""
  {
    match b
    case Plain(s) => s
    case Structured(field) => if Truthy(field) then field.value else ""
  }

  /** The AttemptData record pushed for an attempt whose question was found. */
  function Joined(a: QuizAttempt, q: QuizQuestion): AttemptData {
    AttemptData(a.id, a.quizId, q.chapterId, q.grade, q.quizType, QuestionText(q.question),
                q.answer, a.selectedChoice, a.isCorrect, q.explain)
  }

  function HasQuestion(questions: seq<QuizQuestion>): QuizAttempt -> bool {
    (a: QuizAttempt) => exists q :: q in questions && q.id == a.quizId
  }

  /** An attempt has a question exactly when the lookup by its quizId finds one. */
  lemma HasQuestionFound(questions: seq<QuizQuestion>, a: QuizAttempt)
    requires Numbered(questions, QuestionId)
    ensures HasQuestion(questions)(a) <==> QuestionById(questions, a.quizId).Some?
  {
    if HasQuestion(questions)(a) {
      var q :| q in questions && q.id == a.quizId;
      var i :| 0 <= i < |questions| && questions[i] == q;
      assert questions[i].id == a.quizId;
    }
  }

  /** The attempt records in attempt order, skipping every attempt whose
      question is missing: record `i` joins the `i`-th attempt that has a
      question with that question. */
  function JoinQuestions(attempts: seq<QuizAttempt>, questions: seq<QuizQuestion>): (r: seq<AttemptData>)
    requires Numbered(questions, QuestionId)
    ensures var f := Filter(attempts, HasQuestion(questions));
      && |r| == |f| <= |attempts|
      && forall i :: 0 <= i < |f| ==>
           QuestionById(questions, f[i].quizId).Some? && r[i] == Joined(f[i], QuestionById(questions, f[i].quizId).value)
    ensures r == [] <==> forall a :: a in attempts ==> QuestionById(questions, a.quizId).None?
    decreases |attempts|
  {
    if attempts == [] then []
    else
      var init, a := attempts[..|attempts| - 1], attempts[|attempts| - 1];
      assert attempts == init + [a];
      assert forall x :: x in attempts <==> x in init || x == a;
      FilterAppend(init, a, HasQuestion(questions));
      HasQuestionFound(questions, a);
      var r := JoinQuestions(init, questions);
      match QuestionById(questions, a.quizId)
      case None => r
      case Some(q) => r + [Joined(a, q)]
  }

  // ---------------------------------------------------------------------
  // generateFallbackAnalysis: per-chapter statistics
  // ---------------------------------------------------------------------

  /** One `chapterStats` entry. */
  datatype ChapterStat = ChapterStat(total: nat, correct: nat, wrong: nat, mistakes: seq<string>)

  const NoAttemptsYet := ChapterStat(0, 0, 0, [])

  /** One loop step on a chapter's entry; a wrong attempt's explanation is kept when it is truthy. */
  function Tallied(st: ChapterStat, a: AttemptData): ChapterStat {
    if a.isCorrect then st.(total := st.total + 1, correct := st.correct + 1)
    else st.(total := st.total + 1, wrong := st.wrong + 1,
             mistakes := st.mistakes + (if a.explanation != "" then [a.explanation] else []))
  }

  predicate Consistent(st: ChapterStat) {
    st.total >= 1 && st.correct + st.wrong == st.total && |st.mistakes| <= st.wrong
  }

  /** `e` is the explanation of some wrong attempt in chapter `k`. */
  ghost predicate ExplainsWrongIn(attempts: seq<AttemptData>, k: nat, e: string) {
    e != "" && exists a :: a in attempts && a.chapterId == k && !a.isCorrect && a.explanation == e
  }

  /** What `chapterStats` says about the attempts it was built from. */
  ghost predicate Describes(m: map<nat, ChapterStat>, attempts: seq<AttemptData>) {
    && m.Keys == (set a | a in attempts :: a.chapterId)
    && (forall k :: k in m ==> Consistent(m[k]))
    && (forall k, e :: k in m && e in m[k].mistakes ==> ExplainsWrongIn(attempts, k, e))
  }

  /** One loop step keeps the description true for the longer list. */
  lemma TalliedDescribes(m: map<nat, ChapterStat>, s: seq<AttemptData>, a: AttemptData)
    requires Describes(m, s)
    ensures Describes(m[a.chapterId := Tallied(if a.chapterId in m then m[a.chapterId] else NoAttemptsYet, a)], s + [a])
  {
    var t := s + [a];
    assert forall x :: x in t <==> x in s || x == a;
    var m' := m[a.chapterId := Tallied(if a.chapterId in m then m[a.chapterId] else NoAttemptsYet, a)];
    forall k, e | k in m' && e in m'[k].mistakes ensures ExplainsWrongIn(t, k, e) {
      var before := if k in m then m[k].mistakes else [];
      if e in before {
        assert ExplainsWrongIn(s, k, e);
      } else {
        assert k == a.chapterId && e == a.explanation && a in t;
      }
    }
  }

  /** `chapterStats` after the loop over `attempts`. */
  function ChapterStatsOf(attempts: seq<AttemptData>): (m: map<nat, ChapterStat>)
    ensures m.Keys == set a | a in attempts :: a.chapterId
    ensures forall k :: k in m ==> Consistent(m[k])
    ensures forall k, e :: k in m && e in m[k].mistakes ==> ExplainsWrongIn(attempts, k, e)
    decreases |attempts|
  {
    if attempts == [] then map[]
    else
      var init, a := attempts[..|attempts| - 1], attempts[|attempts| - 1];
      assert attempts == init + [a];
      var m := ChapterStatsOf(init);
      TalliedDescribes(m, init, a);
      m[a.chapterId := Tallied(if a.chapterId in m then m[a.chapterId] else NoAttemptsYet, a)]
  }

  lemma ChapterStatsAppend(attempts: seq<AttemptData>, a: AttemptData)
    ensures ChapterStatsOf(attempts + [a])
         == ChapterStatsOf(attempts)[a.chapterId := Tallied(if a.chapterId in ChapterStatsOf(attempts)
                                                            then ChapterStatsOf(attempts)[a.chapterId]
                                                            else NoAttemptsYet, a)]
  {
    assert (attempts + [a])[..|attempts + [a]| - 1] == attempts;
  }

  function InChapter(k: nat): AttemptData -> bool {
    (a: AttemptData) => a.chapterId == k
  }

  function CorrectIn(k: nat): AttemptData -> bool {
    (a: AttemptData) => a.isCorrect && a.chapterId == k
  }

  /** A filter that only keeps attempts of chapter `k` keeps nothing when no attempt is in `k`. */
  lemma FilterOfAbsentChapter(s: seq<AttemptData>, k: nat, p: AttemptData -> bool)
    requires forall a :: p(a) ==> a.chapterId == k
    requires forall a :: a in s ==> a.chapterId != k
    ensures Filter(s, p) == []
  {
  }

  /** `st` holds the counts of chapter `k` in `s`. */
  /** The truthy explanations of `s`, in order: what `if (attempt.explanation) mistakes.push(...)` collects. */
  function NonEmptyExplanations(s: seq<AttemptData>): (r: seq<string>)
    ensures |r| <= |s|
    ensures forall e :: e in r ==> e != "" && exists a :: a in s && a.explanation == e
    decreases |s|
  {
    if s == [] then []
    else
      var init, a := s[..|s| - 1], s[|s| - 1];
      assert forall x :: x in init ==> x in s;
      NonEmptyExplanations(init) + (if a.explanation != "" then [a.explanation] else [])
  }

  lemma NonEmptyExplanationsAppend(s: seq<AttemptData>, a: AttemptData)
    ensures NonEmptyExplanations(s + [a]) == NonEmptyExplanations(s) + (if a.explanation != "" then [a.explanation] else [])
  {
    assert (s + [a])[..|s + [a]| - 1] == s;
  }

  ghost predicate CountsOf(st: ChapterStat, s: seq<AttemptData>, k: nat) {
    && st.mistakes == NonEmptyExplanations(Filter(s, WrongIn(k)))
    && st.total == |Filter(s, InChapter(k))|
    && st.correct == |Filter(s, CorrectIn(k))|
    && st.wrong == |Filter(s, WrongIn(k))|
  }

  /** One loop step keeps the counts of every chapter: the attempt's own chapter is tallied, any other is left alone. */
  lemma TalliedCounts(st: ChapterStat, s: seq<AttemptData>, a: AttemptData, k: nat)
    requires CountsOf(st, s, k)
    ensures CountsOf(if a.chapterId == k then Tallied(st, a) else st, s + [a], k)
  {
    var t := s + [a];
    FilterAppend(s, a, InChapter(k));
    FilterAppend(s, a, CorrectIn(k));
    FilterAppend(s, a, WrongIn(k));
    if a.chapterId != k {
      assert Filter(t, InChapter(k)) == Filter(s, InChapter(k));
      assert Filter(t, CorrectIn(k)) == Filter(s, CorrectIn(k));
      assert Filter(t, WrongIn(k)) == Filter(s, WrongIn(k));
    } else if a.isCorrect {
      assert Filter(t, WrongIn(k)) == Filter(s, WrongIn(k));
    } else {
      assert Filter(t, WrongIn(k)) == Filter(s, WrongIn(k)) + [a];
      NonEmptyExplanationsAppend(Filter(s, WrongIn(k)), a);
    }
  }

  /** The counts of a chapter's entry are the numbers of that chapter's attempts, correct ones and wrong ones. */
  lemma {:induction false} ChapterStatCounts(attempts: seq<AttemptData>, k: nat)
    requires k in ChapterStatsOf(attempts)
    ensures ChapterStatsOf(attempts)[k].total == |Filter(attempts, InChapter(k))|
    ensures ChapterStatsOf(attempts)[k].correct == |Filter(attempts, CorrectIn(k))|
    ensures ChapterStatsOf(attempts)[k].wrong == |Filter(attempts, WrongIn(k))|
    ensures ChapterStatsOf(attempts)[k].mistakes == NonEmptyExplanations(Filter(attempts, WrongIn(k)))
    decreases |attempts|
  {
    var init, a := attempts[..|attempts| - 1], attempts[|attempts| - 1];
    assert attempts == init + [a];
    var m := ChapterStatsOf(init);
    var st := if k in m then m[k] else NoAttemptsYet;
    if k in m {
      ChapterStatCounts(init, k);
    } else {
      FilterOfAbsentChapter(init, k, InChapter(k));
      FilterOfAbsentChapter(init, k, CorrectIn(k));
      FilterOfAbsentChapter(init, k, WrongIn(k));
    }
    assert CountsOf(st, init, k);
    TalliedCounts(st, init, a, k);
    ChapterStatsAppend(init, a);
    assert ChapterStatsOf(attempts)[k] == if a.chapterId == k then Tallied(st, a) else st;
  }

  /** The fallback's per-chapter wrong count agrees with the statistics' wrongByChapter. */
  lemma ChapterStatsAgreeWithStatistics(attempts: seq<AttemptData>, k: nat)
    requires k in StatisticsOf(attempts).wrongByChapter
    ensures k in ChapterStatsOf(attempts)
    ensures ChapterStatsOf(attempts)[k].wrong == StatisticsOf(attempts).wrongByChapter[k]
  {
    var a :| a in attempts && !a.isCorrect && a.chapterId == k;
    assert k in ChapterStatsOf(attempts);
    WrongTallies(attempts);
    ChapterStatCounts(attempts, k);
  }

  // ---------------------------------------------------------------------
  // generateFallbackAnalysis: one weakness per chapter
  // ---------------------------------------------------------------------

  /** The priority band of a chapter accuracy (unrounded). */
  function PriorityOf(accuracy: real): Priority {
    if accuracy < 50.0 then High else if accuracy < 70.0 then Medium else Low
  }

  lemma ScaledLess(x: real, y: real, t: real)
    requires t > 0.0
    ensures x < y <==> x * t < y * t
  {
    if x < y {
      assert (y - x) * t > 0.0;
    } else {
      assert (x - y) * t >= 0.0;
    }
  }

  /** A percentage `r` of `c` out of `t` is below `bound` iff `c * 100 < bound * t`. */
  lemma BandScaled(r: real, bound: real, b: int, c: nat, t: nat)
    requires t > 0 && bound == b as real
    requires r * t as real == 100.0 * c as real
    ensures r < bound <==> 100 * c < b * t
  {
    ScaledLess(r, bound, t as real);
    assert (100 * c) as real == 100.0 * c as real;
    assert (b * t) as real == bound * t as real;
  }

  /** The bands in integers: high iff correct*100 < 50*total, and so on. */
  lemma PriorityBands(correct: nat, total: nat)
    requires total > 0
    ensures PriorityOf(AccuracyPercent(correct, total)) == High <==> 100 * correct < 50 * total
    ensures PriorityOf(AccuracyPercent(correct, total)) == Medium <==> 50 * total <= 100 * correct < 70 * total
    ensures PriorityOf(AccuracyPercent(correct, total)) == Low <==> 70 * total <= 100 * correct
  {
    var r := AccuracyPercent(correct, total);
    BandScaled(r, 50.0, 50, correct, total);
    BandScaled(r, 70.0, 70, correct, total);
  }

  function Digit(d: nat): (c: char)
    requires d < 10
    ensures '0' <= c <= '9'
  {
    ('0' as int + d) as char
  }

  function DigitValue(c: char): nat {
    if '0' <= c <= '9' then c as int - '0' as int else 0
  }

  /** The decimal spelling of a number: the dictionary key `String(chapterId)`. */
  function DecimalString(n: nat): (s: string)
    ensures |s| >= 1
    ensures forall i :: 0 <= i < |s| ==> '0' <= s[i] <= '9'
    decreases n
  {
    if n < 10 then [Digit(n)] else DecimalString(n / 10) + [Digit(n % 10)]
  }

  /** `Number(s)` on a string of decimal digits. */
  function DecimalValue(s: string): nat
    decreases |s|
  {
    if s == [] then 0 else DecimalValue(s[..|s| - 1]) * 10 + DigitValue(s[|s| - 1])
  }

  /** `Number(chapterId)` on the key recovers the chapter id. */
  lemma {:induction false} DecimalRoundTrip(n: nat)
    ensures DecimalValue(DecimalString(n)) == n
    decreases n
  {
    var s := DecimalString(n);
    if n < 10 {
      assert s[..|s| - 1] == [];
    } else {
      DecimalRoundTrip(n / 10);
      assert s[..|s| - 1] == DecimalString(n / 10);
    }
  }

  const CategoryPrefix: string := "챕터 "

  /** Distinct chapters get distinct categories. */
  lemma CategoriesDistinct(j: nat, k: nat)
    requires j != k
    ensures CategoryPrefix + DecimalString(j) != CategoryPrefix + DecimalString(k)
  {
    DecimalRoundTrip(j);
    DecimalRoundTrip(k);
    assert (CategoryPrefix + DecimalString(j))[|CategoryPrefix|..] == DecimalString(j);
    assert (CategoryPrefix + DecimalString(k))[|CategoryPrefix|..] == DecimalString(k);
  }

  function FirstThree(s: seq<string>): (r: seq<string>)
    ensures |r| == if |s| < 3 then |s| else 3
    ensures forall i :: 0 <= i < |r| ==> r[i] == s[i]
  {
    if |s| <= 3 then s else s[..3]
  }

  /** The weakness of chapter `k`: its wrong count, its accuracy rounded to
      hundredths, at most three mistakes, and the band of the unrounded accuracy. */
  function WeaknessOf(k: nat, st: ChapterStat): (w: Weakness)
    requires Consistent(st)
    ensures w.chapterId == k && w.category == CategoryPrefix + DecimalString(k) && w.chapterName.None?
    ensures w.problemCount == st.wrong
    ensures w.accuracyRate == RoundHundredths(AccuracyPercent(st.correct, st.total))
    ensures 0.0 <= w.accuracyRate <= 100.0
    ensures w.commonMistakes == FirstThree(st.mistakes)
    ensures |w.commonMistakes| <= 3
    ensures forall e :: e in w.commonMistakes ==> e in st.mistakes
    ensures w.priority == High <==> 100 * st.correct < 50 * st.total
    ensures w.priority == Medium <==> 50 * st.total <= 100 * st.correct < 70 * st.total
    ensures w.priority == Low <==> 70 * st.total <= 100 * st.correct
  {
    var key := DecimalString(k);
    DecimalRoundTrip(k);
    var accuracy := AccuracyPercent(st.correct, st.total);
    PriorityBands(st.correct, st.total);
    Weakness(CategoryPrefix + key, DecimalValue(key), None, st.wrong,
             RoundHundredths(accuracy), FirstThree(st.mistakes), PriorityOf(accuracy))
  }

  // ---------------------------------------------------------------------
  // generateFallbackAnalysis: the order of the list
  // ---------------------------------------------------------------------

  /** The order `sort((a, b) => a.accuracyRate - b.accuracyRate)` leaves a
      list in when it starts in ascending chapter order (the order of
      Object.entries on integer keys) and the sort is stable. */
  predicate Before(a: Weakness, b: Weakness) {
    a.accuracyRate < b.accuracyRate || (a.accuracyRate == b.accuracyRate && a.chapterId < b.chapterId)
  }

  ghost predicate SortedByRate(ws: seq<Weakness>) {
    forall i, j :: 0 <= i < j < |ws| ==> Before(ws[i], ws[j])
  }

  /** Insertion of one weakness into a sorted list of weaknesses of other chapters. */
  function InsertByRate(ws: seq<Weakness>, w: Weakness): (r: seq<Weakness>)
    requires SortedByRate(ws)
    requires forall x :: x in ws ==> x.chapterId != w.chapterId
    ensures SortedByRate(r)
    ensures forall x :: x in r <==> x in ws || x == w
    ensures |r| == |ws| + 1
    decreases |ws|
  {
    if ws == [] then [w]
    else if Before(w, ws[0]) then
      assert forall x :: x in ws ==> Before(w, x) by {
        forall x | x in ws ensures Before(w, x) {
          var i :| 0 <= i < |ws| && ws[i] == x;
          assert i == 0 || Before(ws[0], ws[i]);
        }
      }
      [w] + ws
    else
      assert Before(ws[0], w);
      assert forall x :: x in ws[1..] ==> x in ws;
      var rest := InsertByRate(ws[1..], w);
      assert forall x :: x in rest ==> Before(ws[0], x) by {
        forall x | x in rest ensures Before(ws[0], x) {
          if x != w {
            var i :| 0 <= i < |ws[1..]| && ws[1..][i] == x;
            assert ws[i + 1] == x;
          }
        }
      }
      [ws[0]] + rest
  }

  /** In a sorted list every member other than the head comes after it. */
  lemma SortedFirst(a: seq<Weakness>, x: Weakness)
    requires SortedByRate(a) && x in a
    ensures x == a[0] || Before(a[0], x)
  {
    var i :| 0 <= i < |a| && a[i] == x;
    assert i == 0 || Before(a[0], a[i]);
  }

  /** The sorted order pins the list down: two sorted lists with the same members are equal. */
  lemma {:induction false} SortedUnique(a: seq<Weakness>, b: seq<Weakness>)
    requires SortedByRate(a) && SortedByRate(b)
    requires forall x :: x in a <==> x in b
    ensures a == b
    decreases |a|
  {
    assert a != [] ==> a[0] in a;
    assert b != [] ==> b[0] in b;
    if a != [] {
      SortedFirst(a, b[0]);
      SortedFirst(b, a[0]);
      assert a[0] == b[0];
      forall x ensures x in a[1..] <==> x in b[1..] {
        if x in a[1..] {
          var k :| 0 <= k < |a[1..]| && a[1..][k] == x;
          assert Before(a[0], a[k + 1]);
          assert x in b && x != b[0];
          var l :| 0 <= l < |b| && b[l] == x;
          assert l > 0 && b[1..][l - 1] == x;
        }
        if x in b[1..] {
          var k :| 0 <= k < |b[1..]| && b[1..][k] == x;
          assert Before(b[0], b[k + 1]);
          assert x in a && x != a[0];
          var l :| 0 <= l < |a| && a[l] == x;
          assert l > 0 && a[1..][l - 1] == x;
        }
      }
      SortedUnique(a[1..], b[1..]);
      assert a == [a[0]] + a[1..] && b == [b[0]] + b[1..];
    }
  }

  // ---------------------------------------------------------------------
  // generateFallbackAnalysis: recommendations and improvement areas
  // ---------------------------------------------------------------------

  const ExcellentMessage: string := "전반적으로 우수한 성과를 보이고 있습니다!"
  const SteadyMessage: string := "꾸준한 학습이 필요합니다."
  const BasicsMessage: string := "기초를 탄탄히 다지는 것이 중요합니다."
  const NoAttemptsMessage: string := "풀이 내역이 없습니다. 문제를 풀어보세요!"
  const KeepTryingMessage: string := "계속 노력하세요!"

  /** The first recommendation, by the overall (rounded) accuracy. */
  function BandMessage(rate: real): (m: string)
    ensures rate >= 80.0 ==> m == ExcellentMessage
    ensures 60.0 <= rate < 80.0 ==> m == SteadyMessage
    ensures rate < 60.0 ==> m == BasicsMessage
  {
    if rate >= 80.0 then ExcellentMessage else if rate >= 60.0 then SteadyMessage else BasicsMessage
  }

  function HighMessage(category: string): string {
    category + "에 대한 추가 학습이 필요합니다."
  }

  function IsHigh(w: Weakness): bool { w.priority == High }

  /** `map((w) => w.category)`. */
  function Categories(ws: seq<Weakness>): (r: seq<string>)
    ensures |r| == |ws|
    ensures forall i :: 0 <= i < |ws| ==> r[i] == ws[i].category
    decreases |ws|
  {
    if ws == [] then [] else Categories(ws[..|ws| - 1]) + [ws[|ws| - 1].category]
  }

  /** What generateFallbackAnalysis promises about its response. */
  ghost predicate IsFallbackFor(resp: AnalysisResponse, attempts: seq<AttemptData>, stats: Statistics) {
    var m := ChapterStatsOf(attempts);
    && |resp.weaknesses| == |m.Keys|
    && (forall w :: w in resp.weaknesses <==> exists k :: k in m && w == WeaknessOf(k, m[k]))
    && SortedByRate(resp.weaknesses)
    && resp.recommendations
         == [BandMessage(stats.accuracyRate)]
            + (if Filter(resp.weaknesses, IsHigh) == [] then []
               else [HighMessage(Filter(resp.weaknesses, IsHigh)[0].category)])
    && resp.improvementAreas == Categories(Filter(resp.weaknesses, IsHigh))
    && resp.overallScore == stats.accuracyRate
  }

  /** The fallback response is determined by its specification: it is the list the stable sort produces. */
  lemma FallbackDetermined(r1: AnalysisResponse, r2: AnalysisResponse, attempts: seq<AttemptData>, stats: Statistics)
    requires IsFallbackFor(r1, attempts, stats) && IsFallbackFor(r2, attempts, stats)
    ensures r1 == r2
  {
    SortedUnique(r1.weaknesses, r2.weaknesses);
  }

  /** Each weakness describes one chapter: its wrong attempts, at most three
      of their explanations, and its band in integer terms. */
  lemma FallbackWeaknesses(resp: AnalysisResponse, attempts: seq<AttemptData>, stats: Statistics, w: Weakness)
    requires IsFallbackFor(resp, attempts, stats)
    requires w in resp.weaknesses
    ensures w.chapterId >= 0 && (exists a :: a in attempts && a.chapterId == w.chapterId)
    ensures w.problemCount == |Filter(attempts, WrongIn(w.chapterId as nat))|
    ensures |w.commonMistakes| <= 3
    ensures w.commonMistakes == FirstThree(NonEmptyExplanations(Filter(attempts, WrongIn(w.chapterId as nat))))
    ensures forall e :: e in w.commonMistakes ==> ExplainsWrongIn(attempts, w.chapterId as nat, e)
    ensures var correct, total := |Filter(attempts, CorrectIn(w.chapterId as nat))|, |Filter(attempts, InChapter(w.chapterId as nat))|;
      w.accuracyRate == RoundHundredths(AccuracyPercent(correct, total))
    ensures var correct, total := |Filter(attempts, CorrectIn(w.chapterId as nat))|, |Filter(attempts, InChapter(w.chapterId as nat))|;
      && (w.priority == High <==> 100 * correct < 50 * total)
      && (w.priority == Medium <==> 50 * total <= 100 * correct < 70 * total)
      && (w.priority == Low <==> 70 * total <= 100 * correct)
  {
    var m := ChapterStatsOf(attempts);
    var k :| k in m && w == WeaknessOf(k, m[k]);
    ChapterStatCounts(attempts, k);
  }

  /** Every chapter with an attempt has a weakness. */
  lemma FallbackCoversChapters(resp: AnalysisResponse, attempts: seq<AttemptData>, stats: Statistics)
    requires IsFallbackFor(resp, attempts, stats)
    ensures forall a :: a in attempts ==> exists w :: w in resp.weaknesses && w.chapterId == a.chapterId
  {
    var m := ChapterStatsOf(attempts);
    forall a | a in attempts ensures exists w :: w in resp.weaknesses && w.chapterId == a.chapterId {
      assert a.chapterId in m;
      var w := WeaknessOf(a.chapterId, m[a.chapterId]);
      assert w in resp.weaknesses;
    }
  }

  /** No chapter has two weaknesses, and the accuracy never decreases along the list. */
  lemma FallbackOrder(resp: AnalysisResponse, attempts: seq<AttemptData>, stats: Statistics)
    requires IsFallbackFor(resp, attempts, stats)
    ensures forall i, j :: 0 <= i < j < |resp.weaknesses| ==> resp.weaknesses[i].chapterId != resp.weaknesses[j].chapterId
    ensures forall i, j :: 0 <= i < j < |resp.weaknesses| ==>
      resp.weaknesses[i].accuracyRate <= resp.weaknesses[j].accuracyRate
  {
    var ws, m := resp.weaknesses, ChapterStatsOf(attempts);
    forall i, j | 0 <= i < j < |ws| ensures ws[i].chapterId != ws[j].chapterId {
      assert ws[i] in ws && ws[j] in ws;
      var ki :| ki in m && ws[i] == WeaknessOf(ki, m[ki]);
      var kj :| kj in m && ws[j] == WeaknessOf(kj, m[kj]);
      assert Before(ws[i], ws[j]);
      assert ki != kj;
    }
  }

  /** improvementAreas are exactly the high-priority categories, and a second
      recommendation is given iff some weakness is high priority. */
  lemma FallbackAdvice(resp: AnalysisResponse, attempts: seq<AttemptData>, stats: Statistics)
    requires IsFallbackFor(resp, attempts, stats)
    ensures |resp.recommendations| >= 1 && resp.recommendations[0] == BandMessage(stats.accuracyRate)
    ensures |resp.recommendations| == 2 <==> exists w :: w in resp.weaknesses && w.priority == High
    ensures |resp.recommendations| <= 2
    ensures forall c :: c in resp.improvementAreas <==> exists w :: w in resp.weaknesses && w.priority == High && w.category == c
  {
    var high := Filter(resp.weaknesses, IsHigh);
    assert high != [] ==> high[0] in high;
    forall c ensures c in resp.improvementAreas <==> exists w :: w in resp.weaknesses && w.priority == High && w.category == c {
      if c in resp.improvementAreas {
        var i :| 0 <= i < |resp.improvementAreas| && resp.improvementAreas[i] == c;
        assert high[i] in high;
      }
      if exists w :: w in resp.weaknesses && w.priority == High && w.category == c {
        var w :| w in resp.weaknesses && w.priority == High && w.category == c;
        assert w in high;
        var i :| 0 <= i < |high| && high[i] == w;
        assert resp.improvementAreas[i] == c;
      }
    }
  }

  /** The chapter loop of generateFallbackAnalysis. */
  method TallyChapters(attempts: seq<AttemptData>) returns (chapterStats: map<nat, ChapterStat>)
    ensures chapterStats == ChapterStatsOf(attempts)
  {
    chapterStats := map[];
    for i := 0 to |attempts|
      invariant chapterStats == ChapterStatsOf(attempts[..i])
    {
      var a := attempts[i];
      assert attempts[..i + 1] == attempts[..i] + [a];
      ChapterStatsAppend(attempts[..i], a);
      var st := if a.chapterId in chapterStats then chapterStats[a.chapterId] else NoAttemptsYet;
      chapterStats := chapterStats[a.chapterId := Tallied(st, a)];
    }
    assert attempts[..|attempts|] == attempts;
  }

  /** The `map` over the chapter entries followed by the sort by accuracy. */
  method SortedWeaknesses(chapterStats: map<nat, ChapterStat>) returns (weaknesses: seq<Weakness>)
    requires forall k :: k in chapterStats ==> Consistent(chapterStats[k])
    ensures SortedByRate(weaknesses)
    ensures |weaknesses| == |chapterStats.Keys|
    ensures forall w :: w in weaknesses <==> exists k :: k in chapterStats && w == WeaknessOf(k, chapterStats[k])
  {
    weaknesses := [];
    var pending := chapterStats.Keys;
    while pending != {}
      invariant pending <= chapterStats.Keys
      invariant SortedByRate(weaknesses)
      invariant forall w :: w in weaknesses <==>
        exists k :: k in chapterStats && k !in pending && w == WeaknessOf(k, chapterStats[k])
      invariant |weaknesses| + |pending| == |chapterStats.Keys|
      decreases pending
    {
      var k :| k in pending;
      var w := WeaknessOf(k, chapterStats[k]);
      weaknesses := InsertByRate(weaknesses, w);
      pending := pending - {k};
    }
  }

  /** generateFallbackAnalysis: the chapter loop, then the weaknesses in sorted
      order, then the recommendations and improvement areas. */
  method GenerateFallbackAnalysis(attempts: seq<AttemptData>, stats: Statistics) returns (resp: AnalysisResponse)
    ensures IsFallbackFor(resp, attempts, stats)
  {
    var chapterStats := TallyChapters(attempts);
    var weaknesses := SortedWeaknesses(chapterStats);
    var recommendations := [BandMessage(stats.accuracyRate)];
    var highPriority := Filter(weaknesses, IsHigh);
    if |highPriority| > 0 {
      recommendations := recommendations + [HighMessage(highPriority[0].category)];
    }
    resp := AnalysisResponse(weaknesses, recommendations, stats.accuracyRate, Categories(highPriority));
  }

  /** The fixed response for a child none of whose attempts has a question. */
  const EmptyResponse := AnalysisResponse([], [NoAttemptsMessage], 0.0, [])

  // ---------------------------------------------------------------------
  // parseOpenAIResponse: the defaults for missing fields
  // ---------------------------------------------------------------------

  /** A weakness object of the model reply; `None` for a missing field. */
  datatype RawWeakness = RawWeakness(
    category: Option<string>,
    chapterId: Option<int>,
    chapterName: Option<string>,
    problemCount: Option<int>,
    accuracyRate: Option<real>,
    commonMistakes: Option<seq<string>>,
    priority: Option<Priority>)

  /** The parsed reply object; `None` for a missing field. */
  datatype RawReply = RawReply(
    weaknesses: Option<seq<RawWeakness>>,
    recommendations: Option<seq<string>>,
    improvementAreas: Option<seq<string>>,
    overallScore: Option<real>)

  function OrElse<T>(o: Option<T>, default: T): (r: T)
    ensures o.Some? ==> r == o.value
    ensures o.None? ==> r == default
  {
    if o.Some? then o.value else default
  }

  function ParseWeakness(raw: RawWeakness): (w: Weakness)
    ensures raw.category.None? ==> w.category == ""
    ensures raw.chapterId.None? ==> w.chapterId == 0
    ensures raw.problemCount.None? ==> w.problemCount == 0
    ensures raw.accuracyRate.None? ==> w.accuracyRate == 0.0
    ensures raw.commonMistakes.None? ==> w.commonMistakes == []
    ensures raw.priority.None? ==> w.priority == Medium
    ensures raw.category.Some? ==> w.category == raw.category.value
    ensures raw.chapterId.Some? ==> w.chapterId == raw.chapterId.value
    ensures raw.problemCount.Some? ==> w.problemCount == raw.problemCount.value
    ensures raw.accuracyRate.Some? ==> w.accuracyRate == raw.accuracyRate.value
    ensures raw.commonMistakes.Some? ==> w.commonMistakes == raw.commonMistakes.value
    ensures raw.priority.Some? ==> w.priority == raw.priority.value
    ensures w.chapterName == raw.chapterName
  {
    Weakness(OrElse(raw.category, ""), OrElse(raw.chapterId, 0), raw.chapterName,
             OrElse(raw.problemCount, 0), OrElse(raw.accuracyRate, 0.0),
             OrElse(raw.commonMistakes, []), OrElse(raw.priority, Medium))
  }

  /** parseOpenAIResponse, with `overallScore` the statistics' rate used when the reply has none. */
  function ParseReply(raw: RawReply, overallScore: real): (r: AnalysisResponse)
    ensures raw.weaknesses.None? ==> r.weaknesses == []
    ensures raw.weaknesses.Some? ==> |r.weaknesses| == |raw.weaknesses.value|
    ensures raw.weaknesses.Some? ==>
      forall i :: 0 <= i < |r.weaknesses| ==> r.weaknesses[i] == ParseWeakness(raw.weaknesses.value[i])
    ensures raw.recommendations.None? ==> r.recommendations == [KeepTryingMessage]
    ensures raw.recommendations.Some? ==> r.recommendations == raw.recommendations.value
    ensures raw.improvementAreas.None? ==> r.improvementAreas == []
    ensures raw.improvementAreas.Some? ==> r.improvementAreas == raw.improvementAreas.value
    ensures raw.overallScore.None? ==> r.overallScore == overallScore
    ensures raw.overallScore.Some? ==> r.overallScore == raw.overallScore.value
  {
    var raws := OrElse(raw.weaknesses, []);
    AnalysisResponse(
      seq(|raws|, i requires 0 <= i < |raws| => ParseWeakness(raws[i])),
      OrElse(raw.recommendations, [KeepTryingMessage]),
      OrElse(raw.overallScore, overallScore),
      OrElse(raw.improvementAreas, []))
  }

  function ToRawWeakness(w: Weakness): RawWeakness {
    RawWeakness(Some(w.category), Some(w.chapterId), w.chapterName, Some(w.problemCount),
                Some(w.accuracyRate), Some(w.commonMistakes), Some(w.priority))
  }

  /** The reply that spells out every field of `resp`. */
  function ToRaw(resp: AnalysisResponse): RawReply {
    RawReply(Some(seq(|resp.weaknesses|, i requires 0 <= i < |resp.weaknesses| => ToRawWeakness(resp.weaknesses[i]))),
             Some(resp.recommendations), Some(resp.improvementAreas), Some(resp.overallScore))
  }

  /** A complete reply is taken over as it is, whatever the statistics say. */
  lemma ParseCompleteReply(resp: AnalysisResponse, overallScore: real)
    ensures ParseReply(ToRaw(resp), overallScore) == resp
  {
    var r := ParseReply(ToRaw(resp), overallScore);
    assert r.weaknesses == resp.weaknesses;
  }

  // ---------------------------------------------------------------------
  // The service
  // ---------------------------------------------------------------------

  class AiService {
    const quizService: Quiz.QuizService

    constructor (quizService: Quiz.QuizService)
      ensures this.quizService == quizService
    {
      this.quizService := quizService;
    }

    /** The loop of prepareAnalysisData: one record per attempt whose question is found. */
    method JoinAttempts(attempts: seq<QuizAttempt>) returns (attemptDataList: seq<AttemptData>)
      requires quizService.questions.Valid()
      ensures attemptDataList == JoinQuestions(attempts, quizService.questions.rows)
    {
      attemptDataList := [];
      for i := 0 to |attempts|
        invariant attemptDataList == JoinQuestions(attempts[..i], quizService.questions.rows)
      {
        var attempt := attempts[i];
        assert attempts[..i + 1][..i] == attempts[..i];
        var question := quizService.GetQuestionById(attempt.quizId);
        assert question == QuestionById(quizService.questions.rows, attempt.quizId);
        if question.None? {
          continue;
        }
        attemptDataList := attemptDataList + [Joined(attempt, question.value)];
      }
      assert attempts[..|attempts|] == attempts;
    }

    /** prepareAnalysisData: refuses a child with no attempts; otherwise joins
        each attempt with its question, skipping missing questions, and
        computes the statistics of what was joined. */
    method PrepareAnalysisData(childId: int) returns (r: Result<AnalysisRequest>)
      requires quizService.questions.Valid() && quizService.attempts.Valid()
      ensures r.Err? <==> quizService.GetAttempts(childId) == []
      ensures r.Err? ==> r.error == NoAttempts
      ensures r.Ok? ==>
        && r.value.userId == childId
        && r.value.attempts == JoinQuestions(quizService.GetAttempts(childId), quizService.questions.rows)
        && r.value.statistics == StatisticsOf(r.value.attempts)
    {
      var attempts := quizService.GetAttempts(childId);
      if |attempts| == 0 {
        return Err(NoAttempts);
      }
      var attemptDataList := JoinAttempts(attempts);
      var statistics := CalculateStatistics(attemptDataList);
      r := Ok(AnalysisRequest(childId, attemptDataList, statistics));
    }

    /** analyzeWeakness, with `reply` the parsed model reply (`None` when the
        call or the parsing failed). */
    method AnalyzeWeakness(childId: int, reply: Option<RawReply>) returns (r: Result<AnalysisResponse>)
      requires quizService.questions.Valid() && quizService.attempts.Valid()
      ensures r.Err? <==> quizService.GetAttempts(childId) == []
      ensures r.Err? ==> r.error == NoAttempts
      ensures r.Ok? ==>
        var data := JoinQuestions(quizService.GetAttempts(childId), quizService.questions.rows);
        var stats := StatisticsOf(data);
        && (data == [] ==> r.value == EmptyResponse)
        && (data != [] && reply.Some? ==> r.value == ParseReply(reply.value, stats.accuracyRate))
        && (data != [] && reply.None? ==> IsFallbackFor(r.value, data, stats))
    {
      var analysisData := PrepareAnalysisData(childId);
      if analysisData.Err? {
        return Err(analysisData.error);
      }
      var attempts := analysisData.value.attempts;
      var stats := analysisData.value.statistics;
      if |attempts| == 0 {
        return Ok(EmptyResponse);
      }
      match reply {
        case Some(raw) =>
          r := Ok(ParseReply(raw, stats.accuracyRate));
        case None =>
          var fallback := GenerateFallbackAnalysis(attempts, stats);
          r := Ok(fallback);
      }
    }
  }
}
