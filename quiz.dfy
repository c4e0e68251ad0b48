/** The quiz service (quiz.service.ts): questions by chapter, grading a
    submitted answer with a random candy reward, and a child's attempts. */
module Quiz {
  import opened Common
  import opened Entities
  import UserServices

  /** `Math.floor(Math.random() * 4)`: the random draw, one of 0, 1, 2, 3. */
  type RewardDraw = d: int | 0 <= d <= 3

  datatype Grading = Grading(isCorrect: bool, rewardCandy: int)

  /** How submitAnswer marks an answer: exact string comparison, and a reward
      only for a correct answer. */
  function Grade(q: QuizQuestion, selectedAnswer: string, draw: RewardDraw): (g: Grading)
    ensures g.isCorrect <==> selectedAnswer == q.answer
    ensures 0 <= g.rewardCandy <= 3
    ensures !g.isCorrect ==> g.rewardCandy == 0
    ensures g.isCorrect ==> g.rewardCandy == draw
  {
    var isCorrect := q.answer == selectedAnswer;
    Grading(isCorrect, if isCorrect then draw else 0)
  }

  /** `{ isCorrect, rewardCandy, explanation }`, with `None` for `null`. */
  datatype SubmitResult = SubmitResult(isCorrect: bool, rewardCandy: int, explanation: Option<string>)

  /** The explanation returned with a graded answer: the question's
      explanation for a wrong answer, `null` for a correct one. */
  function Explanation(q: QuizQuestion, isCorrect: bool): (e: Option<string>)
    ensures e.None? <==> isCorrect
    ensures e.Some? ==> e.value == q.explain
  {
    if isCorrect then None else Some(q.explain)
  }

  /** The same choice as written: it reads `question.explanation`, a member
      the question entity does not have (its column is `explain`), so a
      wrong answer gets `undefined` back. */
  function ExplanationAsWritten(q: QuizQuestion, isCorrect: bool): Option<string> {
    None
  }

  /** As written, no wrong answer ever receives the explanation that the corrected rule returns. */
  lemma ExplanationLostAsWritten(q: QuizQuestion, selectedAnswer: string, draw: RewardDraw)
    requires selectedAnswer != q.answer
    ensures ExplanationAsWritten(q, Grade(q, selectedAnswer, draw).isCorrect)
         != Explanation(q, Grade(q, selectedAnswer, draw).isCorrect)
  {
  }

  function InChapter(chapterId: int): QuizQuestion -> bool {
    (q: QuizQuestion) => q.chapterId == chapterId
  }

  class QuizService {
    const questions: QuestionTable
    const attempts: AttemptTable
    const userService: UserServices.UserService

    ghost predicate Valid()
      reads questions, userService.users, userService.transactions, userService.attempts
    {
      questions.Valid() && userService.attempts == attempts && userService.Valid()
    }

    constructor (questions: QuestionTable, attempts: AttemptTable, userService: UserServices.UserService)
      ensures this.questions == questions && this.attempts == attempts && this.userService == userService
    {
      this.questions := questions;
      this.attempts := attempts;
      this.userService := userService;
    }

    /** getQuestionsByChapter: exactly that chapter's questions, by ascending id. */
    function GetQuestionsByChapter(chapterId: int): (r: seq<QuizQuestion>)
      reads questions
      requires questions.Valid()
      ensures forall q :: q in r <==> q in questions.rows && q.chapterId == chapterId
      ensures StrictlyIncreasing(r, QuestionId)
    {
      NumberedIncreasing(questions.rows, QuestionId);
      FilterKeepsOrder(questions.rows, InChapter(chapterId), QuestionId);
      Filter(questions.rows, InChapter(chapterId))
    }

    /** getQuestionById, which the AI service calls: the question with that id, if any. */
    function GetQuestionById(id: int): (r: Option<QuizQuestion>)
      reads questions
      requires questions.Valid()
      ensures r.Some? <==> exists q :: q in questions.rows && q.id == id
      ensures r.Some? ==> r.value in questions.rows && r.value.id == id
    {
      var r := QuestionById(questions.rows, id);
      assert r.Some? ==> questions.rows[id - 1] in questions.rows;
      r
    }

    /** getAttempts: exactly that child's attempts, newest first. */
    function GetAttempts(childId: int): (r: seq<QuizAttempt>)
      reads attempts
      requires attempts.Valid()
      ensures forall a :: a in r <==> a in attempts.rows && a.childId == childId
      ensures StrictlyDecreasing(r, AttemptId)
    {
      var mine := Filter(attempts.rows, UserServices.IsAttemptOf(childId));
      NumberedIncreasing(attempts.rows, AttemptId);
      FilterKeepsOrder(attempts.rows, UserServices.IsAttemptOf(childId), AttemptId);
      ReverseFlipsOrder(mine, AttemptId);
      Reverse(mine)
    }

    /** submitAnswer: grade, log one attempt, credit the reward to the child. */
    method SubmitAnswer(childId: int, questionId: int, selectedAnswer: string, draw: RewardDraw)
      returns (r: Result<SubmitResult>)
      requires Valid()
      modifies attempts, userService.users
      ensures Valid()
      ensures QuestionById(questions.rows, questionId).None? ==>
        && r == Err(QuestionNotFound)
        && attempts.rows == old(attempts.rows)
        && userService.users.rows == old(userService.users.rows)
      ensures QuestionById(questions.rows, questionId).Some? ==>
        var q := QuestionById(questions.rows, questionId).value;
        var g := Grade(q, selectedAnswer, draw);
        && r == Ok(SubmitResult(g.isCorrect, g.rewardCandy, Explanation(q, g.isCorrect)))
        && attempts.rows == old(attempts.rows)
             + [QuizAttempt(|old(attempts.rows)| + 1, childId, questionId, selectedAnswer, g.isCorrect, g.rewardCandy)]
        && |userService.users.rows| == |old(userService.users.rows)|
        && forall i :: 0 <= i < |userService.users.rows| ==>
             userService.users.rows[i] ==
               if userService.users.rows[i].id == childId
               then old(userService.users.rows[i]).(candy := old(userService.users.rows[i]).candy + g.rewardCandy)
               else old(userService.users.rows[i])
    {
      var found := GetQuestionById(questionId);
      if found.None? {
        return Err(QuestionNotFound);
      }
      var question := found.value;
      var g := Grade(question, selectedAnswer, draw);
      var attempt := QuizAttempt(|attempts.rows| + 1, childId, questionId, selectedAnswer, g.isCorrect, g.rewardCandy);
      NumberedAppend(attempts.rows, attempt, AttemptId);
      attempts.rows := attempts.rows + [attempt];
      if g.rewardCandy > 0 {
        var _ := userService.IncrementCandy(childId, g.rewardCandy);
      }
      r := Ok(SubmitResult(g.isCorrect, g.rewardCandy, Explanation(question, g.isCorrect)));
    }
  }
}
