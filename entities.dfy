/** The rows of the tables that several services share (users, the candy
    transaction log, quiz questions and quiz attempts), and each table as an
    in-memory object in place of its ORM repository. A table keeps its rows in
    insertion order and gives row i the id i + 1, as an autoincrement primary
    key does when nothing is deleted; "ordered by createdAt" is therefore
    ordered by id. */
module Entities {
  import opened Common

  datatype Role = Parent | Child | Mentor

  /** A user row with the columns the services read and write. */
  datatype User = User(
    id: nat,
    email: Option<string>,
    role: Role,
    candy: int,
    parentId: Option<int>,
    expiresAt: Option<int>)

  function UserId(u: User): int { u.id }

  /** `where: { parentId, role: UserRole.CHILD }`. */
  predicate IsChildOf(u: User, parentId: int) {
    u.parentId == Some(parentId) && u.role == Child
  }

  /** The CHILD-role users linked to `parentId`, in table order. */
  function ChildrenOf(rows: seq<User>, parentId: int): (r: seq<User>)
    ensures |r| <= |rows|
    ensures forall u :: u in r <==> u in rows && IsChildOf(u, parentId)
    decreases |rows|
  {
    if rows == [] then []
    else
      var last := rows[|rows| - 1];
      ChildrenOf(rows[..|rows| - 1], parentId) + (if IsChildOf(last, parentId) then [last] else [])
  }

  datatype TransactionType = Earn | Spend

  datatype CandyTransaction = CandyTransaction(
    id: nat,
    userId: int,
    kind: TransactionType,
    amount: int,
    itemName: Option<string>)

  function TransactionId(t: CandyTransaction): int { t.id }

  datatype QuizType = MultipleChoice | ShortAnswer

  /** The `question` jsonb column: either a bare string or an object whose
      `text` member may be missing. */
  datatype QuestionBody = Plain(text: string) | Structured(textField: Option<string>)

  datatype QuizQuestion = QuizQuestion(
    id: nat,
    grade: int,
    quizType: QuizType,
    chapterId: nat,
    question: QuestionBody,
    choices: seq<string>,
    answer: string,
    explain: string)

  function QuestionId(q: QuizQuestion): int { q.id }

  datatype QuizAttempt = QuizAttempt(
    id: nat,
    childId: int,
    quizId: int,
    selectedChoice: string,
    isCorrect: bool,
    rewardCandy: int)

  function AttemptId(a: QuizAttempt): int { a.id }

  class UserTable {
    var rows: seq<User>

    ghost predicate Valid()
      reads this
    {
      Numbered(rows, UserId)
    }

    constructor (rows: seq<User>)
      requires Numbered(rows, UserId)
      ensures Valid() && this.rows == rows
    {
      this.rows := rows;
    }

    /** `findOne({ where: { id } })`. */
    function Find(id: int): Option<User>
      reads this
      requires Valid()
    {
      FindById(rows, UserId, id)
    }
  }

  class TransactionTable {
    var rows: seq<CandyTransaction>

    ghost predicate Valid()
      reads this
    {
      Numbered(rows, TransactionId)
    }

    constructor (rows: seq<CandyTransaction>)
      requires Numbered(rows, TransactionId)
      ensures Valid() && this.rows == rows
    {
      this.rows := rows;
    }
  }

  class QuestionTable {
    var rows: seq<QuizQuestion>

    ghost predicate Valid()
      reads this
    {
      Numbered(rows, QuestionId)
    }

    constructor (rows: seq<QuizQuestion>)
      requires Numbered(rows, QuestionId)
      ensures Valid() && this.rows == rows
    {
      this.rows := rows;
    }
  }

  class AttemptTable {
    var rows: seq<QuizAttempt>

    ghost predicate Valid()
      reads this
    {
      Numbered(rows, AttemptId)
    }

    constructor (rows: seq<QuizAttempt>)
      requires Numbered(rows, AttemptId)
      ensures Valid() && this.rows == rows
    {
      this.rows := rows;
    }
  }

  /** `findOne({ where: { id } })` on the question table, as a value. */
  function QuestionById(rows: seq<QuizQuestion>, id: int): (r: Option<QuizQuestion>)
    requires Numbered(rows, QuestionId)
    ensures r.Some? <==> exists i :: 0 <= i < |rows| && rows[i].id == id
    ensures r.Some? ==> r.value.id == id && r.value in rows
  {
    FindById(rows, QuestionId, id)
  }
}
