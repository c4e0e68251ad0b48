# Candy-reward learning backend: a verified model of its services

The system is a NestJS/TypeORM backend for a children's maths quiz site. A
parent links child accounts. Children answer quiz questions and earn a random
candy reward for each correct answer. They spend candy on goods, and parents
pay for a subscription per child and file mentoring requests. An "AI"
report summarises a child's weaknesses. It comes either from a language-model
reply or from a locally computed fallback.

This project models the services that implement those rules, in Dafny:

- **Tables** are classes holding `var rows: seq<Row>`. Their invariant
  (`Numbered`) is that row `i` has id `i + 1`: an auto-increment key on a
  table the core never deletes from. Creation order is therefore id order.
  "Newest first" is strictly decreasing ids and "oldest first" is strictly
  increasing ids.
- **Services** are classes holding the tables they inject. A query is a
  function with a `reads` clause. An operation that writes is a method whose
  `ensures` states the whole new state of each table it `modifies`.
- **Errors** are the `Err` arm of a `Result`. Each thrown exception is named
  after its throw site (`Common.Error`); the HTTP status the framework
  answers with is not modelled.
- **Inputs from outside** are parameters: the random draw of `submitAnswer`
  (`Quiz.RewardDraw`, one of 0–3), the clock reading stored as `paidAt`, and
  the parsed language-model reply (`None` when the call or the JSON parse
  failed).
- **Rates** are exact rationals (`real`). `Math.round(x * 100) / 100` is
  `floor(x * 100 + 0.5) / 100` on them. Priority bands are also proved in
  integer form (`correct * 100 < 50 * total`, …).

Files: `common.dfy` (options, errors and the folds the queries amount to),
`entities.dfy` (rows, tables, lookups), `candy_transaction.dfy`, `user.dfy`,
`quiz.dfy`, `reward.dfy`, `payment.dfy`, `mentoring.dfy`, `ai_statistics.dfy`
and `ai_analysis.dfy`.

Where the code and the entity files disagree, the model follows what the
services read and write:

- `User` has `role`, `candy`, `parentId` and `expiresAt`, which the stale
  `src/user/user.entity.ts` lacks.
- `MentoringStatus` has a fourth value, CANCELLED, which
  `cancelMentoringRequest` assigns.
- A mentoring request has the columns the service writes: `childId`,
  `childName` and `childAge` from `createMentoringRequest`, and `mentorName`
  from `updateMentoringStatus` and `adminUpdateStatus`. The entity's
  `childInfo` and `mentorId` are not modelled.
- `updateCandy` (src/quiz/quiz.service.ts:48) is `incrementCandy`.
- The attempt that `submitAnswer` stores is given the values the service
  passes as `questionId` and `selectedAnswer`, in the entity's columns
  `quizId` and `selectedChoice`. Those columns are the ones the AI service
  reads back.

## Model

| member | source | states |
|---|---|---|
| CandyTransactions.SpendCheck | src/candy-transaction/candy-transaction.service.ts:21-32 | a spend is refused with UserNotFound iff no user has the id, and with InsufficientCandy iff the balance is below the amount; otherwise the new balance is the old one minus the amount, and it is never negative |
| CandyTransactions.SpendEffectMeaning | src/candy-transaction/candy-transaction.service.ts:16-47 | a refused spend changes neither table; an accepted one lowers only that user's candy by the amount, reports the new balance with success true, and appends exactly one 'spend' record with the user, amount and item name; ids stay numbered |
| CandyTransactions.CandyTransactionService.SpendCandy | src/candy-transaction/candy-transaction.service.ts:16-47 | the user rows and the transaction log after the call are exactly the spend effect of the call |
| CandyTransactions.CandyTransactionService.GetCandyBalance | src/candy-transaction/candy-transaction.service.ts:49-55 | the balance is returned iff a user has the id, and it is that user's candy; otherwise UserNotFound |
| UserServices.FirstWithEmail | src/user/user.service.ts:42-44 | the index of the first user row with the email, or none iff no row has it |
| UserServices.UserService.AddChild | src/user/user.service.ts:41-52 | an unknown email fails with ChildNotFound and changes nothing; otherwise that row alone gets the parent id and the CHILD role, and the row as it was before is returned |
| UserServices.UserService.RemoveChild | src/user/user.service.ts:61-71 | unless a user has both the child id and this parent, it fails with ChildNotFound and changes nothing; otherwise only that row's parent link is cleared (the role is kept) |
| UserServices.UserService.IncrementCandy | src/user/user.service.ts:73-84 | returns the amount; the row with that id gains the amount, every other row is unchanged, and an unknown id changes nothing |
| UserServices.UserService.SpendCandy | src/user/user.service.ts:104-134 | the second copy of spendCandy has the same spend effect as the candy ledger's |
| UserServices.UserService.GetPurchaseHistory | src/user/user.service.ts:136-141 | exactly the user's 'spend' transactions, newest first |
| UserServices.RewardsSummary | src/user/user.service.ts:162-195 | keeps the attempts and counts them; correctCount is the number of correct attempts (so positive as soon as one is correct); rewardAttempts are exactly those with a positive reward; totalCandyEarned is the sum of the rewards, non-negative when every reward is |
| UserServices.EarnedAdds | src/user/user.service.ts:165 | one more attempt raises totalCandyEarned by exactly its reward |
| UserServices.RewardAttemptsInOrder | src/user/user.service.ts:188-190 | rewardAttempts keeps the newest-first order of the attempts |
| UserServices.UserService.GetChildRewards | src/user/user.service.ts:143-197 | exactly the child's attempts, newest first; rewardAttempts are those with a positive reward, in the same order; totalAttempts is their number, correctCount the number of correct ones, and the candy total the sum of their rewards |
| UserServices.UserService.GetChildrenCount | src/user/user.service.ts:199-203 | the number of CHILD-role users linked to the parent; zero iff there is none |
| Quiz.Grade | src/quiz/quiz.service.ts:33-34 | correct iff the answer equals the stored one; the reward is the draw (0–3) for a correct answer and 0 otherwise |
| Quiz.Explanation | src/quiz/quiz.service.ts:54 | no explanation iff the answer is correct, otherwise the question's explanation |
| Quiz.ExplanationLostAsWritten | src/quiz/quiz.service.ts:54 | as written, every wrong answer gets a different explanation (none) from the one the corrected rule returns |
| Quiz.QuizService.GetQuestionsByChapter | src/quiz/quiz.service.ts:19-24 | exactly the chapter's questions, by ascending id |
| Quiz.QuizService.GetQuestionById | src/ai/ai.service.ts:83 | a question is found iff one has the id, and it has that id |
| Quiz.QuizService.GetAttempts | src/quiz/quiz.service.ts:59-65 | exactly the child's attempts, newest first |
| Quiz.QuizService.SubmitAnswer | src/quiz/quiz.service.ts:27-56 | an unknown question fails and changes nothing; otherwise one graded attempt is appended, the child's candy rises by the reward and no other row changes, and the result carries the grade, the reward and the explanation |
| Rewards.RewardsOf | src/reward/reward.service.ts:32-43 | exactly the child's rewards; no rewards means a total of 0 |
| Rewards.PurchaseAddsToTotal | src/reward/reward.service.ts:18-43 | a purchase raises its child's totalUsedCandy by its usedCandy and leaves every other child's total unchanged |
| Rewards.RewardService.BuyGoods | src/reward/reward.service.ts:18-25 | appends one reward row with the next id, and the child's total grows by usedCandy |
| Rewards.RewardService.GetRewards | src/reward/reward.service.ts:32-43 | exactly the child's rewards, and the total is the sum of their usedCandy |
| Payments.Renewed | src/payment/payment.service.ts:57-64 | a CHILD-role child of the parent gets expiresAt := endAt, with no extension; any other row is unchanged |
| Payments.PaymentService.CreatePayment | src/payment/payment.service.ts:22-39 | refused with InvalidAmount iff the number of CHILD-role children times 9900 exceeds the amount; otherwise one PENDING payment with no paidAt is appended |
| Payments.PaymentService.RenewChildren | src/payment/payment.service.ts:53-67 | every CHILD-role child of the parent gets the end date as its expiry, every other user row is unchanged, and the number returned is the number of such children |
| Payments.PaymentService.ApprovePayment | src/payment/payment.service.ts:40-79 | an unknown payment, or one not PENDING, fails and changes nothing; otherwise every child of the parent is renewed, the payment becomes PAID at the given time, and the count of children updated is reported |
| Payments.ApproveTwice | src/payment/payment.service.ts:48-52 | after a successful approval, approving the same payment again fails with PaymentNotPending |
| Mentoring.CancelTransition | src/mentoring/mentoring.service.ts:54-58 | refused iff the request is not PENDING; otherwise only the status changes, to CANCELLED |
| Mentoring.AdminTransition | src/mentoring/mentoring.service.ts:98-108 | refused iff not PENDING; otherwise the status is the requested one, and a match keeps a non-empty mentor name or records 'Admin Matched'; other fields are unchanged |
| Mentoring.StatusUpdate | src/mentoring/mentoring.service.ts:72-75 | the status is overwritten whatever it was, and the mentor name changes only when a non-empty one is given |
| Mentoring.CancelIsFinal | src/mentoring/mentoring.service.ts:51-61 | a cancelled request can be neither cancelled again nor decided by an admin |
| Mentoring.AdminDecisionIsFinal | src/mentoring/mentoring.service.ts:86-111 | after a non-PENDING admin decision, neither guarded path accepts the request again |
| Mentoring.MentoringService.CreateMentoringRequest | src/mentoring/mentoring.service.ts:21-30 | appends one request under the caller's parent id, PENDING, with no mentor |
| Mentoring.MentoringService.GetMentoringRequestsByParentId | src/mentoring/mentoring.service.ts:32-37 | exactly the parent's requests, newest first |
| Mentoring.MentoringService.GetMentoringRequestById | src/mentoring/mentoring.service.ts:39-49 | found iff some request has both the id and the parent id; otherwise RequestNotFound |
| Mentoring.MentoringService.CancelMentoringRequest | src/mentoring/mentoring.service.ts:51-61 | another parent's or an unknown request fails with RequestNotFound and changes nothing; a non-PENDING one fails and changes nothing; otherwise that row alone is cancelled |
| Mentoring.MentoringService.UpdateMentoringStatus | src/mentoring/mentoring.service.ts:63-78 | an unknown id fails and changes nothing; otherwise that row alone gets the unguarded status update |
| Mentoring.MentoringService.FindPendingRequestsForAdmin | src/mentoring/mentoring.service.ts:80-85 | exactly the PENDING requests, oldest first |
| Mentoring.MentoringService.AdminUpdateStatus | src/mentoring/mentoring.service.ts:86-111 | an unknown id fails and changes nothing; otherwise the guarded admin decision is applied to that row alone, or refused with no change |
| WeaknessStatistics.AccuracyPercent | src/ai/ai.service.ts:124 | 0 for no attempts; otherwise the rate times the total is 100 times the correct count, and it lies in [0, 100] |
| WeaknessStatistics.RoundHundredths | src/ai/ai.service.ts:146 | the result is a whole number of hundredths within half a hundredth of its argument (so a half rounds up), and it stays within [0, 100] |
| WeaknessStatistics.StatisticsOf | src/ai/ai.service.ts:120-150 | correct + wrong = total = number of records; wrong is the number of wrong records; the rate is 0 for none, and otherwise the percentage of correct records rounded to hundredths, in [0, 100]; the keys of both dictionaries are the chapters and the types of the wrong records |
| WeaknessStatistics.WrongTallies | src/ai/ai.service.ts:127-140 | each wrongByChapter/wrongByType entry is the number of wrong records with that key, and each dictionary's values add up to wrongCount |
| WeaknessStatistics.CountBy | src/ai/ai.service.ts:128-132 | the counting `forEach` builds the tally of its list under the key |
| WeaknessStatistics.CalculateStatistics | src/ai/ai.service.ts:120-150 | the statistics computed are those the rules above describe |
| WeaknessAnalysis.QuestionText | src/ai/ai.service.ts:87-90 | a bare string is taken as it is; an object gives its text, or '' when it has none |
| WeaknessAnalysis.JoinQuestions | src/ai/ai.service.ts:81-105 | record i joins the i-th attempt whose question exists (in attempt order) with that question, so there is one record per such attempt and never more records than attempts; no records iff every lookup fails |
| WeaknessAnalysis.AiService.JoinAttempts | src/ai/ai.service.ts:79-105 | the loop with `continue` builds exactly the join of the attempts with their questions |
| WeaknessAnalysis.AiService.PrepareAnalysisData | src/ai/ai.service.ts:70-115 | fails with NoAttempts iff the child has no attempts; otherwise the joined records, and their statistics |
| WeaknessAnalysis.ChapterStatsOf | src/ai/ai.service.ts:393-413 | one entry per chapter that has a record; in each, correct + wrong = total ≥ 1, there are no more mistakes than wrong answers, and every mistake is the non-empty explanation of a wrong record in that chapter; the exact mistake list is stated by ChapterStatCounts |
| WeaknessAnalysis.ChapterStatCounts | src/ai/ai.service.ts:404-411 | a chapter's total, correct and wrong are the numbers of its records, of its correct records and of its wrong records; its mistakes are the non-empty explanations of its wrong records, in attempt order |
| WeaknessAnalysis.NonEmptyExplanations | src/ai/ai.service.ts:409-410 | the truthy explanations, in order; no more of them than records, and each belongs to one of the records |
| WeaknessAnalysis.ChapterStatsAgreeWithStatistics | src/ai/ai.service.ts:127-132 | the fallback's wrong count for a chapter equals the statistics' wrongByChapter entry |
| WeaknessAnalysis.PriorityBands | src/ai/ai.service.ts:417-427 | high iff 100·correct < 50·total, medium iff 50·total ≤ 100·correct < 70·total, low iff 70·total ≤ 100·correct |
| WeaknessAnalysis.DecimalRoundTrip | src/ai/ai.service.ts:415-431 | `Number` on the dictionary key of a chapter gives back the chapter id |
| WeaknessAnalysis.CategoriesDistinct | src/ai/ai.service.ts:430 | distinct chapters get distinct categories |
| WeaknessAnalysis.WeaknessOf | src/ai/ai.service.ts:415-438 | the chapter's id and category, its wrong count as problemCount, its accuracy rounded to hundredths as the rate, the first three of its mistakes (all of them when fewer), and the priority band of the unrounded accuracy |
| WeaknessAnalysis.InsertByRate | src/ai/ai.service.ts:441 | inserting a weakness of a new chapter into the sorted list keeps it sorted and adds exactly that weakness |
| WeaknessAnalysis.SortedUnique | src/ai/ai.service.ts:415-441 | two lists sorted by (rate, chapter) with the same members are equal, so the order is that of the stable sort on ascending chapter keys |
| WeaknessAnalysis.BandMessage | src/ai/ai.service.ts:444-450 | the first recommendation for an overall rate of at least 80, from 60 to 80, and below 60 |
| WeaknessAnalysis.TallyChapters | src/ai/ai.service.ts:388-413 | the chapter loop builds exactly the per-chapter statistics described above |
| WeaknessAnalysis.SortedWeaknesses | src/ai/ai.service.ts:415-441 | one weakness per chapter entry and no other, sorted by (rate, chapter) |
| WeaknessAnalysis.GenerateFallbackAnalysis | src/ai/ai.service.ts:381-469 | the fallback response: one weakness per chapter, sorted, with the band recommendation, a second one for the first high-priority weakness if any, the high-priority categories, and the overall rate as score |
| WeaknessAnalysis.FallbackDetermined | src/ai/ai.service.ts:381-469 | any two responses meeting the fallback's specification are equal |
| WeaknessAnalysis.FallbackWeaknesses | src/ai/ai.service.ts:415-438 | each weakness belongs to a chapter with a record; its problemCount is that chapter's wrong count; its rate is the chapter's percentage of correct records rounded to hundredths; its mistakes are the first three non-empty explanations of the chapter's wrong records in attempt order (all of them when fewer); its priority is the integer band of the chapter's counts |
| WeaknessAnalysis.FallbackCoversChapters | src/ai/ai.service.ts:393-415 | every chapter that has a record has a weakness |
| WeaknessAnalysis.FallbackOrder | src/ai/ai.service.ts:441 | no chapter appears twice, and accuracyRate never decreases along the list |
| WeaknessAnalysis.FallbackAdvice | src/ai/ai.service.ts:443-461 | the first recommendation is the band message; there is a second one iff some weakness is high priority, and never more; improvementAreas are exactly the high-priority categories |
| WeaknessAnalysis.ParseWeakness | src/ai/ai.service.ts:347-357 | a present field is taken over and a missing one becomes '', 0, 0, 0, [] or 'medium'; chapterName passes through |
| WeaknessAnalysis.ParseReply | src/ai/ai.service.ts:343-376 | missing weaknesses give [], missing recommendations give ['계속 노력하세요!'], missing improvementAreas give [], a missing overallScore gives the statistics' rate; present recommendations, improvementAreas and overallScore are taken over, and weakness i is the parse of the reply's weakness object i |
| WeaknessAnalysis.ParseCompleteReply | src/ai/ai.service.ts:343-376 | a reply that spells out every field is read back as exactly the response it spells out |
| WeaknessAnalysis.AiService.AnalyzeWeakness | src/ai/ai.service.ts:155-204 | fails iff the child has no attempts; when no question was found, it gives the fixed empty response; a reply is parsed with the statistics' rate as the default; with no reply, the fallback response is given |

## Left out

- The HTTP status each error is answered with is not modelled.
- Amounts are unbounded integers. The `int` columns are limited to 2^31 − 1 (src/candy-transaction/candy-transaction.entity.ts:19, src/payment/payment.entity.ts:18, src/reward/reward.entity.ts:20), and the controllers accept any JSON number, including fractions (src/candy-transaction/candy-transaction.controller.ts:24, src/admin/admin.controller.ts:35). Neither the column range nor non-integer amounts are modelled.
- HTTP controllers, guards, authentication, the module files and the DTO validation decorators are not modelled. The services are called directly.
- The language-model call, its prompt (`createAnalysisPrompt`, src/ai/ai.service.ts:209-338) and its `toFixed` formatting are not modelled. The reply is an input, already parsed into fields.
- The reply's JSON types are not modelled: values of the wrong type, `parseFloat` of a non-number, a `null` overallScore (which parses to NaN) and priority strings other than high/medium/low are not modelled.
- Floating point: rates are exact rationals, so a float error at a band boundary (for example a computed 69.99999…) is not modelled.
- The probability distribution of `Math.random()` is not modelled. The draw is any value from 0 to 3.
- The clock is not modelled. `paidAt` is the parameter `now`. The `isPast` test in `approvePayment` (src/payment/payment.service.ts:58-61) computes a renewal start that is never used, so it is left out.
- UserServices.UserService.GetChildRewards: the optional month filter (date parsing) and the per-attempt `questionTitle` are not modelled. The function covers the call without a month.
- `getUsers`, `setRole`, `getChildren` and `getRewardCandyHistory` of the user service are plain queries outside the modelled core.
- `createMentorMockup` is not modelled: it clears the tables and inserts fixed records.
- Concurrency is not modelled: the code has no locking, and races on the read-modify-write of candy balances are out of scope. The `InternalServerErrorException` wrapper of `incrementCandy` covers database failures, which are not modelled either.
- Deleting rows is not modelled, because the core never deletes. A row's id is its position plus one. Rows with equal `createdAt` are ordered by id.
- `getAttempts` asks for the relation `question`, while the attempt entity names its relation `quiz`; as written, TypeORM most likely rejects that query, so every weakness analysis would fail at src/ai/ai.service.ts:72. The model treats it as the plain filtered, newest-first find without the relation (src/quiz/quiz-attempt.entity.ts:23-25 names the relation `quiz`). `submitAnswer` on an unknown question id dereferences `null` as written; the model fails with QuestionNotFound and changes nothing.
- `addChild` finds a user by an email that may be shared by several rows. The model takes the first such row in table order.
- WeaknessAnalysis.GenerateFallbackAnalysis: the in-place `Array.sort` is modelled as insertion into a list kept sorted by (rate, chapter id). SortedUnique shows this is the list the stable sort gives, starting from the ascending integer keys of `Object.entries`. That holds only for array-index keys, that is for chapter ids below 2^32 − 1. `Object.entries` lists larger ids in insertion order, and for those the model's (rate, chapter id) order is not the source's; that case is not modelled.
- The stale entity definitions are not modelled; the rows carry the fields the services use. As written, `submitAnswer` passes `questionId` and `selectedAnswer`, which are not attempt columns. What the database would then store or reject is not modelled. The model stores those values as `quizId` and `selectedChoice`, the columns the AI service reads back.

## Findings

| source | as written | input that shows it | evidently intended | confidence | as-written member | corrected member |
|---|---|---|---|---|---|---|
| src/quiz/quiz.service.ts:54 | a wrong answer returns `question.explanation`, but the question's column is `explain` (src/quiz/quiz-question.entity.ts:48, and src/ai/ai.service.ts:102 reads `explain`), so the explanation is `undefined` | any question and any answer other than its stored answer | a wrong answer returns the question's explanation | medium (not executed; the snapshot also calls the undefined `updateCandy`, so the file evidently predates its neighbours) | Quiz.ExplanationAsWritten, Quiz.ExplanationLostAsWritten | Quiz.Explanation |
