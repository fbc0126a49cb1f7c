# Decentralised to-do app: a Dafny model of its core

The application keeps to-do tasks in a smart contract on an Ethereum ledger.
An Express backend sits in front of that ledger. It authenticates a wallet by a
signed message and then issues a one-hour bearer token. It exposes task routes
behind that token and asks a local language model for productivity advice,
prioritisation and overdue reminders. It also keeps a file of browser
push subscriptions. A React frontend shows the tasks as cards, edits them in a
dialog, draws a dashboard of counts, and checks its own copy of the token.

The model follows the source file by file, one Dafny module each:

- `Js`: the JavaScript value semantics the code relies on:
  - template text, truthiness, `toString`, `parseInt`, `Number`;
  - `trim`, `split` on one character, `join`, ASCII `toLowerCase`.
- `Jwt` and `Http`: token claims with their one-hour lifetime and the
  signing library's expiry rule. An `Exchange` class holds the parts of
  `req`/`res` a handler changes (`req.user`, the response, calls of `next`,
  unhandled rejections).
- `TaskContract`: the contract's storage, the encoding of JavaScript arguments
  to the contract's types, and a `Ledger` class that submits transactions.
- `BlockChain` (backend/services/blockChain.js): the adapter that formats
  records and classifies receipts.
- `Advisory` (backend/ai/ai.js): the three calls into the model.
- `AuthMiddleware`, `AuthRoutes`, `TaskRoutes`, `AiRoutes`: the gate and the
  routes.
- `SubscriptionStore`, `WebPush`, `NotificationRoute`: the subscription file,
  the push sender and the two notification routes.
- `ClientAuth` (frontend/src/utility/auth.js), `TaskDialog`
  (AddEditTaskDialog.jsx), `TaskItem` (Task.jsx), `Dashboard`
  (DashboardComponent.jsx): the browser side.

Outside effects are parameters:
- the model's answer (`string -> Completion`);
- signature recovery, token signing and token checking;
- date parsing and the current time;
- the push service's answer;
- whether a file read or write succeeds;
- the fate of each transaction (`Tx`: the submission throws, the wait throws,
  or it is mined with a receipt).

State the source changes in place is imperative Dafny:
- the subscription file, the ledger, the HTTP exchange, the push service and
  the dialog are classes;
- their methods are specified against pure functions, whose properties are
  lemmas.

A write whose transaction reverts reaches the adapter as a failed wait: the
ethers v6 client rejects `tx.wait()` for a receipt with status 0, so the
adapter's `catch` rethrows and the route replies 500. The adapter's own branch
for a receipt whose status is not 1 (`{error: "Transaction failed", receipt}`)
is kept as written, but that library never takes it (see `## Left out`).

## Model

| member | source | states |
|---|---|---|
| Js.NatText | backend/services/blockChain.js:21-26 | `toString` of a natural is canonical decimal text denoting that natural |
| Js.NatTextOfDigits | backend/services/blockChain.js:21-26 | canonical decimal text is exactly what `toString` prints for its value |
| Js.NatTextInjective | backend/services/blockChain.js:21-26 | distinct naturals print differently |
| Js.DigitPrefix | backend/routes/TaskRoutes.js:65 | the longest prefix of decimal digits, followed by a non-digit or the end |
| Js.ParseInt | backend/routes/TaskRoutes.js:65 | `parseInt(s, 10)` yields an integer or `NaN` |
| Js.ParseIntOfDigitsThen | backend/routes/TaskRoutes.js:65 | `parseInt` of digits followed by a non-digit reads the digits' value |
| Js.ParseIntOfNegativeDigitsThen | backend/routes/TaskRoutes.js:65 | a leading minus sign negates the value read |
| Js.ParseIntReadsDecimal | backend/routes/TaskRoutes.js:65 | `parseInt` reads back any printed integer and ignores trailing non-digits |
| Js.ToNumber | frontend/src/components/AddEditTaskDialog.jsx:67 | `Number(v)` yields an integer or `NaN` |
| Js.ToNumberReadsNatText | frontend/src/components/AddEditTaskDialog.jsx:67 | `Number` reads back printed naturals |
| Js.TrimStart | frontend/src/components/AddEditTaskDialog.jsx:72 | the result is a suffix of the input that does not start with white space |
| Js.TrimEnd | frontend/src/components/AddEditTaskDialog.jsx:72 | the result is a prefix of the input that does not end with white space |
| Js.TrimStartDropsSpace | frontend/src/components/AddEditTaskDialog.jsx:72 | everything `trimStart` drops is white space |
| Js.TrimEndDropsSpace | frontend/src/components/AddEditTaskDialog.jsx:72 | everything `trimEnd` drops is white space |
| Js.TrimUnspaced | frontend/src/components/Task.jsx:20 | text with no white space at either end trims to itself |
| Js.TrimEmptyIff | frontend/src/components/AddEditTaskDialog.jsx:72 | `trim()` is empty iff the text is all white space |
| Js.BlankIffTrimsEmpty | frontend/src/components/Task.jsx:15 | the blank test equals `point.trim() !== ""` negated |
| Js.BlankAllSpace | frontend/src/components/Task.jsx:15 | blank iff every character is white space |
| Js.TrimIsInner | frontend/src/components/Task.jsx:20 | `trim()` is a contiguous stretch of the text with no white space at its ends |
| Js.Split | backend/middleware/authMiddleware.js:6 | `split` always yields at least one part |
| Js.SplitJoin | backend/middleware/authMiddleware.js:6 | joining the parts of a split with the separator gives the text back |
| Js.SplitPartsLackSeparator | backend/middleware/authMiddleware.js:6 | no part contains the separator |
| Js.SplitWithoutSeparator | frontend/src/utility/auth.js:6 | text without the separator splits into itself alone |
| Js.SplitAfterWord | frontend/src/utility/auth.js:6 | a word followed by the separator is peeled off as the first part |
| Js.JoinPlacesPart | backend/ai/ai.js:15-22 | each part of `join` sits in the joined text at its offset |
| Js.JoinPlacedInText | backend/ai/ai.js:15-22 | inside a template around the join, each part sits after the head and the earlier parts |
| Jwt.Verify | backend/middleware/authMiddleware.js:12-18 | a token is accepted iff it is well signed and not past its `exp` second; the claims are the signed ones |
| Http.Exchange.constructor | backend/routes/TaskRoutes.js:17-24 | a fresh exchange has no user, no response, no `next` call and no rejection |
| Http.Exchange.Reply | backend/routes/TaskRoutes.js:22 | `res.status(s).json(b)` sets the response and nothing else |
| TaskContract.Transacted | backend/services/blockChain.js:38-84 | an unencodable call throws "invalid argument"; a receipt comes back iff the call encodes and the transaction is mined |
| TaskContract.ListBelow | backend/services/blockChain.js:113-120 | the listing below `n` has at most `n` entries |
| TaskContract.Ledger.constructor | backend/services/blockChain.js:38-84 | a ledger starts from the given storage with nothing sent |
| TaskContract.Ledger.Transact | backend/services/blockChain.js:63-72 | submitting and waiting returns `Transacted`; the storage changes as `ChainAfter` says and the sent log as `SentAfter` says |
| TaskContract.ApplyKeepsConsistent | backend/services/blockChain.js:38-180 | every confirmed write keeps each record under its own id and never lowers the id counter |
| TaskContract.CreateStoresTask | backend/services/blockChain.js:38-84 | a create stores an open task owned by the sender under the next id and touches no other task |
| TaskContract.CompleteOnlyCompletes | backend/services/blockChain.js:86-102 | a complete sets `completed` and changes nothing else |
| TaskContract.EditKeepsIdentity | backend/services/blockChain.js:132-163 | an edit replaces the editable fields and keeps id, owner and completion |
| TaskContract.ListBelowMembers | backend/services/blockChain.js:113-120 | every live task with an id below `n` is listed |
| TaskContract.ListBelowLive | backend/services/blockChain.js:113-120 | every listed record is the live record stored under its own id, below `n` |
| TaskContract.ListBelowOrdered | backend/services/blockChain.js:113-120 | the listing is in strictly increasing id order, all below `n` |
| TaskContract.ListBelowFull | backend/services/blockChain.js:113-120 | with no deletion the listing has exactly `n` entries |
| BlockChain.FormatTask | backend/services/blockChain.js:20-30 | id, priority and progress become canonical decimal text of their values; the other fields pass through |
| BlockChain.FormatTaskRoundTrip | backend/services/blockChain.js:20-30 | the raw record can be read back from the formatted one, so formatting is injective |
| BlockChain.FormattedIsCanonical | backend/services/blockChain.js:20-30 | a formatted record re-formats to itself |
| BlockChain.CreateTask | backend/services/blockChain.js:38-84 | asks for advice, sends the create with it and returns the settled result; the ledger changes only on a confirmed receipt |
| BlockChain.EditTask | backend/services/blockChain.js:132-163 | sends the edit with the advice passed in and returns the settled result |
| BlockChain.CompleteTask | backend/services/blockChain.js:86-102 | sends only the id and returns the settled result |
| BlockChain.DeleteTask | backend/services/blockChain.js:165-180 | sends only the id and returns the settled result |
| BlockChain.WriteClassification | backend/services/blockChain.js:38-84 | the bare receipt iff mined with status 1, "Transaction failed" iff mined with another status, a throw iff unencodable or not mined; without a confirmed receipt the storage is unchanged |
| BlockChain.FormattedIdNamesTask | backend/services/blockChain.js:86-111 | a formatted id sent back by a client encodes to the same id for complete and delete, and `getTask` of it returns the same record |
| BlockChain.GetTask | backend/services/blockChain.js:104-111 | returns iff there is no fault and the id encodes and names a live task, and then gives that task formatted |
| BlockChain.GetAllTask | backend/services/blockChain.js:113-120 | returns iff there is no fault, with every listed task formatted, in order |
| BlockChain.GetAllTaskInIdOrder | backend/services/blockChain.js:113-120 | the returned ids, read as numbers, strictly increase |
| BlockChain.CountAsWrittenAlwaysThrows | backend/services/blockChain.js:122-130 | the count as written throws whatever the storage holds |
| BlockChain.GetAllTaskCount | backend/services/blockChain.js:122-130 | the intended count returns iff there is no fault and is at least the number of listed tasks |
| BlockChain.CountMatchesList | backend/services/blockChain.js:122-130 | with no task deleted the intended count equals the length of the list |
| BlockChain.CreateThenGet | backend/services/blockChain.js:38-111 | after a confirmed create, `getTask` of the next id returns the new open task owned by the wallet |
| BlockChain.CompleteThenGet | backend/services/blockChain.js:86-111 | after a confirmed complete, `getTask` shows the task completed and otherwise unchanged |
| BlockChain.EditThenGet | backend/services/blockChain.js:104-163 | after a confirmed edit, `getTask` shows the new fields and keeps id, owner and completion |
| BlockChain.DeleteThenGet | backend/services/blockChain.js:165-180 | after a confirmed delete, `getTask` reverts |
| Advisory.PrioritizeTasks | backend/ai/ai.js:14-34 | for a `tasks` that is an array of task objects or not an array at all, throws iff it is not an array |
| Advisory.Overdue | backend/ai/ai.js:60-63 | the filter returns no more tasks than it was given |
| Advisory.OverdueMembers | backend/ai/ai.js:60-63 | a task is selected iff it is in the list and overdue |
| Advisory.OverdueAppend | backend/ai/ai.js:60-63 | the filter distributes over concatenation, keeping order |
| Advisory.OverdueBoundary | backend/ai/ai.js:60-63 | a deadline equal to now is not overdue, one a millisecond earlier is; completed or unparsable deadlines never are |
| Advisory.OverdueExample | backend/ai/ai.js:60-63 | of a past open task, a future open task and a past completed task only the first is selected |
| Advisory.NoOverdueNoRequest | backend/ai/ai.js:65-68 | the model is not consulted iff no task is overdue, and then the answer is `undefined` |
| Advisory.ModelFailureIsSwallowed | backend/ai/ai.js:50-84 | a failing model makes all three calls answer `undefined` without throwing |
| Advisory.PrioritizePromptHasEveryTask | backend/ai/ai.js:15-22 | every task's entry appears in the prompt, in list order |
| Advisory.ReminderPromptHasEveryOverdueTask | backend/ai/ai.js:70-75 | every overdue task's entry appears in the reminder prompt |
| AuthMiddleware.AuthenticateToken | backend/middleware/authMiddleware.js:5-19 | `next` runs iff the gate admits, with `req.user` set; otherwise 401 or 403 with its message |
| AuthMiddleware.BearerTokenExtracted | backend/middleware/authMiddleware.js:6 | the token is the word after the first space, whatever the scheme word |
| AuthMiddleware.HeaderWithoutSpaceRefused | backend/middleware/authMiddleware.js:6-10 | a missing header or one without a space is refused with 401 |
| AuthMiddleware.AdmittedUntilExpiry | backend/middleware/authMiddleware.js:12-18 | a well-signed token is admitted before its `exp` second and refused with 403 from it on |
| AuthRoutes.VerifySignature | backend/routes/authRoutes.js:12-35 | replies 200 with a token, 401 on a mismatch or 500 on an error, exactly as the decision says |
| AuthRoutes.AuthenticatedIff | backend/routes/authRoutes.js:17-30 | success iff the lowered recovered and claimed addresses agree; the token signs the address as sent, for an hour |
| AuthRoutes.LowerIdempotent | backend/routes/authRoutes.js:19 | lowering twice is lowering once |
| AuthRoutes.CaseOfAddressIrrelevant | backend/routes/authRoutes.js:19 | the letter case of the claimed address never changes the outcome |
| AuthRoutes.IssuedTokenLastsAnHour | backend/routes/authRoutes.js:21 | an issued token passes the gate exactly during the hour after issue |
| ClientAuth.CheckAuthentication | frontend/src/utility/auth.js:59-66 | it never returns `false`: it returns `true` or throws |
| ClientAuth.ExpiryBoundary | frontend/src/utility/auth.js:5-9 | expired iff `exp` is before the current whole second |
| ClientAuth.NoExpNeverExpires | frontend/src/utility/auth.js:5-9 | a token without `exp` never expires on the client |
| ClientAuth.PayloadIsSecondSegment | frontend/src/utility/auth.js:6 | the payload is the segment between the first and second dot |
| ClientAuth.CheckAuthenticationIff | frontend/src/utility/auth.js:59-66 | authenticated iff a non-empty token is stored, decodes, and is not expired |
| ClientAuth.ExpirySecondDisagrees | frontend/src/utility/auth.js:8 | in the `exp` second itself the browser accepts a token the server refuses |
| TaskRoutes.WriteReplyIff | backend/routes/TaskRoutes.js:38-61 | a write route replies 500 iff the adapter threw; a failed receipt still gets 200 with the message |
| TaskRoutes.ListTasks | backend/routes/TaskRoutes.js:17-24 | behind the gate, replies with every task or 500; an admitted request has `req.user` set and `next` called once, a refused one neither; no rejection escapes the handler |
| TaskRoutes.CountTasks | backend/routes/TaskRoutes.js:27-35 | behind the gate, replies with the intended count or 500; an admitted request has `req.user` set and `next` called once, a refused one neither; no rejection escapes the handler |
| TaskRoutes.CreateRoute | backend/routes/TaskRoutes.js:38-61 | behind the gate, creates with advice and replies with the write's result; an admitted request has `req.user` set and `next` called once, a refused one neither; no rejection escapes the handler |
| TaskRoutes.EditRoute | backend/routes/TaskRoutes.js:64-100 | behind the gate, asks for advice on the new fields and edits the `parseInt` id; an admitted request has `req.user` set and `next` called once, a refused one neither; no rejection escapes the handler |
| TaskRoutes.CompleteRoute | backend/routes/TaskRoutes.js:103-113 | behind the gate, completes the path id as text; an admitted request has `req.user` set and `next` called once, a refused one neither; no rejection escapes the handler |
| TaskRoutes.GetTaskRoute | backend/routes/TaskRoutes.js:116-126 | behind the gate, replies with the task or 500; an admitted request has `req.user` set and `next` called once, a refused one neither; no rejection escapes the handler |
| TaskRoutes.DeleteRoute | backend/routes/TaskRoutes.js:129-139 | behind the gate, deletes the path id as text; an admitted request has `req.user` set and `next` called once, a refused one neither; no rejection escapes the handler |
| TaskRoutes.EditReadsLeadingDigits | backend/routes/TaskRoutes.js:65 | the edit route ignores text after the id's digits |
| TaskRoutes.CompleteNeedsDigits | backend/routes/TaskRoutes.js:103-139 | complete and delete reject an id with trailing text before sending |
| TaskRoutes.EditAdviceFromNewFields | backend/routes/TaskRoutes.js:64-100 | the edit's advice is the model's answer for the new fields, `undefined` on failure |
| AiRoutes.GetAdvice | backend/routes/aiRoutes.js:8-27 | replies 200 with the advice and starts the unawaited edit; its rejection is left unhandled; the gate sets `req.user` and calls `next` once |
| AiRoutes.PrioritizeTask | backend/routes/aiRoutes.js:29-38 | replies with the model's order or 500 and touches no ledger; the gate sets `req.user` and calls `next` once; no rejection escapes |
| AiRoutes.CompletedOnlyInPrompt | backend/routes/aiRoutes.js:8-27 | `completed` affects only the advice, not the fields edited |
| AiRoutes.FailedAdviceEditRejected | backend/routes/aiRoutes.js:8-27 | when the model fails the edit is rejected before sending and the ledger is unchanged |
| AiRoutes.PrioritizeReplyIff | backend/routes/aiRoutes.js:29-38 | for a `tasks` that is an array of task objects or not an array at all, 500 iff it is not an array, otherwise the model's answer |
| SubscriptionStore.CountEndpoint | backend/routes/notificationRoute.js:52-55 | the count is positive iff some entry has the endpoint |
| SubscriptionStore.DistinctCountsOne | backend/routes/notificationRoute.js:52-62 | in a registry without repeats each stored endpoint occurs once |
| SubscriptionStore.SubscriptionFile.constructor | backend/routes/notificationRoute.js:15-18 | the file starts with the given list |
| SubscriptionStore.SubscriptionFile.SaveSubscriptions | backend/routes/notificationRoute.js:33-42 | the whole list replaces the file; a failed write leaves it as it was |
| WebPush.WithoutEndpoint | backend/webpush/webpush.js:16-18 | the filter drops exactly the entries with the endpoint |
| WebPush.WithoutEndpointMembers | backend/webpush/webpush.js:16-18 | an entry survives iff it was there with another endpoint |
| WebPush.WithoutEndpointAppend | backend/webpush/webpush.js:16-18 | the filter distributes over concatenation, keeping order |
| WebPush.WithoutAbsentEndpoint | backend/webpush/webpush.js:16-18 | a list without the endpoint is unchanged |
| WebPush.WithoutEndpointIdempotent | backend/webpush/webpush.js:16-18 | removing twice is removing once |
| WebPush.WithoutEndpointKeepsDistinct | backend/webpush/webpush.js:16-18 | removal keeps endpoints distinct |
| WebPush.AfterSendShrinks | backend/webpush/webpush.js:37-50 | a send adds nothing, keeps endpoints distinct and changes the file only on a 410 answer |
| WebPush.RemoveExpiredSubscription | backend/webpush/webpush.js:14-21 | the file becomes the list read minus the endpoint, if the write succeeds |
| WebPush.PushService.constructor | backend/webpush/webpush.js:24-28 | a fresh service has sent nothing |
| WebPush.PushService.SendNotification | backend/webpush/webpush.js:39 | records the attempt and returns the service's answer |
| WebPush.SendPushNotification | backend/webpush/webpush.js:31-51 | one attempt with the reminder payload; only a 410 answer removes the subscription; nothing is thrown |
| NotificationRoute.Subscribe | backend/routes/notificationRoute.js:45-68 | for a body carrying a subscription, appends it unless its endpoint was read, and replies 200 with the matching message |
| NotificationRoute.SubscribeReplyIff | backend/routes/notificationRoute.js:52-59 | "Already subscribed!" iff the endpoint is stored, and then the file is unchanged |
| NotificationRoute.SubscribeAppends | backend/routes/notificationRoute.js:61-65 | stored entries keep their places and at most the subscription is added at the end |
| NotificationRoute.SubscribeAfterFailedRead | backend/routes/notificationRoute.js:22-30 | a failed read makes a successful subscribe replace the registry with the one subscription |
| NotificationRoute.SubscribeKeepsDistinct | backend/routes/notificationRoute.js:52-65 | subscribing keeps endpoints distinct |
| NotificationRoute.SubscribeIdempotent | backend/routes/notificationRoute.js:52-59 | a second subscribe with the same endpoint changes nothing and leaves exactly one entry |
| NotificationRoute.SendNotification | backend/routes/notificationRoute.js:71-84 | every stored subscription is sent the message in turn, the file evolves send by send, and the reply is 200 |
| NotificationRoute.SendsOnlyShrink | backend/routes/notificationRoute.js:78-81 | the send loop adds nothing and keeps endpoints distinct |
| NotificationRoute.SendsWithoutGone | backend/routes/notificationRoute.js:78-81 | without a 410 answer the file is unchanged |
| NotificationRoute.SendsRemoveGone | backend/routes/notificationRoute.js:78-81 | an endpoint answered 410 whose removal could write is gone at the end |
| TaskDialog.Clamp | frontend/src/components/AddEditTaskDialog.jsx:67 | the clamp yields a number or `NaN` |
| TaskDialog.ClampBounds | frontend/src/components/AddEditTaskDialog.jsx:66-67 | a numeric progress lands in 0..100, in-range values are kept, `NaN` passes through, clamping is idempotent |
| TaskDialog.InputChangeOnlyNamed | frontend/src/components/AddEditTaskDialog.jsx:62-69 | only the named field changes, clamped when it is the progress |
| TaskDialog.InputChangeIdempotent | frontend/src/components/AddEditTaskDialog.jsx:62-69 | repeating a change changes nothing more |
| TaskDialog.LoadedDefaults | frontend/src/components/AddEditTaskDialog.jsx:35-41 | falsy priority, progress and deadline fall back to "1", 0 and "" |
| TaskDialog.OpenedWithoutId | frontend/src/components/AddEditTaskDialog.jsx:48-60 | no task id resets the form; a failed fetch keeps it |
| TaskDialog.SubmitRequestIff | frontend/src/components/AddEditTaskDialog.jsx:71-101 | nothing is sent iff the title is blank; an edit is sent iff the task id is truthy |
| TaskDialog.SaveFailsIff | frontend/src/components/AddEditTaskDialog.jsx:80-106 | the save fails iff the HTTP call failed or gave no body; a failed edit fails on `response.data` |
| TaskDialog.Dialog.constructor | frontend/src/components/AddEditTaskDialog.jsx:19-29 | the dialog starts with the empty form and no messages |
| TaskDialog.Dialog.TaskIdChanged | frontend/src/components/AddEditTaskDialog.jsx:48-60 | the form becomes `Opened` and nothing else changes |
| TaskDialog.Dialog.HandleInputChange | frontend/src/components/AddEditTaskDialog.jsx:62-69 | the form becomes `InputChange` and nothing else changes |
| TaskDialog.Dialog.HandleSubmit | frontend/src/components/AddEditTaskDialog.jsx:71-109 | a blank title sets the error; otherwise the request is sent and success or failure sets its message, update and close |
| TaskDialog.Dialog.HandleSnackbarClose | frontend/src/components/AddEditTaskDialog.jsx:111-115 | a click away keeps both messages; any other reason clears them |
| TaskItem.SplitFrom | frontend/src/components/Task.jsx:14 | the split always has at least one piece |
| TaskItem.SplitCharacterised | frontend/src/components/Task.jsx:14 | the pieces interleaved with the removed separators give the text back; each removed string is a separator and no piece holds one |
| TaskItem.NoSeparatorOnePiece | frontend/src/components/Task.jsx:14 | text without a separator stays one piece |
| TaskItem.KeptAppend | frontend/src/components/Task.jsx:15 | points are kept piece by piece, in order |
| TaskItem.KeptFrom | frontend/src/components/Task.jsx:15-20 | each point is a non-blank piece trimmed |
| TaskItem.ShownPointFacts | frontend/src/components/Task.jsx:20 | a shown point is non-empty, unpadded and without separators |
| TaskItem.AdvicePointsSpec | frontend/src/components/Task.jsx:11-25 | `null`/`undefined` render nothing, other non-strings throw, and each point of a string is a trimmed non-blank piece with no separator |
| TaskItem.UnbrokenAdvice | frontend/src/components/Task.jsx:13-15 | advice without a separator is one trimmed point, or none when blank |
| TaskItem.PriorityLabelIff | frontend/src/components/Task.jsx:123-127 | "Low" iff the string "1", "Medium" iff "2", "High" otherwise (the number 1 too) |
| TaskItem.UndoDoesNotReopen | frontend/src/components/Task.jsx:154-165 | "Undo" and "Complete" send the same request, which leaves a completed task completed; Edit is disabled iff "Undo" shows |
| TaskItem.SeededAdvice | frontend/src/components/Task.jsx:34-38 | truthy task advice replaces the shown advice and shows the toggle |
| TaskItem.FailedFetchClearsAdvice | frontend/src/components/Task.jsx:62-79 | a failed advice request leaves `undefined`, hiding the toggle and the points |
| Dashboard.ProgressBucket | frontend/src/components/DashboardComponent.jsx:51 | a bucket is a number or `NaN` |
| Dashboard.BumpCounts | frontend/src/components/DashboardComponent.jsx:28-32 | counting a key raises its count and the total by one |
| Dashboard.BumpKeys | frontend/src/components/DashboardComponent.jsx:28-32 | a new key is appended; a known key keeps the keys as they were |
| Dashboard.RollupCounts | frontend/src/components/DashboardComponent.jsx:28-32 | one positive entry per distinct key, each counting its occurrences, the counts summing to the number of tasks |
| Dashboard.RollupFirstKey | frontend/src/components/DashboardComponent.jsx:28-32 | the first task's key heads the rollup |
| Dashboard.CompletionSplit | frontend/src/components/DashboardComponent.jsx:68-71 | completed and incomplete counts add up to the number of tasks |
| Dashboard.ProgressBucketBounds | frontend/src/components/DashboardComponent.jsx:51 | a numeric progress falls in the bucket of the multiple of 20 at or below it; non-numbers fall in `NaN` |
| Dashboard.DrawIff | frontend/src/components/DashboardComponent.jsx:7-11 | the charts are drawn iff the list is non-empty, with the three rollups |
| Dashboard.ProgressLabelsUseCompletionForm | frontend/src/components/DashboardComponent.jsx:112-122 | progress slices always get the completion label, never a priority name |

## Left out

- All I/O is a parameter and not modelled: the network, the file system, `localStorage`, the push service, the language model and the ledger's provider. Also left out: logging and `console` output.
- JavaScript `Date` parsing and locale formatting are a `parseDate` oracle. `formatDeadline` in Task.jsx is not modelled, because it only renders text.
- Numbers are integers: floating-point progress values, fractional `Number` results and the string forms `Infinity`, exponents and hex are not modelled.
- `toLowerCase` is modelled on ASCII letters only: Unicode case mapping is not.
- The contract's code is not part of this model. Its behaviour is assumed, as the lines below say, one per member that relies on it.
- BlockChain.GetTask: reading an id with no live task (never created, or deleted) is assumed to revert, with the message "execution reverted". `BlockChain.DeleteThenGet` relies on the same assumption.
- TaskContract.ListBelow: `getAllTasks` is assumed to return the live tasks in id order and to skip deleted ids.
- TaskContract.Apply: an edit, complete or delete naming an id with no live task is assumed to change nothing rather than revert.
- BlockChain.GetAllTaskCount: `getTaskCount` is assumed to return the next id to hand out, which still counts deleted tasks.
- TaskContract.Transacted: an argument the client library cannot encode throws with the placeholder message "invalid argument", not the library's own text. That message reaches the 500 `{error}` body of the routes.
- TaskRoutes.ReceiptJson: the receipt sent to clients is reduced to its status and hash.
- BlockChain.Settle: the branch for a receipt whose status is not 1 models the adapter's code. The ethers v6 client never reaches it, because `tx.wait()` rejects for a reverted transaction; with that library a revert arrives as `WaitFails` and the route replies 500.
- TaskRoutes.WriteReplyIff: its 200 reply for a receipt whose status is not 1 is the route's code as written. The ethers v6 client never produces that input (see `BlockChain.Settle` above).
- Advisory.PrioritizeTasks: task list elements take the model's types. An array holding `null` or `undefined` also throws in `tasks.map`, outside the `try`, and is not modelled.
- AiRoutes.PrioritizeReplyIff: for the same reason, an array holding `null` or `undefined`, which also gets 500, is not modelled.
- Advisory.SendRemindersForOverdueTasks: "never throws" holds for arrays of task objects. The filter runs outside the `try`, so a `null` or `undefined` element throws, and that case is not modelled.
- NotificationRoute.Subscribe: the body is assumed to carry a subscription. A body without one throws at `subscription.endpoint` once the file holds an entry. On an empty file it stores `undefined`, and every later subscribe then throws. Neither case is modelled.
- TaskContract.AsUint: accepts non-negative integers and decimal digit text only. The client library's other forms (hex text, big integers beyond the model's values) are not modelled.
- Jwt.Verify: models only the signature check and `exp`. `nbf`, audience and issuer checks are not modelled, because the code sets none of them.
- Request bodies and their fields take the model's types. A body that is not an object at all (so that destructuring throws) is not modelled, and neither is a field of another type where the model fixes one.
- React rendering, hooks scheduling, loaders and snackbars' timing, and d3's SVG drawing (arcs, colours, bar geometry) are not modelled. Only the state and the counts they show are.
- TaskDialog.SubmitRequest: a title that is not a string throws in `trim`. This is modelled as `Threw`, without the exact error text.
- TaskDialog.Dialog.HandleSubmit: `onTaskUpdated` and `onClose` are assumed not to throw. The parent's `onTaskUpdated` refetches and ignores its argument, so it is recorded as a value only.
- The click handlers `completeTaskHandler` and `deleteTaskHandler` in Task.jsx, and the parent's refetch, are not modelled beyond the request each button asks for (`TaskItem.CompleteButtonOf`). Their effect is the route's (`TaskRoutes.CompleteRoute`, `TaskRoutes.DeleteRoute`).
- frontend/src/utility/utils.js is modelled only where its error handling shapes the result:
  - `createTask` rethrows and `editTask` returns `undefined` (`TaskDialog.ClientCall`);
  - `getAiAdvice` returns `undefined` on failure (`TaskItem.AfterFetch`).
- backend/ai/backgroundJob.js (the cron job that feeds `sendRemindersForOverdueTasks`) is not part of this model; the function itself is (`Advisory.SendRemindersForOverdueTasks`).
- The unawaited edit in `/get-advice` is modelled as completing before the reply is recorded. The interleaving of its settlement with later requests is not modelled.
- Concurrency between requests (two `/subscribe` calls racing on the file) is not modelled: each handler runs to completion.
- TaskContract.ListBelowMembers: states only that every live task below `n` is listed. The converse is stated by `TaskContract.ListBelowLive`: every listed record is the live record under its own id, below `n`.
- TaskRoutes.CountTasks: uses the corrected count (`BlockChain.GetAllTaskCount`), not the count as written, which always throws (see Findings).

## Findings

| source | as written | input that shows it | evidently intended | confidence | as-written member | corrected member |
|---|---|---|---|---|---|---|
| backend/services/blockChain.js:122-130 | `taskCount.toNumber()` is called on the contract's count, which the ethers v6 library returns as a JavaScript `bigint`; `bigint` has no `toNumber`, so the call throws a TypeError that the `catch` rethrows, and `GET /count` always replies 500 | any storage, for example an empty ledger with `taskCount` 0 | return the count as a number (`Number(taskCount)`), equal to the number of listed tasks when none was deleted | not executed | BlockChain.CountAsWrittenAlwaysThrows | BlockChain.CountMatchesList |
