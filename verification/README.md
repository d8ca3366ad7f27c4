# TeleCollection, verified

TeleCollection turns a Telegram account into a drive: folders are channels whose title carries the
marker `[TC]`, files are documents posted to them, and a small SQL store caches what is where.
This project models the four parts of it whose correctness is not visible from any one function,
and proves what they keep.

**Logging in** (`LoginFlow`, `LoginProtocol`, `LoginInvariant`, `LoginSpec`, `LoginTheorems`,
`LoginLiveness`, `LoginExclusion`, `LoginProgress`). `Flow` bridges HTTP calls to a login goroutine that blocks inside the Telegram
client. `LoginFlow.Flow` is the mutex-guarded record as an object; each of its methods is one
lock-protected region, tied to a function on records. `LoginProtocol` is the whole protocol as a
transition system: every region, channel operation and select arm is an event, and any number of
calls and of attempts, live or superseded, interleave freely. `LoginInvariant` has the invariant of
all reachable worlds; the theorems follow from it. Among them: every run simulates a four-state
machine driven by the current attempt alone; no goroutine leaks; the exact condition under which a
call can still be answered; what a submitted code, password or QR scan can lead to; and the exact condition under which a Logout or an abandon can make two
backend runs overlap, without which they never do.

**Moving bytes** (`Durations`, `Retry`, `Progress`, `Upload`, `Download`). The retry loop, the
flood-wait middleware under it, the readers and writers that count and rewind, and the integrity
check after a download. Failures, cancellations and fragmentations are arbitrary schedules. Times
are 64-bit durations with wrap-around.

**The drive and its cache** (`SqliteStore`, `Fileops`, `Drive`). The tables with their keys and
counters, the index over them, the two-step move, and the drive operations over both Telegram and
the index. The main theorem is about whole runs, on any account and with an empty index to begin
with: a listing is exactly the files the operations that succeeded account for, and each of them is
on Telegram as listed, whatever other clients add meanwhile.

**Folder titles** (`Titles`). The loop that strips `[TC]` from a title and the function that adds it.

Throughout, functions describe the effect of a step on values, methods and classes carry the step
out as the program does, and the methods' contracts equate the two; what is proved about the
functions is therefore proved of the methods.

## Where the code does not do what its comments say

Each of these is proved, and so is the exact condition under which the promise does hold.

- StartQR waits so that backend runs never overlap. A Logout or an abandon waits for nobody
  (`LoginExclusion.OverlapAfterLogout`). One that hits an attempt in progress can be followed by an
  overlap, with no other such event, if and only if some attempt was inside its run or on its way
  there (`LoginExclusion.OverlapIffHarm`); without one there never is an overlap
  (`LoginExclusion.AtMostOneRun`).
- A StartLogin cancelled late takes back a login that has succeeded, because recording a result
  leaves the generation alone (`LoginTheorems.AbandonUndoesLogin`, `LoginTheorems.AbandonUndoesIff`).
- A call may wait for good while its context lasts: another call has taken the one token of the done
  channel, or the goroutine it waits for is never started (`LoginLiveness.TokenCanBeStolen`,
  `LoginLiveness.GivingUpStrands`, `LoginLiveness.AnswerableIffNotStuck`).
- A SubmitCode hands over its code if the login still waits for one. When two calls have seen it wait,
  only one of them is served: a code can reach its login if and only if no other has
  (`LoginProgress.CodeArrivesIff`, `LoginProgress.SecondCodeComesLate`).
- `FolderName` is described as idempotent; it is so exactly when stripping leaves no marker behind
  (`Titles.IdempotentIff`, `Titles.NotAlwaysIdempotent`).
- `Backoff` is described as `base * 2^attempt` capped; it is so for every attempt exactly when the
  cap is reached before the doubling overflows (`Durations.BackoffExact`,
  `Durations.BackoffCanWrapToZero`).
- A retried upload is described as re-sending the full stream. The rewind goes to offset 0, so every
  attempt is offered the same bytes on every schedule if and only if the reader is handed over at
  offset 0 or cannot be rewound at all (`Upload.OfferedAlikeIff`).
- The integrity check counts bytes. It implies the right contents for a stream that never reports a
  short success (`Download.DownloadSound`). For one that may, it can pass wrong contents for exactly
  the documents whose bytes are not all the same (`Download.CanMaskIff`).
- The middleware is described as waiting a second longer than the server asks. It does if and only if
  that wait fits into a duration (`Retry.WaitLongerIff`); the longest request wraps to no wait at all
  (`Retry.LongestWaitWraps`).
- A rewind that fails is described as aborting the upload. To the retry loop it is an error like any
  other, so it does if and only if no attempt is left, the wait is cut short or the context is done
  (`Upload.RewindFailureEndsIff`); an upload can succeed after it
  (`Upload.SucceedsAfterFailedRewind`).
- A move that reports success is taken to have returned the new message's id. It returns the first
  concrete message of the reply; for a tracked file the cache stays in agreement if and only if that
  is the copy (`Drive.StepAgreesIff`).

One more case cannot arise today, because the only middleware made has three retries
(internal/telegram/client/client.go:35, 92): with a negative number it would report success without
sending anything (`Retry.UnsentIffNegative`).

## Model

| member | source | states |
|---|---|---|
| `LoginFlow.Flow.constructor` | internal/telegram/auth/flow.go:113-118 | a new service is logged out, with no attempt and generation 0 |
| `LoginFlow.Flow.ResetLocked` | internal/telegram/auth/flow.go:383-392 | clears the per-attempt fields, makes a new generation and cancels the context that was held |
| `LoginFlow.Flow.EnterStartLogin` | internal/telegram/auth/flow.go:128-153 | one caller wins, with a fresh authenticator, context and done channel of the new generation; a loser changes nothing; a winner finds no live context to cancel |
| `LoginFlow.Flow.EnterSubmit` | internal/telegram/auth/flow.go:182-190 | the call gets the authenticator and done channel of the current attempt, neither nil, exactly in the state it needs |
| `LoginFlow.Flow.EnterStartQR` | internal/telegram/auth/flow.go:253-274 | preempts: the old context is cancelled, the old done channel is handed back, the new attempt owns the record and no waiting state is left |
| `LoginFlow.Flow.Logout` | internal/telegram/auth/flow.go:323-329 | back to logged out with no attempt, the attempt in progress cancelled |
| `LoginFlow.Flow.Abandon` | internal/telegram/auth/flow.go:368-376 | resets only for the current generation, and cancels the context only then |
| `LoginFlow.Flow.Transition` | internal/telegram/auth/flow.go:357-363 | writes the state only for the current generation and nothing else |
| `LoginFlow.Flow.FinishAttempt` | internal/telegram/auth/flow.go:335-353 | records the result and releases the attempt only for the current generation |
| `LoginProtocol.RecordStays` | internal/telegram/auth/flow.go:335-376 | only the locked regions write the record |
| `LoginProtocol.OtherAttemptsStay` | internal/telegram/auth/flow.go:155-159 | a goroutine changes nothing of another attempt that is cancelled |
| `LoginInvariant.Always` | internal/telegram/auth/flow.go:69-97 | every world any interleaving reaches satisfies the protocol invariant |
| `LoginInvariant.KeepsTakePrevDone` | internal/telegram/auth/flow.go:278-285 | taking the predecessor's token keeps the invariant, for the waiting attempt and for the one that left the token |
| `LoginTheorems.Simulation` | internal/telegram/auth/flow.go:69-97 | every run is a run of the sequential machine over logged_out, wait_code, wait_password and logged_in, in lock step |
| `LoginTheorems.StepRefines` | internal/telegram/auth/flow.go:335-392 | each step is one allowed step of that machine, or changes no field of the record |
| `LoginTheorems.SupersededIsSilent` | internal/telegram/auth/flow.go:79-82 | whatever a superseded goroutine still does, the record stays as it is |
| `LoginSpec.PasswordAfterCode` | internal/telegram/auth/flow.go:56-59 | in the specification a password is only waited for by a login that asked for a code, and nothing but the request for the password has happened since |
| `LoginTheorems.CodeAskedFirst` | internal/telegram/auth/flow.go:56-59 | in every run, when a code or a password is waited for, the attempt that is current has asked for a code and has been current ever since |
| `LoginExclusion.AtMostOneRun` | internal/telegram/auth/flow.go:248-294 | in a run in which no Logout and no abandon throws an attempt away while some attempt may still run, at most one backend run executes at any time |
| `LoginExclusion.KeepsOrder` | internal/telegram/auth/flow.go:252-294 | every event but such a one keeps the attempts in turn: none is launched while an older one may run |
| `LoginExclusion.TurnPassesOn` | internal/telegram/auth/flow.go:278-285 | once a StartQR has seen its predecessor unwind, no older attempt can run |
| `LoginExclusion.MayRunIff` | internal/telegram/auth/flow.go:278-294 | an attempt can be inside its backend, now or later, if and only if it is inside, about to be launched, or waits for a token that is not lost |
| `LoginExclusion.OverlapCanFollow` | internal/telegram/auth/flow.go:323-376 | from every reachable state, a Logout or abandon that throws an attempt away while some attempt may run can be followed by two runs at once, with no other such event |
| `LoginExclusion.OverlapIffHarm` | internal/telegram/auth/flow.go:323-376 | in a run without such an event so far, one that throws an attempt away can be followed by an overlap, with no other, if and only if some attempt may run when it comes |
| `LoginExclusion.OverlapAfterLogout` | internal/telegram/auth/flow.go:323-329 | a run with a Logout in which two attempts are inside the backend at once |
| `LoginTheorems.FieldsGoTogether` | internal/telegram/auth/flow.go:84-89 | inProgress, a held cancel and a held done channel are equivalent; there is an authenticator exactly for a code login in progress |
| `LoginTheorems.WaitingStates` | internal/telegram/auth/flow.go:357-363 | wait_code and wait_password belong to a live code attempt that is past that request and has not recorded its result |
| `LoginTheorems.NoNilCapture` | internal/telegram/auth/flow.go:181-199 | no Submit call ever holds a nil authenticator or done channel |
| `LoginTheorems.HonestAnswers` | internal/telegram/auth/flow.go:161-173 | nil, a failure, ErrPasswordNeeded, a url and a context error each mean what they say of the attempt the call is bound to; a url is the first its backend showed, an empty one means a login that succeeded, and a call that gave up leaves no live attempt of its own |
| `LoginTheorems.RefusedOnEntry` | internal/telegram/auth/flow.go:129-137 | a refusal tells the truth about the moment the call took the lock: a login was in progress, or the state was the one it names and not the one needed |
| `LoginTheorems.DoneOnce` | internal/telegram/auth/flow.go:155-159 | each attempt sends on done at most once, exactly when it exits, and the send never blocks |
| `LoginTheorems.Supersession` | internal/telegram/auth/flow.go:256-276 | an attempt is uncancelled exactly while it is current and in progress; then it is running or its caller is on the way to launch or abandon it |
| `LoginTheorems.DoomedGetsCloser` | internal/telegram/auth/flow.go:378-382 | every move of a cancelled goroutine brings it nearer to its exit and nothing takes it further away |
| `LoginTheorems.DoomedMovesAreFew` | internal/telegram/auth/flow.go:378-382 | in any run a cancelled goroutine makes a bounded number of moves |
| `LoginTheorems.DoomedCanExit` | internal/telegram/auth/flow.go:443-471 | from every reachable world a cancelled goroutine reaches its exit by its own moves alone, at most twelve |
| `LoginTheorems.BoundOnEntry` | internal/telegram/auth/flow.go:181-190 | the attempt a call works on was settled in its locked region, when the record was in the state the call needs |
| `LoginTheorems.CodeProvenance` | internal/telegram/auth/flow.go:443-454 | a code an attempt receives comes from a SubmitCode that found this attempt current and waiting for a code, and from no call that served another |
| `LoginTheorems.PasswordProvenance` | internal/telegram/auth/flow.go:460-471 | the same for a password |
| `LoginProgress.CodeArrivesIff` | internal/telegram/auth/flow.go:181-199 | a code submitted to a login that waits for one can reach it, with no context ending and no region entered on the way, if and only if no other call's code has |
| `LoginProgress.CodeCanLogIn` | internal/telegram/auth/flow.go:181-210 | then, whatever the backend's run returns, the call can be told so, and the state be logged_in or logged_out accordingly |
| `LoginProgress.CodeCanAskForPassword` | internal/telegram/auth/flow.go:200-210 | or the call is answered ErrPasswordNeeded and the state is wait_password |
| `LoginProgress.PasswordArrivesIff` | internal/telegram/auth/flow.go:216-234 | a password likewise |
| `LoginProgress.PasswordCanLogIn` | internal/telegram/auth/flow.go:216-241 | then, whatever the run returns, the call can be told so, and the state follows |
| `LoginProgress.SecondCodeComesLate` | internal/telegram/auth/flow.go:181-199 | a run in which two calls have seen the login wait and the first has been served |
| `LoginProgress.StartIsGranted` | internal/telegram/auth/flow.go:128-153 | from every reachable state with nothing in progress a StartLogin or StartQR can launch its own attempt |
| `LoginProgress.PreemptionIsGranted` | internal/telegram/auth/flow.go:276-287 | a StartQR that waits for a token that is not lost can launch its own attempt, as long as it is the last one made |
| `LoginProgress.CodeCanBeAskedFor` | internal/telegram/auth/flow.go:155-164 | a launched code login can come to wait_code with its StartLogin answered nil |
| `LoginProgress.LaunchCanEnd` | internal/telegram/auth/flow.go:164-167 | or end before, with either result told to its caller |
| `LoginProgress.UrlCanBeShown` | internal/telegram/auth/flow.go:287-301 | a launched QR login can show any url to the call that started it |
| `LoginProgress.ScanCanLogIn` | internal/telegram/auth/flow.go:287-297 | and then succeed or fail |
| `LoginTheorems.LoggedInByFinishing` | internal/telegram/auth/flow.go:335-353 | logged_in is reached only when the then-current attempt finishes with nil, and holds without a break since |
| `LoginTheorems.LosersChangeNothing` | internal/telegram/auth/flow.go:133-137 | over a whole run, no event of a StartLogin that was turned away changed the record or any attempt |
| `LoginTheorems.OneWinnerAtATime` | internal/telegram/auth/flow.go:133-153 | between two winning StartLogins the first attempt was finished, logged out, abandoned or preempted |
| `LoginTheorems.AbandonUndoesLogin` | internal/telegram/auth/flow.go:168-171 | a run in which a late abandon takes a successful login back |
| `LoginTheorems.AbandonUndoesIff` | internal/telegram/auth/flow.go:368-376 | an abandon ends a login exactly when its attempt is the last one made |
| `LoginLiveness.StuckForGood` | internal/telegram/auth/flow.go:278-285 | a stuck call stays stuck whatever all others do, until its own context ends |
| `LoginLiveness.AnsweredUnlessStuck` | internal/telegram/auth/flow.go:161-173 | every other call has a continuation that answers it and in which no context ends |
| `LoginLiveness.AnswerableIffNotStuck` | internal/telegram/auth/flow.go:193-210 | a call whose context lasts can be answered if and only if it is not stuck |
| `LoginLiveness.MovesTowardsAnswer` | internal/telegram/auth/flow.go:161-173 | every move of a call's own brings it nearer to its answer; nobody else moves it |
| `LoginLiveness.CancelledCallReturns` | internal/telegram/auth/flow.go:168-171 | a call whose context has ended returns by at most five moves of its own |
| `LoginLiveness.TokenCanBeStolen` | internal/telegram/auth/flow.go:164-167 | a run in which a StartLogin takes the token a StartQR waits for |
| `LoginLiveness.GivingUpStrands` | internal/telegram/auth/flow.go:282-285 | a run in which a StartQR gives up and leaves the next one waiting for a goroutine nobody starts |
| `Titles.DisplayName` | internal/telegram/dialogs/dialogs.go:46-62 | the slicing loop computes the left-to-right reading that leaves the markers out, trimmed |
| `Titles.StripCounts` | internal/telegram/dialogs/dialogs.go:39-62 | exactly four characters go for each marker, none without one, and there is one exactly in a folder title |
| `Titles.StripLeavesPieces` | internal/telegram/dialogs/dialogs.go:46-62 | a title comes apart at its markers, each taken where it first stands, and stripping leaves the pieces between them in their order |
| `Titles.MarkerChars` | internal/telegram/dialogs/dialogs.go:35-41 | a marker is `[TC]` in any mixture of cases |
| `Titles.TrimIsMiddle` | internal/telegram/dialogs/dialogs.go:61 | trimming cuts the blanks off both ends, all of them and nothing else |
| `Titles.PlainName` | internal/telegram/folders/folders.go:33-40 | a plain name gets ` [TC]` behind it |
| `Titles.FolderNameIsFolderTitle` | internal/telegram/folders/folders.go:29-40 | every title made is recognised as a folder |
| `Titles.DisplayOfFolderName` | internal/telegram/folders/folders.go:33-40 | displaying a made title is displaying the name twice |
| `Titles.NameRoundTrip` | internal/telegram/folders/folders.go:33-40 | a name survives the trip through a title if and only if it is trimmed and carries no marker |
| `Titles.IdempotentIff` | internal/telegram/folders/folders.go:29-40 | making a title is idempotent at a name, and its display unchanged, if and only if the displayed name carries no marker |
| `Titles.NotAlwaysIdempotent` | internal/telegram/folders/folders.go:29-40 | the name `[T[TC]C]` shows it is not always |
| `Titles.MarkersWearOff` | internal/telegram/dialogs/dialogs.go:46-62 | n strippings leave a marker only in a name of at least 4n + 4 characters |
| `Titles.TitlesSettle` | internal/telegram/folders/folders.go:33-40 | repeating reaches a fixed point, after about a quarter as many rounds as the name is long |
| `Durations.Backoff` | internal/telegram/retry/retry.go:30-46 | the loop over 64-bit durations computes the specified delay |
| `Durations.BackoffExact` | internal/telegram/retry/retry.go:26-46 | the delay is min(base·2^attempt, cap) for every attempt if and only if no doubling overflows before the cap |
| `Durations.BackoffWithinCap` | internal/telegram/retry/retry.go:26-46 | caps up to 2^62 are safe, and the delay never shrinks from one attempt to the next |
| `Durations.BackoffCanWrapToZero` | internal/telegram/retry/retry.go:35-41 | above that a delay can wrap to zero |
| `Retry.FloodWaitSeconds` | internal/telegram/retry/retry.go:63-71 | the seconds convert back into a duration without overflow |
| `Retry.SecondsAreCut` | internal/telegram/retry/retry.go:63-71 | they are the duration asked, cut toward zero, and none for any other error |
| `Retry.Do` | internal/telegram/retry/retry.go:79-116 | the loop is the specified one: outcomes, waits, final world and result |
| `Retry.DoKeeps` | internal/telegram/retry/retry.go:73-116 | at most MaxAttempts calls, every one but the last failed, one wait between two, and the result is nil, the last error or the context's |
| `Retry.DoWaits` | internal/telegram/retry/retry.go:99-112 | every wait of every run is what the server asked for, cut to whole seconds, after a flood error, and min(base·2^attempt, cap) after any other |
| `Retry.DoTraced` | internal/telegram/retry/retry.go:85-116 | every report is true: each outcome is what a call returned in a world whose context was not done, each wait lay between two calls, and the result is the last call's or the context's error for a reason |
| `Retry.ScheduleFollowed` | internal/telegram/retry/retry.go:79-116 | a loop makes the attempts its schedule calls for and stops for one of the four reasons there are |
| `Retry.ExactCalls` | internal/telegram/retry/retry.go:79-116 | in a run its context does not disturb, it calls until the first success or the last attempt, whichever is first, and returns what that call returned |
| `Retry.NeverCalledWhenDone` | internal/telegram/retry/retry.go:77-89 | the callback is never called in a world whose context is done, even when the timer wins the select |
| `Retry.DoInduction` | internal/telegram/retry/retry.go:79-116 | what holds before each attempt and is carried by each failed call and its wait decides what holds at the end, with the result |
| `Retry.WaitsBounded` | internal/telegram/retry/retry.go:99-112 | in every run the waits that no flood error asked for add up to at most min(base·(2^(n-1) − 1), (n − 1)·cap) |
| `Retry.Handle` | internal/telegram/client/client.go:148-183 | the middleware's loop is the specified one, for every maxRetries |
| `Retry.HandleKeeps` | internal/telegram/client/client.go:135-183 | a call is re-sent only after a flood error, at most maxRetries times, after a wait of a second more than asked in 64-bit arithmetic; other errors pass on at once |
| `Retry.HandleTraced` | internal/telegram/client/client.go:148-183 | every report of the middleware is true in the same sense |
| `Retry.HandleInduction` | internal/telegram/client/client.go:148-183 | what holds before each send and is carried by each flood error and its wait decides what holds at the end |
| `Retry.NothingSentWhenDone` | internal/telegram/client/client.go:150-155 | a context that is done at the start gives its error, and nothing is sent |
| `Retry.ResultWasSent` | internal/telegram/client/client.go:148-183 | any other result was returned by a send made while the context was not done |
| `Retry.RpcsAllSent` | internal/telegram/client/client.go:148-183 | an operation that succeeds has sent each of its RPCs |
| `Retry.WaitLongerIff` | internal/telegram/client/client.go:167-170 | that wait is longer than asked, by at most a second, if and only if it fits into a duration; a negative request has to be whole seconds |
| `Retry.LongestWaitWraps` | internal/telegram/client/client.go:167-170 | for the longest request it is negative |
| `Retry.NeverSentWhenDone` | internal/telegram/client/client.go:150-155 | nothing is sent in a world whose context is done |
| `Retry.ResendsWaitLonger` | internal/telegram/client/client.go:148-183 | so is every wait of every run |
| `Retry.UnsentIffNegative` | internal/telegram/client/client.go:148-183 | success is reported without a call if and only if the number of retries is negative |
| `Retry.RpcsBounded` | internal/telegram/client/client.go:148-183 | k RPCs through the middleware make at most k·(maxRetries + 1) invocations |
| `Retry.NestedBounded` | internal/telegram/retry/retry.go:79-116 | both layers together make at most MaxAttempts·k·(maxRetries + 1) |
| `Progress.EmitProgress` | internal/transfer/transfer.go:265-279 | what is reported, clamped and at most once when final |
| `Progress.ReadsAreTracked` | internal/transfer/transfer.go:202-217 | through any fragmentation done counts exactly the bytes handed on, reports never go back, and there is a final one if and only if the end was reached; it is last, single and complete |
| `Progress.ToldLast` | internal/transfer/transfer.go:265-279 | a final report completes the story: done is total unless more came |
| `Progress.ClipAllWellBehaved` | internal/transfer/transfer.go:202-217 | any schedule, cut to what is left of the payload, is a well-behaved reader |
| `Progress.ProgressReader.ResetForAttempt` | internal/transfer/transfer.go:190-200 | rewinds on every call but the first, and changes nothing when the rewind fails |
| `Progress.ProgressReader.Read` | internal/transfer/transfer.go:202-217 | hands on exactly what the wrapped reader gave, unless the context is done |
| `Progress.PutsAreTracked` | internal/transfer/transfer.go:242-254 | through any fragmentation the sink gains what was accepted, the counter counts all of it, done this attempt's share, and the reports are truthful |
| `Progress.CancelledWriteIsSilent` | internal/transfer/transfer.go:242-247 | under a done context a write reaches neither the sink nor the counters, and nothing is told |
| `Progress.FinishIsTruthful` | internal/transfer/transfer.go:256-259 | finishing adds one final report; doing it again adds none |
| `Progress.ProgressWriter.Write` | internal/transfer/transfer.go:242-254 | the stack of writers does what the specification's write does |
| `Progress.CountingWriter.Write` | internal/telegram/download/download.go:128-132 | counts what the sink accepted, on failures too |
| `Upload.UploadWithRetry` | internal/transfer/transfer.go:92-116 | returns the file of the specified loop, or its error and no file |
| `Upload.UploadRewinds` | internal/transfer/transfer.go:92-116 | for every schedule each call starts rewound with zeroed counters, a body that cannot be rewound is driven at most once, and a file is returned exactly when the last call succeeded, which it comes from |
| `Upload.CallsFollowSchedule` | internal/transfer/transfer.go:100-110 | each call reads as far as its attempt asks, to the end of the payload at most, and returns what the attempt decides, in the order of the attempts |
| `Upload.UploadAttempts` | internal/transfer/transfer.go:92-116 | every upload makes the attempts its schedule calls for, three at most or one, and ends with the last result or the context's error |
| `Upload.TransferWaits` | internal/transfer/transfer.go:40-49 | between attempts there is one second and then two, unless the server asks for another delay |
| `Upload.FailedRewindStops` | internal/transfer/transfer.go:100-110 | over a whole run the uploader is called once for each attempt that got past its rewind, and not otherwise |
| `Upload.RewindFailureEndsIff` | internal/transfer/transfer.go:183-195 | a failed rewind ends the upload if and only if it was the last attempt's, or the wait after it is cut short, or the context is done then |
| `Upload.SucceedsAfterFailedRewind` | internal/transfer/transfer.go:183-195 | a schedule on which an upload succeeds after a rewind that failed |
| `Upload.WholePayloadSent` | internal/transfer/transfer.go:53-68 | for a payload handed over at offset 0 and an uploader that only succeeds at its end, the kept file was sent the whole payload, however many attempts failed before |
| `Upload.OfferedAlikeIff` | internal/transfer/transfer.go:190-200 | all calls are offered the same bytes on every schedule if and only if the payload is handed over at offset 0 or cannot be rewound |
| `Download.DownloadTo` | internal/transfer/transfer.go:128-157 | the specified loop, and one final report after a success only |
| `Download.ReportedOnce` | internal/transfer/transfer.go:118-157 | over a whole download a success is reported as final once and last, with the size as its count if and only if the last attempt wrote no more than that, and a failure never |
| `Download.File` | internal/telegram/download/download.go:36-73 | every outcome, and what the sink then holds |
| `Download.LoopIsGood` | internal/transfer/transfer.go:142-151 | the sink gains everything any attempt wrote and the counter counts all of it |
| `Download.DownloadAttempts` | internal/transfer/transfer.go:142-151 | every download makes the attempts its schedule calls for, three at most, and ends with the last result or the context's error |
| `Download.FileAnswers` | internal/telegram/download/download.go:43-72 | bad arguments and missing documents are refused before anything is written; after that the answer is the download's error, the number of bytes all attempts wrote, or complete |
| `Download.DownloadSound` | internal/telegram/download/download.go:65-72 | complete is reported if and only if the last attempt succeeded and every earlier one wrote nothing, and then the sink gained the document |
| `Download.CountsCanMask` | internal/telegram/download/download.go:68-72 | for any document with two different bytes, a dirty failure and a short success pass the check with wrong contents |
| `Download.CanMaskIff` | internal/telegram/download/download.go:68-72 | attempts that stream prefixes can pass the check with wrong contents if and only if the document's bytes are not all the same |
| `SqliteStore.FileMapHolds` | internal/store/sqlite/sqlite.go:121-144 | (folder, message) is unique: the table is a map from keys to rows |
| `SqliteStore.FolderMapHolds` | internal/store/sqlite/sqlite.go:49-69 | (account, channel) is unique likewise |
| `SqliteStore.UpsertFileRefines` | internal/store/sqlite/sqlite.go:121-144 | an upsert updates one key; a row that was there keeps its id and creation time, a new one gets a new id, no other row changes |
| `SqliteStore.UpsertFolderRefines` | internal/store/sqlite/sqlite.go:49-69 | the same for folders, where only the name changes |
| `SqliteStore.DeleteRefines` | internal/store/sqlite/sqlite.go:198-211 | deleting by id removes one key and frames all others |
| `SqliteStore.DeleteMisses` | internal/store/sqlite/sqlite.go:198-211 | an id is found if and only if a row has it, and nothing changes when none has |
| `SqliteStore.PruneRefines` | internal/index/index.go:66-80 | scan and delete removes exactly the keyed row, or nothing when there is none |
| `SqliteStore.ListingIsFolder` | internal/store/sqlite/sqlite.go:168-194 | a listing has exactly the folder's rows, ascending by id |
| `SqliteStore.FolderListingIsAccount` | internal/store/sqlite/sqlite.go:91-116 | a folder listing has exactly the account's rows, ascending by id |
| `SqliteStore.FoldersAreForever` | internal/drive/drive.go:243-262 | whatever statements run in between, a folder keeps its id |
| `SqliteStore.IdsIdentifyChannels` | internal/store/sqlite/sqlite.go:49-69 | folder rows seen before and after any statements have one id if and only if they are one channel's |
| `SqliteStore.ResolutionAnswers` | internal/drive/drive.go:243-262 | the scan, insert, lookup and reload of a folder, with statements of others between them, always answer with the row the channel has at the end |
| `SqliteStore.ResolutionsAgree` | internal/drive/drive.go:243-262 | two resolutions, one after the other or overlapping in any way, answer with one id if and only if they are for one channel |
| `SqliteStore.IdsAreNeverReused` | internal/store/migrate/sqlite/0002_files.sql:3-10 | under any statements an id that was handed out stays with its row's key and creation time |
| `SqliteStore.LateRenameResurrects` | internal/drive/drive.go:267-287 | a rename that read its row before a delete brings the file back under a new id |
| `SqliteStore.UpsertAnswersItsKey` | internal/store/sqlite/sqlite.go:121-144 | with statements of others between its insert, its lookup and its reload, an upsert answers if and only if the key's row was there at the lookup and is the same at the reload, and never with the row of another key |
| `SqliteStore.CreateFolderAnswers` | internal/store/sqlite/sqlite.go:49-69 | creating a folder always answers, with its channel's row, whatever others run in between |
| `SqliteStore.Store.CreateFolder` | internal/store/sqlite/sqlite.go:49-69 | the insert, the lookup and the reload together are the upsert on the tables, and alone they never miss |
| `SqliteStore.Store.UpsertFile` | internal/store/sqlite/sqlite.go:121-144 | likewise for files |
| `SqliteStore.Store.GetFolder` | internal/store/sqlite/sqlite.go:72-88 | a row of the table with the id, and none only if there is none |
| `SqliteStore.Store.GetFile` | internal/store/sqlite/sqlite.go:147-165 | likewise |
| `SqliteStore.Store.ListFolders` | internal/store/sqlite/sqlite.go:91-116 | the loop returns the account's rows |
| `SqliteStore.Store.ListFiles` | internal/store/sqlite/sqlite.go:168-194 | the loop returns the folder's rows |
| `SqliteStore.Store.DeleteFile` | internal/store/sqlite/sqlite.go:198-211 | deletes by id, and says whether there was a row |
| `SqliteStore.Index.UpsertFolder` | internal/index/index.go:26-28 | delegates to the store |
| `SqliteStore.Index.UpsertFile` | internal/index/index.go:37-39 | delegates to the store |
| `SqliteStore.Index.DeleteFile` | internal/index/index.go:66-80 | the scanning loop prunes exactly the keyed row |
| `Fileops.FirstMessage` | internal/telegram/fileops/fileops.go:194-214 | the id of the first concrete message of the reply, when there is one |
| `Fileops.NewMessageID` | internal/telegram/fileops/fileops.go:194-214 | the loop finds that id |
| `Fileops.Server.MoveMessage` | internal/telegram/fileops/fileops.go:159-184 | the forward and the delete, step by step, pass through the specified states and return the specified id and error |
| `Fileops.MoveNeverLoses` | internal/telegram/fileops/fileops.go:107-184 | at every step of every outcome, failures of unknown effect included, the document is in src or in dst; src goes only after a confirmed forward; nil means dst only; nothing else changes |
| `Fileops.MoveAnswers` | internal/telegram/fileops/fileops.go:115-184 | the first call that goes wrong decides the error and the first concrete message of the reply the id, which is returned also when the delete fails |
| `Fileops.HalfFinished` | internal/telegram/fileops/fileops.go:165-182 | a move that stops half-way leaves the document in both places or where it was, unless a delete failed and took effect all the same |
| `Fileops.MovesConserve` | internal/telegram/fileops/fileops.go:107-184 | after any number of moves with failures of any effect, exactly the documents that were somewhere before are somewhere |
| `Fileops.ReturnedIdIsCopy` | internal/telegram/fileops/fileops.go:186-214 | the id returned is the copy's if and only if the copy is the first concrete message of the reply |
| `Drive.AlwaysAgrees` | internal/drive/drive.go:143-235 | on any account, with an empty index to begin with, after any run the index serves exactly the tracked files and the server has each of those of live channels |
| `Drive.AgreementLasts` | internal/drive/drive.go:143-235 | so from any state in which index, server and tracked files agree |
| `Drive.StepAgrees` | internal/drive/drive.go:67-235 | every operation with every outcome, and what other clients add, keeps that agreement |
| `Drive.StepAgreesIff` | internal/drive/drive.go:221-235 | an operation keeps it if and only if it does not misread the id of a tracked file it has moved |
| `Drive.ListingIsTruth` | internal/drive/drive.go:119-136 | on any account, after any run a listing is exactly the folder's tracked files, each once and in order, and each on the server with the listed name, size and type |
| `Drive.DeleteFileEffect` | internal/drive/drive.go:200-215 | done means the message is gone and nothing else on the server has changed; failed means nothing has changed at all |
| `Drive.DeletedForGood` | internal/drive/drive.go:200-215 | over whole runs a message the drive has deleted is never on the server again unless it is sent anew |
| `Drive.RenameFileEffect` | internal/drive/drive.go:182-193 | done means the message carries the new caption and nothing else on the server has changed; failed means nothing has changed at all |
| `Drive.UploadFileEffect` | internal/drive/drive.go:143-166 | a document sent is the one new message on the server, also when its reply cannot be read, and then the index does not change |
| `Drive.StoredRow` | internal/drive/drive.go:154-166 | a stored upload answers with its cached row, the server's size and type preferred |
| `Drive.MoveFileAnswer` | internal/drive/drive.go:221-235 | the answer carries the id read off the reply, also when the original could not be deleted, and a failed move leaves the index alone |
| `Drive.MoveFileEffect` | internal/telegram/fileops/fileops.go:159-184 | the copy is the one new message, and the original goes only with a finished move |
| `Drive.CreateFolderEffect` | internal/drive/drive.go:67-87 | done means one new channel without messages and a folder row for it, under its displayed title when it is new |
| `Drive.DeleteFolderEffect` | internal/drive/drive.go:108-116 | done means the channel and its messages are gone and nothing else has changed, the index included |
| `Drive.RetiredForGood` | internal/drive/drive.go:108-116 | over whole runs a deleted channel never comes back |
| `Drive.EnsureNames` | internal/drive/drive.go:243-262 | a channel that was not known gets a row under its displayed title, and no other row changes |
| `Drive.ReindexKeepsRow` | internal/drive/drive.go:267-287 | a rename changes the name in the cached row and nothing else of it |
| `Drive.MovedRow` | internal/drive/drive.go:292-330 | a moved row keeps name, size and type and loses its chunk manifest |
| `Drive.EnsureKeeps` | internal/drive/drive.go:243-262 | resolving a folder hides no file and shows none |
| `Drive.UploadServes` | internal/drive/drive.go:154-164 | an indexed upload is one more file served |
| `Drive.ReindexServes` | internal/drive/drive.go:267-287 | a renamed file is served under its new name, and a file not cached changes nothing |
| `Drive.ReindexMovedServes` | internal/drive/drive.go:292-330 | a moved file is served at its destination and no longer at its source |
| `Drive.MovedOnServer` | internal/telegram/fileops/fileops.go:159-184 | a finished move relocates the tracked document on the server |
| `Drive.FailedMoveLeavesCopy` | internal/drive/drive.go:217-235 | on any account, after any run a failed move changes no index row and nothing tracked, and leaves at worst one untracked copy |
| `Drive.DriveService.EnsureFolder` | internal/drive/drive.go:243-262 | the scan and the upsert resolve the folder as specified |
| `Drive.DriveService.ReindexRenamedFile` | internal/drive/drive.go:267-287 | the loop updates the cached row's name as specified |
| `Drive.DriveService.ReindexMovedFile` | internal/drive/drive.go:292-330 | the scan, the upsert and the prune relocate the cached row as specified |
| `Drive.DriveService.PerformCreateFolder` | internal/drive/drive.go:67-87 | server and index end as specified, also when only the channel was made |
| `Drive.DriveService.PerformDeleteFolder` | internal/drive/drive.go:108-116 | the channel goes and the index stays |
| `Drive.DriveService.PerformListFiles` | internal/drive/drive.go:126-136 | resolves the folder and lists its rows |
| `Drive.DriveService.PerformUploadFile` | internal/drive/drive.go:143-166 | server and index end as specified, the server's size and type preferred to the caller's |
| `Drive.DriveService.PerformRenameFile` | internal/drive/drive.go:182-193 | the caption and then the index |
| `Drive.DriveService.PerformDeleteFile` | internal/drive/drive.go:200-215 | server, index and answer are those of the specification, whose effect `Drive.DeleteFileEffect` states |
| `Drive.DriveService.PerformMoveFile` | internal/drive/drive.go:221-235 | server, index and answer are those of the specification, whose effect `Drive.MoveFileAnswer` and `Drive.MoveFileEffect` state |

## Left out

- HTTP routes, JSON envelopes, CORS, the API key, events, configuration, version and main: plumbing.
- Encryption and the session file: thin layers over libraries that are not part of this model.
- The Telegram client library: RPC encoding, uploader, downloader, dialog collection. Its calls are outcomes chosen freely within their contract.
- Login: goroutines, channels and mutexes are events on values, not Dafny objects; `LoginFlow.Flow` covers the guarded record only.
- Login: a backend asks for a code and for a password at most once each and shows no token once its context is cancelled, as its contract has it. The `sync.Once` guards, which only matter otherwise, are not modelled.
- Login: `Status`, `Phone`, `AcceptTermsOfService` and `SignUp` have one step each.
- Login: `gen` is a natural number; 2^64 generations are not reached.
- LoginLiveness.AnsweredUnlessStuck: gives a continuation that answers the call, not a promise that every schedule does; the code has none to give.
- Titles: characters are ASCII. With others, lower-casing can change the length of a title and the loop's two slices come apart.
- Times: the clock and Jitter are not modelled; a wait is a recorded duration and a choice of which select arm wins.
- Byte counters are unbounded; 2^63 bytes are not transferred.
- Upload.UploadWithRetry: drives the reader as a value inside the retry loop; `Progress.ProgressReader` ties the object's methods to the same functions.
- Download.DownloadTo: likewise for the stack of writers.
- Writers that claim to have taken more bytes than they were given are not io.Writers; the model takes nothing from them.
- Download.File: the search for the message's document is one outcome, its size or none.
- Drive.AlwaysAgrees: operations follow one another, a failed RPC has had no effect, the store's own statements succeed, and a forward's reply shows the copy as its first concrete message. `SqliteStore.LateRenameResurrects` shows what interleaving does, `Fileops.MoveNeverLoses` covers failures with effect, and `Drive.StepAgreesIff` what a misread reply does.
- Drive.Elsewhere: other clients make and delete channels and send messages; that they edit or delete tracked messages, which the cache cannot know, is not modelled.
- Drive: folder names. RenameFolder and DeleteFolder leave the index as it is on purpose, so agreement is about files, and about live channels.
- Drive: ListFolders reconciles names only; access hashes only address channels.
- Drive: a channel that was created but whose reply cannot be read is counted as not created; nothing can refer to it.
- Drive: the chunk manifest id of a file is a plain number and a move does not carry it; manifests and their JSON are not modelled, since chunking is not implemented.
- The Postgres store and the migrations: the same tables and keys.
