# InterviewCraft: verified models

Dafny models of the parts of InterviewCraft whose behaviour is hardest to see by reading one function, with proofs of what
holds over every input and every run. `dafny verify dfyconfig.toml` checks everything.

- `Playback.dfy`: the audio queue of the voice session and the barge-in detector, as the callbacks the browser delivers in
  any order. A chunk is between being taken from the queue and being started while it is decoded, so those are two steps.
  The theorems say exactly when playback stays exclusive, when a barge-in silences everything before it, when the
  `speaking` state gets stuck, and which tick fires; and that every chunk is done with in the end, exactly once.
- `Reconnect.dfy`: connecting, backoff and disconnecting, with the timers, microphone prompts and sockets that nothing
  cancels. Bounded backoff on every interleaving, how often the hook retries, and exactly when a disconnect is final and a
  connection single.
- `Voice.dfy`: the two side by side, with the VAD gate between them: what is still heard after the session has ended.
- `Transcript.dfy`: the chat transcript as a fold of recognition and reply events.
- `RateLimit.dfy`, `Lockout.dfy`: the two throttles on authentication over whole request histories.
- `Scrub.dfy`: the redaction of provider keys in log events.
- `Pearson.dfy`, `Percentile.dfy`, `Grouping.dfy`: the statistics of the benchmarks.
- `Recall.dfy`: the memory recall benchmark, from the scoring of an answer to the summary tables.
- `Drawing.dfy`, `Canvas.dfy`, `Board.dfy`: editing the whiteboard and describing it.
- `Reading.dfy`: what that description says, read off the drawing.
- `Progress.dfy`: the practice streak and the two readiness formulas.
- `Numbers.dfy`, `Options.dfy`, `Lists.dfy`, `Strings.dfy`: rounding, small arithmetic facts, optional values, filters,
  substring search and trimming.

Objects that the sources update in place are classes whose methods are proved equal to a step function; the theorems are
about that function and its iteration over arbitrary event sequences.

## Where the code and its descriptions differ

The models follow the code.

- The barge-in comment promises to stop all playback immediately (frontend/lib/useVoiceSession.ts:136). A chunk that is
  being decoded at that moment still plays, and may sound together with the next answer (`OverlapIsReachable`).
  `ExclusionIff` and `StopSilencesIff` give the exact conditions.
- Ending a session (frontend/lib/useVoiceSession.ts:502-513) cancels neither a scheduled reconnect nor a pending microphone
  prompt, and does not close a socket that is still connecting. `NotFinalDuringBackoff`, `NotFinalDuringPrompt` and
  `NotFinalWhileConnecting` show a run for each; `DisconnectIsFinalIff` gives the exact condition. Nor does it stop playback,
  and it stops the ticks that could: what was received before still plays (`PlaysOnAfterTheEnd`, `HeardAfterTheEnd`).
- After a chunk that cannot be decoded the session is meant to go on (frontend/lib/useVoiceSession.ts:129-133), but if that was
  the last chunk of an answer it goes on showing `speaking` (`StuckIsReachable`, `StuckStays`). `StuckIff` says exactly when.
- Three reconnect attempts are promised (frontend/lib/useVoiceSession.ts:5, docs/failure-modes.md:26). Every socket that opens
  sets the count back, also when the browser cannot record and the hook closes it at once, so the retries can go on for ever
  (`RetriesForEver`). Three holds as long as no socket opens (`ThreeRetries`).
- The rate limiter is described as 5 requests in 60 seconds (backend/app/middleware/rate_limit.py:3). A fixed window admits
  up to 9 in some 60-second intervals and never more (`BurstBoundIsTight`, `NineAMinute`). `IntervalClosedForm` says how many
  each interval admits, and `WithinLimitIff` exactly when that is within the limit. A client that keeps to the described
  limit can still be refused, by a millisecond or by as much as EXPIRE comes later than INCR (`ShorterIsRefused`);
  `ConformingIsAdmitted` says how much it must hold back.
- The share card says it uses the dashboard's readiness formula (backend/app/api/v1/share.py:72); the two agree exactly under
  the condition in `ReadinessAgreesIff`.
- docs/security.md:87 lists `Bearer ` among the scrubbed patterns; the code has no such alternative, so a token of
  letters and digits is logged as it is (`BearerIsKept`, `PlainIsUnchanged`). Exactly the strings without a secret are left
  alone (`UnchangedIff`). The code does have two `sk-` alternatives the document does not list.

## Model

| member | source | states |
|---|---|---|
| Playback.Player.constructor | frontend/lib/useVoiceSession.ts:82-96 | the refs start empty, idle and not playing |
| Playback.Player.CreateContext | frontend/lib/useVoiceSession.ts:372-374 | the audio context becomes available |
| Playback.Player.PlayNextChunk | frontend/lib/useVoiceSession.ts:103-112 | takes the oldest chunk only if nothing plays and there is a context, and leaves it awaiting its decoding |
| Playback.Player.EnqueueAudio | frontend/lib/useVoiceSession.ts:146-153 | appends the chunk and tries to play |
| Playback.Player.StartDecoded | frontend/lib/useVoiceSession.ts:113-128 | the decoded chunk becomes the active, sounding source and the state is speaking |
| Playback.Player.OnPlayFailed | frontend/lib/useVoiceSession.ts:129-133 | a failure before or after the state was set gives up the chunk and goes on with the queue |
| Playback.Player.OnEnded | frontend/lib/useVoiceSession.ts:119-127 | any source's end, stale or not, frees the player, returns to listening on an empty queue and goes on |
| Playback.Player.StopAudioPlayback | frontend/lib/useVoiceSession.ts:137-144 | drops the queue, stops the active source and frees the player; pending decodings stay |
| Playback.Player.VadTick | frontend/lib/useVoiceSession.ts:186-207 | counts loud ticks while speaking; the third stops playback and reports an interrupt message exactly if the socket is open |
| Playback.Player.OnSessionState | frontend/lib/useVoiceSession.ts:227-241 | backend states other than speaking are taken over; at the time limit the state is left alone and the flag is reported |
| Playback.CoherentStepIff | frontend/lib/useVoiceSession.ts:103-153 | exactly two kinds of step, a barge-in during decoding and a late onended while another chunk is in flight, make the playing flag wrong |
| Playback.PlaybackSafety | frontend/lib/useVoiceSession.ts:103-153 | on every run without those steps: received = done with, then in flight, then queued, in order of arrival; at most one source sounds; chunks wait only behind one in flight |
| Playback.HazardOverlaps | frontend/lib/useVoiceSession.ts:116-144 | after each of those steps some continuation has two sources sounding at once |
| Playback.ExclusionIff | frontend/lib/useVoiceSession.ts:116-144 | playback stays exclusive on every further run free of further such steps if and only if the step was not one of the two |
| Playback.OverlapIsReachable | frontend/lib/useVoiceSession.ts:103-144 | a concrete run from the start on which an interrupted chunk and the next answer sound together |
| Playback.NoBargeInIsSafe | frontend/lib/useVoiceSession.ts:103-153 | without barge-in neither hazard occurs and every chunk done with was played or failed, without failures played |
| Playback.PromptStopsAreSafe | frontend/lib/useVoiceSession.ts:137-153 | neither occurs if every stop hits a started source whose onended precedes the next audio_chunk |
| Playback.StopSilencesIff | frontend/lib/useVoiceSession.ts:136-144 | after any run from the start, a barge-in silences everything received before it, for good, if and only if nothing was being decoded and the active source was the only one sounding |
| Playback.QueuedChunksNeverSound | frontend/lib/useVoiceSession.ts:137-144 | after any run, a chunk that waits in the queue at a barge-in is dropped and never sounds, whatever follows |
| Playback.StateIsLatestPut | frontend/lib/useVoiceSession.ts:117-241 | after every run the state is the one of the last event that sets it: speaking for a start or a late failure, listening for an end with nothing queued, any other by the backend; idle before any |
| Playback.PlayedAnswerListens | frontend/lib/useVoiceSession.ts:119-127 | after any run, an end with nothing queued leaves the hook listening |
| Playback.PlayerIsLatest | frontend/lib/useVoiceSession.ts:103-153 | after every run the active source and the playing flag are as the last event that concerns them left them |
| Playback.StuckIff | frontend/lib/useVoiceSession.ts:117-132 | in every reachable state: the session gets stuck in speaking exactly at a failure of the only chunk the browser owed anything for, with nothing queued, when speaking was or had just been set |
| Playback.StuckStays | frontend/lib/useVoiceSession.ts:117-144 | a stuck state stays in speaking on every further run without a new chunk or backend state: no browser callback or tick ends it |
| Playback.StuckIsReachable | frontend/lib/useVoiceSession.ts:113-133 | an answer whose last chunk cannot be decoded gets there |
| Playback.SpeakingMeansInFlight | frontend/lib/useVoiceSession.ts:117-132 | on every run without failures speaking means that the browser owes a callback; without barge-in, that a chunk is in flight |
| Playback.SoundingMeansSpeaking | frontend/lib/useVoiceSession.ts:116-127 | while a source sounds the state is speaking, unless the backend set another |
| Playback.CallbackLowers | frontend/lib/useVoiceSession.ts:103-133 | every callback of a chunk strictly lowers twice the chunks queued and being decoded plus the sources yet to end |
| Playback.CallbacksRunOut | frontend/lib/useVoiceSession.ts:103-133 | after any run the browser delivers at most that many callbacks until it owes none |
| Playback.NothingIsLost | frontend/lib/useVoiceSession.ts:103-153 | after any run, hazards included, once the browser owes nothing no chunk waits and each received is done with exactly once; without hazards in order of arrival |
| Playback.FatesAreCounted | frontend/lib/useVoiceSession.ts:117-144 | on every run as many chunks were played to the end, failed, were interrupted or dropped as there were ends of live sources, failures, and barge-ins on an active source and on queued chunks |
| Playback.BargeInCount | frontend/lib/useVoiceSession.ts:192-207 | on every run the counter is the number of ticks in a row louder than 80 while speaking, mod 3 |
| Playback.BargeInClosedForm | frontend/lib/useVoiceSession.ts:192-207 | on every run a tick stops playback exactly when those ticks number a positive multiple of 3 |
| Reconnect.Session.constructor | frontend/lib/useVoiceSession.ts:82-91 | no connection, no retries, not disconnecting |
| Reconnect.Session.ConnectAgain | frontend/lib/useVoiceSession.ts:359-391 | nothing if the current socket is open or connecting, else a new attempt shown as connecting or reconnecting |
| Reconnect.Session.UserConnect | frontend/lib/useVoiceSession.ts:494-498 | resets the count and the intentional flag, then connects |
| Reconnect.Session.UserDisconnect | frontend/lib/useVoiceSession.ts:502-513 | sets the intentional flag and closes the current socket only if it is open |
| Reconnect.Session.OnTimer | frontend/lib/useVoiceSession.ts:486 | a reconnect timer starts a new attempt |
| Reconnect.Session.OnMicrophone | frontend/lib/useVoiceSession.ts:382-411 | a granted prompt makes a new current socket, a denied one shows an error |
| Reconnect.Session.OnOpen | frontend/lib/useVoiceSession.ts:413-465 | resets the count; if recording cannot start the socket is closed again |
| Reconnect.Session.OnResumeRejected | frontend/lib/useVoiceSession.ts:375-378 | a rejected resume of the audio context ends the attempt with nothing shown |
| Reconnect.Session.OnSocketClosed | frontend/lib/useVoiceSession.ts:471-491 | uses up the intentional flag, or schedules the next delay, or gives up |
| Reconnect.Session.OnErrorMessage | frontend/lib/useVoiceSession.ts:338-353 | an error whose message contains one of the fatal words marks the coming close as intentional; any other, or none, changes nothing |
| Reconnect.FatalIff | frontend/lib/useVoiceSession.ts:341-350 | a message is fatal exactly when one of seven words, spelled out, occurs in it |
| Reconnect.RetriesAfterErrorIff | frontend/lib/useVoiceSession.ts:338-490 | after any run, an error on an open socket that is then lost is retried exactly if it names no lasting fault and fewer than three connections were lost; after a lasting fault nothing is scheduled and the session is idle |
| Reconnect.IntentionalIsLatest | frontend/lib/useVoiceSession.ts:338-513 | after every run the next close is expected exactly if the last event that says so says yes: a disconnect or a lasting fault, against a connect or a close |
| Reconnect.DisplayIsLatest | frontend/lib/useVoiceSession.ts:359-513 | after every run the hook shows what the last event that shows something showed |
| Reconnect.CountsAreBalanced | frontend/lib/useVoiceSession.ts:359-491 | on every run the timers and attempts under way are those started less those ended, by event |
| Reconnect.SocketIsLatest | frontend/lib/useVoiceSession.ts:408-513 | on every run each socket is connecting, open, closing or gone as the last event that moved it left it |
| Reconnect.CurrentIsLastMade | frontend/lib/useVoiceSession.ts:411 | on every run the current socket is the one made last |
| Reconnect.BoundedBackoff | frontend/lib/useVoiceSession.ts:60-60 | on every run the count is the number of losses since the last reset capped at 3, the delays are that prefix of the table and total at most 7000 ms |
| Reconnect.RetriesIff | frontend/lib/useVoiceSession.ts:483-490 | a lost connection is retried exactly when fewer than three were lost since the last reset, else the session ends in error |
| Reconnect.ThreeRetries | frontend/lib/useVoiceSession.ts:483-490 | after any run, at most three retries, less those already used, until a socket opens or the user connects |
| Reconnect.RetriesForEver | frontend/lib/useVoiceSession.ts:413-490 | for every n, n retries without the user, each after a second, if every socket opens and is lost again, whether or not it could record |
| Reconnect.DisconnectIsFinalIff | frontend/lib/useVoiceSession.ts:471-513 | in every reachable state: after a disconnect no socket is ever open again without the user if and only if nothing but the current, open or closing socket was under way |
| Reconnect.NotFinalDuringPrompt | frontend/lib/useVoiceSession.ts:382-411 | a run from the start: disconnecting during the microphone prompt is not final |
| Reconnect.NotFinalWhileConnecting | frontend/lib/useVoiceSession.ts:502-511 | nor while the socket is connecting |
| Reconnect.NotFinalDuringBackoff | frontend/lib/useVoiceSession.ts:483-513 | nor during a backoff |
| Reconnect.BackOnline | frontend/lib/useVoiceSession.ts:471-513 | otherwise some run of the environment brings a socket up again |
| Reconnect.SingleOnRuns | frontend/lib/useVoiceSession.ts:359-367 | on every run from the start without such a connect there is at most one timer, prompt or socket |
| Reconnect.DoublingOpensTwo | frontend/lib/useVoiceSession.ts:359-411 | after such a connect some run of the environment alone has two sockets open at once |
| Reconnect.SingleConnectionIff | frontend/lib/useVoiceSession.ts:359-367 | after a run that kept to one connection, there is never more than one open socket on further such runs if and only if the next event is not a connect during a backoff, a prompt or a close |
| Voice.VADGate.constructor | frontend/lib/useVoiceSession.ts:94 | no interval |
| Voice.VADGate.StartVADGate | frontend/lib/useVoiceSession.ts:180-212 | a new interval takes the ref, whatever was in it |
| Voice.VADGate.StopVADGate | frontend/lib/useVoiceSession.ts:214-219 | stops the interval in the ref |
| Voice.SoundIsARun | frontend/lib/useVoiceSession.ts:223-513 | the playback part of every run of the session is a run of the queue, so all theorems on the queue hold in the session |
| Voice.LinkIsARun | frontend/lib/useVoiceSession.ts:358-513 | and the connection part a run of the connection, so all theorems on that hold too |
| Voice.ChunksFindContext | frontend/lib/useVoiceSession.ts:372-374 | on every run, while a socket is open there is an audio context |
| Voice.OneGateOnRuns | frontend/lib/useVoiceSession.ts:180-219 | on every run with a single connection one interval runs while the socket is open and none otherwise, the open socket is the current one, and stopping leaves none |
| Voice.PlaysOnAfterTheEnd | frontend/lib/useVoiceSession.ts:502-513 | after any run and a final disconnect that stops the ticks, no chunk is interrupted or dropped, and every one still queued, being decoded or sounding is played to its end or fails |
| Voice.HeardAfterTheEnd | frontend/lib/useVoiceSession.ts:502-513 | a run on which a chunk starts to sound after the session has ended |
| Transcript.Reply | frontend/lib/useVoiceSession.ts:292-313 | chunks and the final marker add one final entry with their concatenation, or complete the growing one |
| Transcript.ChunkBoundariesDoNotMatter | frontend/lib/useVoiceSession.ts:292-313 | two splittings of the same text give the same transcript, from any transcript |
| Transcript.ReplyAddsOneIff | frontend/lib/useVoiceSession.ts:292-313 | the reply is a bubble of its own exactly when no assistant entry was still growing |
| Transcript.BurstCollapses | frontend/lib/useVoiceSession.ts:243-268 | a burst of recognition events has the effect of its last event |
| Transcript.RollbackUndoesBurstIff | frontend/lib/useVoiceSession.ts:243-283 | a rolled-back burst restores the transcript exactly when it did not end with a user entry |
| Transcript.NothingToDoIff | frontend/lib/useVoiceSession.ts:277-313 | a rollback takes away exactly a user entry at the end, and a final marker does something exactly if a reply was growing |
| Transcript.LateRollback | frontend/lib/useVoiceSession.ts:277-313 | after a reply neither a rollback nor a second final marker changes anything |
| Transcript.TypedTextKeptIff | frontend/lib/useVoiceSession.ts:517-521 | typed text is appended as final, and exactly which next events overwrite or remove it |
| Transcript.ConversationShown | frontend/lib/useVoiceSession.ts:243-317 | a whole conversation with withdrawn attempts shows two bubbles a turn: the last recognised text and the whole answer |
| Transcript.ShapeIsKept | frontend/lib/useVoiceSession.ts:243-317 | on every session neighbouring user entries come only from typed text, and of neighbouring assistant entries the earlier is final |
| Transcript.OnlyTheEndChanges | frontend/lib/useVoiceSession.ts:243-317 | every event touches only the last entry; only a rollback shortens the transcript |
| RateLimit.Limiter.constructor | backend/app/config.py:54-55 | starts with an empty store and the configured limit and window |
| RateLimit.Limiter.Incr | backend/app/middleware/rate_limit.py:27 | INCR on a store in which an expired key counts as missing |
| RateLimit.Limiter.Expire | backend/app/middleware/rate_limit.py:28-30 | EXPIRE gives the key a lifetime, through the last millisecond of which Redis keeps it |
| RateLimit.Limiter.AuthRateLimit | backend/app/middleware/rate_limit.py:17-42 | counts the request, opens a window on the first, refuses above the limit |
| RateLimit.IntervalClosedForm | backend/app/middleware/rate_limit.py:26-42 | over any trace an interval of one window length admits exactly what the window alive at its start has left, as far as requests meet it, plus at most one limit of those that come after it closes |
| RateLimit.WithinLimitIff | backend/app/middleware/rate_limit.py:26-42 | the described limit holds in an interval exactly when those two parts fit in it, and always when no window is alive at its start |
| RateLimit.BurstBound | backend/app/middleware/rate_limit.py:26-42 | over any trace any interval of one window length admits at most 2 * limit - 1 requests of an address, for windows in any unit of time |
| RateLimit.NineAMinute | backend/app/config.py:54-55 | with the default settings at most 9 in any 60 seconds, timed in milliseconds as Redis expires keys |
| RateLimit.NineIsReached | backend/app/config.py:54-55 | and a trace that reaches the nine |
| RateLimit.BurstBoundIsTight | backend/app/middleware/rate_limit.py:26-42 | the bound is reached for every limit and every window longer than 1 |
| RateLimit.RefusedIff | backend/app/middleware/rate_limit.py:26-42 | a request is refused exactly when its live window has already admitted its first `limit` requests |
| RateLimit.ConformingIsAdmitted | backend/app/middleware/rate_limit.py:26-42 | if EXPIRE comes at most `slack` after INCR, a client that keeps the limit in every interval one millisecond longer than a window length and `slack` has every request admitted |
| RateLimit.ShorterIsRefused | backend/app/middleware/rate_limit.py:26-42 | no shorter interval will do: for every delay of EXPIRE, none included, a client that keeps the limit in every interval one millisecond shorter is refused |
| RateLimit.Isolation | backend/app/middleware/rate_limit.py:23-24 | other addresses change neither the counter nor the decisions of an address |
| Lockout.User.constructor | backend/app/models/user.py:39-40 | no failures, not locked |
| Lockout.User.Login | backend/app/api/v1/auth.py:106-131 | turns away, refuses or accepts, and updates the two lockout fields |
| Lockout.User.Reset | backend/app/api/v1/auth.py:377-380 | a password reset clears both fields |
| Lockout.FieldsFromHistory | backend/app/api/v1/auth.py:115-131 | in every reachable state the counter is the number of guesses since the last success or reset, and the lock is set iff that is 5 or more, to 15 minutes after the last |
| Lockout.LockedIff | backend/app/models/user.py:76-80 | a login is turned away unread exactly when 5 or more guesses were made, the latest less than 15 minutes ago |
| Lockout.GuessesAreSpaced | backend/app/api/v1/auth.py:106-125 | from the fifth guess on, each waits out the lock the one before it set |
| Lockout.GuessingThroughput | backend/app/api/v1/auth.py:106-125 | n guesses of one run of failures take at least 15 * (n - 5) minutes after the fifth, and the same between any two of them |
| Lockout.OwnerGetsIn | backend/app/api/v1/auth.py:127-131 | fifteen minutes after the last event of the account the right password is accepted and clears it |
| Lockout.AttackIsEvaluated | backend/app/api/v1/auth.py:106-125 | five guesses at once and then one as each lock ends: for every number of them, every guess is evaluated |
| Lockout.ThroughputIsReached | backend/app/api/v1/auth.py:106-125 | these guesses reach the bound of GuessingThroughput between any two of them |
| Lockout.OwnerIsShutOut | backend/app/api/v1/auth.py:106-131 | during them there is no moment, from the fifth guess to the end of the last lock, at which the right password is read |
| Scrub.AlternativeIsLongest | backend/app/logging.py:10 | a greedy alternative matches the longest prefix it describes |
| Scrub.AlternativesExclude | backend/app/logging.py:10 | no text starts with secrets of two alternatives, so their order is immaterial |
| Scrub.MatchIsLongest | backend/app/logging.py:9-12 | the pattern matches the longest prefix that is a secret, and fails only if none is |
| Scrub.ScanIsTheScan | backend/app/logging.py:23 | the substitution's division of the input into kept characters and matches is the only leftmost-longest one, in order |
| Scrub.OutputIsClean | backend/app/logging.py:15-24 | for every string no secret occurs anywhere in the output |
| Scrub.UnchangedIff | backend/app/logging.py:15-24 | a string is left alone exactly when no secret occurs in it |
| Scrub.ProviderKeyIsRedacted | backend/app/logging.py:9-24 | for each of the four provider prefixes in any case: the key is redacted to its last letter, digit, hyphen and underscore, and the scan goes on behind it |
| Scrub.LongKeyIsRedacted | backend/app/logging.py:9-24 | the same for sk- and twenty or more letters and digits |
| Scrub.ShortKeyIsKept | backend/app/logging.py:9-24 | with fewer than twenty it is left as it is |
| Scrub.FoldedLettersMatch | backend/app/logging.py:9-12 | ignoring case, four letters beyond ASCII count as letters of a key |
| Scrub.PlainIsUnchanged | backend/app/logging.py:9-24 | a string without hyphen or underscore is left alone |
| Scrub.BearerIsKept | backend/app/logging.py:9-24 | a bearer token of letters and digits is logged as it is |
| Scrub.Idempotent | backend/app/logging.py:15-24 | a second pass changes nothing |
| Scrub.EventDict.ScrubSecrets | backend/app/logging.py:15-24 | overwrites exactly the string values by their scrubbed form; keys, their order and other values stay |
| Pearson.CauchySchwarz | benchmarks/scoring-quality/run.py:101-102 | the squared sum of products is at most the product of the sums of squares |
| Pearson.PearsonBounded | benchmarks/scoring-quality/run.py:94-103 | the coefficient is between -1 and 1, for lists of any two lengths |
| Pearson.ReportedBounded | benchmarks/scoring-quality/run.py:103 | so is the rounded one |
| Pearson.ReportedIsNear | benchmarks/scoring-quality/run.py:103 | what is reported is the value to four digits |
| Pearson.VariationIsLeast | benchmarks/scoring-quality/run.py:101-102 | the sum of squares is the squared error of the best constant, the mean |
| Pearson.ExplainedVariance | benchmarks/scoring-quality/run.py:94-103 | the squared coefficient is the share of that a line explains: no line leaves less than the rest |
| Pearson.BestLine | benchmarks/scoring-quality/run.py:94-103 | some line leaves exactly the rest, and it rises (falls) exactly if the coefficient is positive (negative) |
| Pearson.PearsonSymmetric | benchmarks/scoring-quality/run.py:94-103 | swapping the lists changes nothing |
| Pearson.PearsonAffine | benchmarks/scoring-quality/run.py:94-103 | a positive affine map of a list changes nothing, a negative one flips the sign |
| Pearson.PerfectIff | benchmarks/scoring-quality/run.py:94-103 | the value is 1 (-1) exactly when one list is a rising (falling) affine image of the other |
| Pearson.ZeroDenominatorIff | benchmarks/scoring-quality/run.py:103 | the guard catches exactly the constant lists, and gives 0 for them |
| Percentile.SelectedIff | benchmarks/voice-latency/mock_pipeline.py:52-57 | the selected sample is the one value with at most idx samples below and more than idx at or below it |
| Percentile.IsPercentile | benchmarks/voice-latency/mock_pipeline.py:52-57 | at most p percent of the samples are below it, more than p percent or all at or below it |
| Percentile.PermutationInvariant | benchmarks/voice-latency/mock_pipeline.py:52-57 | the order of the samples makes no difference |
| Percentile.MonotoneInP | benchmarks/voice-latency/mock_pipeline.py:52-57 | a higher percentile is no smaller |
| Percentile.PercentileMonotone | benchmarks/voice-latency/mock_pipeline.py:52-57 | pointwise smaller samples have the smaller percentile, after rounding |
| Percentile.ReportedIsNearest | benchmarks/voice-latency/mock_pipeline.py:57 | the reported value is the selected sample to the nearest whole number, of two the even one |
| Percentile.NoneIff | benchmarks/voice-latency/mock_pipeline.py:52-57 | it fails exactly without samples |
| Percentile.SimulateTurns | benchmarks/voice-latency/mock_pipeline.py:26-49 | the two sums of every turn differ by 40% of its first-token latency |
| Percentile.OverlapSaves | benchmarks/voice-latency/mock_pipeline.py:60-83 | at every percentile the reported naive latency exceeds the optimized one by 48 to 280 ms, after rounding |
| Grouping.GroupsPartition | benchmarks/scoring-quality/run.py:232-251 | whatever is added up, distinct groups that cover a list add up to the whole |
| Grouping.GroupIs | benchmarks/scoring-quality/run.py:232-242 | a group holds exactly the elements with its key, in order |
| Grouping.SuccessesAre | benchmarks/scoring-quality/run.py:180-194 | exactly the scored entries are kept, in order |
| Grouping.Accumulate | benchmarks/scoring-quality/run.py:152-242 | the parallel lists are those of the scored entries, and the dictionary groups exactly these by type in order of appearance |
| Grouping.ByTypeConserves | benchmarks/scoring-quality/run.py:244-251 | counts, absolute errors and hits of the types add up to the overall ones |
| Grouping.RuleMetrics | benchmarks/scoring-quality/run.py:126-139 | tp counts the rules both triggered and expected, tp + fp and tp + fn the total set sizes; the reported precision (recall) is 1 exactly when at most one in two thousand triggered (expected) rules was not expected (triggered), with fewer rules exactly when none was, and always within half a thousandth |
| Grouping.ReportedShare | benchmarks/scoring-quality/run.py:137-138 | the rounded ratio lies between 0 and 1, within half a thousandth of the exact one, and is 1 exactly when at most one in two thousand was missed |
| Recall.Score | benchmarks/memory-recall/run.py:407-430 | every mark is between -1 and 2 |
| Recall.ScoreAnswer | benchmarks/memory-recall/run.py:407-430 | the loops over tokens and keywords give that mark |
| Recall.MarksMean | benchmarks/memory-recall/run.py:395-430 | which answers get which mark, in terms of the texts that occur in them: the seventeen admissions, the keywords, and numbers that, without punctuation around them, are not in the memory block |
| Recall.KeywordSetDecides | benchmarks/memory-recall/run.py:421-430 | only the set of required keywords counts: neither order nor repetition changes the mark |
| Recall.InventionIsPenalised | benchmarks/memory-recall/run.py:411-419 | where the context has no answer, one invented token anywhere in an answer that does not admit it is penalised |
| Strings.SplitAtSeparator | benchmarks/memory-recall/run.py:415 | a separator ends one token and begins the next, whatever is on either side |
| Strings.SplitWord | benchmarks/memory-recall/run.py:415 | a text without separators is one token |
| Strings.TrimIsMiddle | benchmarks/memory-recall/run.py:416 | trimming takes away dropped characters at both ends, and nothing of what is left starts or ends with one |
| Strings.TrimIs | benchmarks/memory-recall/run.py:416 | so trimming leaves exactly the middle of a text between dropped characters |
| Strings.IncludesIff | frontend/lib/useVoiceSession.ts:342-348 | the substring test holds exactly when the text is some text, the word, and some text |
| Recall.RunBenchmark | benchmarks/memory-recall/run.py:456-496 | one result per question, in order, with its user, category and mark; a failed call scores 0 |
| Recall.NoModelNoMarks | benchmarks/memory-recall/run.py:456-496 | if every call fails, every question counts as missed |
| Recall.Keys | benchmarks/memory-recall/run.py:511-520 | the users (categories) that occur, each once |
| Recall.Tabulate | benchmarks/memory-recall/run.py:510-526 | the per-user and per-category loops collect the keys and report the rates of each key's answers |
| Recall.Summarize | benchmarks/memory-recall/run.py:499-526 | the totals, their rates, and the rates of both tables |
| Recall.TableAddsUp | benchmarks/memory-recall/run.py:510-526 | every column of either table adds up to the overall figure, for any results |
| Recall.ClassesPartition | benchmarks/memory-recall/run.py:504-508 | for marks on the scale the four classes make up all answers and the points are 2 * correct + partial - hallucinated |
| Recall.NoResultsNoRates | benchmarks/memory-recall/run.py:499-502 | without results every rate is zero |
| Recall.RatesAddUp | benchmarks/memory-recall/run.py:501-526 | for marks on the scale the four reported rates add up to 1 within 0.002, and the average is twice the recall plus the partial minus the hallucination rate within 0.0025 |
| Recall.SummaryConserves | benchmarks/memory-recall/run.py:407-526 | whatever the questions and replies, that holds of the run's results, and both tables account for every answer and point |
| Canvas.Editor.HitTest | frontend/components/DrawingCanvas.tsx:213-227 | the downward loop returns the top hit |
| Canvas.Editor.OnPointerDown | frontend/components/DrawingCanvas.tsx:229-265 | selects, erases, opens the text input or starts drawing, by tool; DragTranslates, EraserRemovesTop and DrawThenUndo say what comes of it |
| Canvas.Editor.OnPointerMove | frontend/components/DrawingCanvas.tsx:267-296 | drags the selection or extends the pen stroke |
| Canvas.Editor.OnPointerUp | frontend/components/DrawingCanvas.tsx:309-342 | ends the gesture and adds the stroke or a large enough shape |
| Canvas.Editor.OnUndo | frontend/components/DrawingCanvas.tsx:344-347 | removes the last item and the selection |
| Canvas.Editor.OnClear | frontend/components/DrawingCanvas.tsx:349-352 | removes everything and the selection |
| Canvas.ClearedUntilDrawn | frontend/components/DrawingCanvas.tsx:229-352 | after a clear, even in the middle of a drag, the board stays empty and nothing is selected until something is drawn or typed |
| Canvas.Editor.OnCommitText | frontend/components/DrawingCanvas.tsx:384-394 | adds the typed text as an item unless it is blank, and closes the input |
| Canvas.TextThenUndo | frontend/components/DrawingCanvas.tsx:213-394 | a press with the text tool opens the input, and what is typed is added there, trimmed, exactly when it is not all white space; a click there hits it, and undo restores the items |
| Canvas.NoInputNoText | frontend/components/DrawingCanvas.tsx:384-394 | without an open input nothing is added |
| Canvas.Editor.OnDelete | frontend/components/DrawingCanvas.tsx:357-362 | acts as the function that DeleteRemovesSelected and DeleteNothing (next rows) characterise |
| Canvas.DeleteRemovesSelected | frontend/components/DrawingCanvas.tsx:357-362 | deleting takes away exactly the selected item and the selection; order and all other items stay |
| Canvas.DeleteNothing | frontend/components/DrawingCanvas.tsx:357-362 | with nothing selected, or something that is gone, deleting leaves the items alone |
| Canvas.TopHitIff | frontend/components/DrawingCanvas.tsx:213-227 | the hit is the highest-index shape whose enlarged box holds the point, and there is none iff no box holds it |
| Canvas.InsideIff | frontend/components/DrawingCanvas.tsx:213-227 | a point hits a shape exactly when a point of its box is at most eight pixels away along either axis |
| Canvas.LastMoveDecides | frontend/components/DrawingCanvas.tsx:276-290 | any sequence of drag moves equals its last move |
| Canvas.DragTranslates | frontend/components/DrawingCanvas.tsx:229-326 | a whole drag moves the top shape by the pointer's vector, keeps its size, all other items and the order, and the pointer stays inside |
| Canvas.DragOnNothing | frontend/components/DrawingCanvas.tsx:236-246 | a press on empty canvas deselects and moves nothing |
| Canvas.EraserRemovesTop | frontend/components/DrawingCanvas.tsx:248-252 | the eraser removes the top shape under the pointer and nothing else |
| Canvas.EraserOnNothing | frontend/components/DrawingCanvas.tsx:248-252 | where nothing is drawn it does nothing |
| Canvas.DrawThenUndo | frontend/components/DrawingCanvas.tsx:328-347 | the shape of the chosen kind from the press to the release is added exactly when the pointer went 4 pixels along an axis, and undo restores all but the selection |
| Canvas.StrokeThenUndo | frontend/components/DrawingCanvas.tsx:258-347 | the pen adds one stroke through the press and every move, and undo takes it away |
| Canvas.NothingAfterRelease | frontend/components/DrawingCanvas.tsx:267-318 | after the release the pointer moves nothing until the next press |
| Canvas.IdsStayUnique | frontend/components/DrawingCanvas.tsx:229-394 | on every run of edits with unused new ids no two items share an id, as the lemmas on dragging, erasing and deleting require |
| Board.Nearest | frontend/lib/contextDescription.ts:126-129 | the first of the nearest components |
| Board.AttachedToFirstNearest | frontend/lib/contextDescription.ts:126-132 | an arrow's end is attached to the first of the nearest components exactly when that is within 120 pixels |
| Board.DescribeBoardItems | frontend/lib/contextDescription.ts:79-166 | the loops push what DescriptionSays (next row) reads off the drawing |
| Reading.DescriptionSays | frontend/lib/contextDescription.ts:79-166 | one line for each component, arrow and text that is not blank, in the order of the items: a component's kind, caption and thirds of the board; an arrow from the first component nearest to its start to the one nearest to its end, if both are within 120 pixels, two-way exactly for Arrow2; and the number of strokes |
| Reading.NothingToSay | frontend/lib/contextDescription.ts:80-88 | an empty board has no description, one with strokes alone only their number |
| Board.RelativeInRange | frontend/lib/contextDescription.ts:61-64 | relative positions lie between 0 and 1 |
| Board.ExtremePhrases | frontend/lib/contextDescription.ts:56-71 | the leftmost, rightmost, top and bottom components are called so; a lone one is at the top left |
| Board.PositionsKept | frontend/lib/contextDescription.ts:56-106 | moving the board and stretching either axis leaves every component's phrase as it was |
| Board.DescriptionTranslationInvariant | frontend/lib/contextDescription.ts:79-166 | moving the whole drawing leaves its description as it was |
| Progress.Streak | frontend/app/sessions/page.tsx:250-264 | the run of days ending today, at most 365, or ending yesterday if today is missing, at most 364 |
| Progress.RunIsUnique | frontend/app/sessions/page.tsx:250-264 | there is only one such run |
| Progress.AverageOnScale | backend/app/api/v1/dashboard.py:118-121 | the average of scores in 0..100, rounded to one digit, lies in 0..100 |
| Progress.ReadinessIs | backend/app/api/v1/dashboard.py:118-145 | both scores in whole numbers: six hundredths of the average in tenths, rounded to the nearest, and three points a session up to 30, on the dashboard also two a story up to 10 |
| Progress.NoScoreIff | backend/app/api/v1/dashboard.py:118-145 | without skills, and only then, there is no score |
| Progress.ReadinessDifference | backend/app/api/v1/dashboard.py:118-145 | for skill scores in 0..100 both readiness scores lie in 0..100 without the cap and differ by the session and story signals alone |
| Progress.ReadinessAgreesIff | backend/app/api/v1/share.py:67-74 | for the same skill scores the two formulas agree exactly without stories and with all, or ten, sessions completed |

## Left out

- Playback.Player.VadTick: ticks may come at any time; which intervals run is the subject of Voice.
- Playback.Player.EnqueueAudio: a chunk is its place in the order of arrival; decoding base64 is not modelled.
- Reconnect.Session.ConnectAgain: setting up the analyser and the error texts are not modelled; the visible state is only the part these functions set, so its divergence from stateRef is not stated.
- Latency figures, the soft prompt, text mode, waveform and unmounting of the voice session: no logic beyond single assignments.
- RateLimit.Limiter.AuthRateLimit: Redis is available and both commands take effect, so failing open and a key that never gets its expiry are not modelled.
- Lockout.User.Login: logins on one account are serial; an unknown address, the remaining minutes in the message and tokens are not modelled.
- Scrub.EventDict.ScrubSecrets: values that are not strings are opaque, as the code does not look into them.
- Pearson.PearsonBounded: exact reals; the square root is a parameter with its defining property, and floating-point error is not modelled.
- Percentile.IsPercentile: the percentile is not negative; the rejection sampler appears only through the ranges of the latencies it returns.
- Grouping.Accumulate: the rule lists, costs, tokens and the per-entry report are not collected; RuleMetrics takes any rule lists.
- Recall.Summarize: tokens, cost and latency are left out, and so is the sorting of the keys.
- Recall.ScoreAnswer: Python's tables of lower case, spaces and digits are parameters; the theorems hold for any.
- Recall.RunBenchmark: the source raises for a user without a memory block, and such inputs are excluded; the calls to the model are inputs.
- Canvas.Editor.OnPointerDown: painting the canvas is not modelled; colours and stroke widths are left out of the items, and the width of a text counts its characters.
- Canvas.Editor.OnPointerUp: assumes that the updater that adds a pen stroke runs before the next statement clears currentPen, which it reads (frontend/components/DrawingCanvas.tsx:317-318); an updater that React defers reads null there.
- Board.DescribeBoardItems: the fixed wording of headings and lines is left out, and coordinates are exact reals.
- Category averages and strengths of the share card: the same grouping as above, and a sort.
- The speech, scoring and memory services behind the API, migrations, question data and administration pages: foreign calls and queries.
