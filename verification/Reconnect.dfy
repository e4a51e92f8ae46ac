/**
 The connection life cycle of the voice session (frontend/lib/useVoiceSession.ts): connecting, the bounded
 reconnect backoff, and the user's disconnect. Timers, microphone prompts and sockets that are still going
 are part of the state, because nothing in the hook cancels them.
 */
module Reconnect {
  import opened Integers
  import opened Options
  import opened Strings

  datatype Display = Idle | Connecting | Reconnecting | Error

  datatype State = State(
    count: nat,                // reconnectCountRef
    intentional: bool,         // intentionalDisconnectRef
    display: Display,          // the part of the visible state these functions set
    current: Option<nat>,      // wsRef
    timers: nat,               // reconnect timers that have not fired
    attempts: nat,             // _connectInternal calls waiting for the audio context or the microphone
    connecting: set<nat>,      // sockets in each readyState short of CLOSED
    open: set<nat>,
    closing: set<nat>,
    made: nat,                 // sockets made so far; the next one gets this number
    delays: seq<nat>           // history: delays scheduled since count was last set to 0
  )

  const Initial := State(0, false, Idle, None, 0, 0, {}, {}, {}, 0, [])

  const RECONNECT_DELAYS_MS := [1000, 2000, 4000]

  const FATAL_WORDS := ["pipeline", "API", "provider", "key", "not active", "not found", "Unauthorized"]

  datatype Event =
    | Connect                            // the user connects
    | Disconnect                         // the user ends the session
    | TimerFired
    | MicGranted
    | MicDenied
    | ResumeRejected                     // the audio context could not be resumed
    | Opened(socket: nat, recording: bool)  // recording: the MediaRecorder could be started
    | Closed(socket: nat)
    | ErrorMessage(message: Option<string>)  // an error message from the backend

  // ---------- The code ----------

  /** An error message after which reconnecting is pointless. */
  predicate IsFatal(message: Option<string>) {
    message.Some? && exists k :: 0 <= k < |FATAL_WORDS| && Includes(message.value, FATAL_WORDS[k])
  }

  predicate Enabled(s: State, e: Event) {
    match e
    case TimerFired => s.timers > 0
    case MicGranted => s.attempts > 0
    case MicDenied => s.attempts > 0
    case ResumeRejected => s.attempts > 0
    case Opened(w, _) => w in s.connecting
    case Closed(w) => w in s.connecting + s.open + s.closing
    case ErrorMessage(_) => s.open != {}
    case _ => true
  }

  /** The guard of _connectInternal: the current socket is open or connecting. */
  predicate AlreadyConnected(s: State) {
    s.current.Some? && s.current.value in s.open + s.connecting
  }

  /** _connectInternal up to the microphone prompt. */
  function ConnectInternal(s: State): State {
    if AlreadyConnected(s) then s
    else s.(display := if s.count > 0 then Reconnecting else Connecting, attempts := s.attempts + 1)
  }

  /** onclose. */
  function OnClose(s: State): State {
    if s.intentional then s.(intentional := false, display := Idle)
    else if s.count < |RECONNECT_DELAYS_MS| then
      s.(count := s.count + 1, timers := s.timers + 1, delays := s.delays + [RECONNECT_DELAYS_MS[s.count]])
    else s.(display := Error)
  }

  /** One event. An event that cannot happen now has no effect. */
  function Step(s: State, e: Event): State {
    if !Enabled(s, e) then s else
    match e
    case Connect => ConnectInternal(s.(count := 0, delays := [], intentional := false))
    case Disconnect =>
      var stop := if s.current.Some? && s.current.value in s.open then {s.current.value} else {};
      s.(intentional := true, display := Idle, open := s.open - stop, closing := s.closing + stop)
    case TimerFired => ConnectInternal(s.(timers := s.timers - 1))
    case MicGranted =>
      s.(attempts := s.attempts - 1, connecting := s.connecting + {s.made}, current := Some(s.made), made := s.made + 1)
    case MicDenied => s.(attempts := s.attempts - 1, display := Error)
    case ResumeRejected => s.(attempts := s.attempts - 1)
    case Opened(w, recording) =>
      var s1 := s.(count := 0, delays := [], connecting := s.connecting - {w});
      if recording then s1.(open := s.open + {w})
      else s1.(closing := s.closing + {w}, display := Error)
    case Closed(w) =>
      OnClose(s.(connecting := s.connecting - {w}, open := s.open - {w}, closing := s.closing - {w}))
    case ErrorMessage(message) => s.(intentional := s.intentional || IsFatal(message), display := Error)
  }

  function Exec(s: State, es: seq<Event>): State {
    if es == [] then s else Step(Exec(s, es[..|es| - 1]), es[|es| - 1])
  }

  /** The hook's mutable refs; the last six fields stand for the browser and the history. */
  class Session {
    var count: nat
    var intentional: bool
    var display: Display
    var current: Option<nat>
    var timers: nat
    var attempts: nat
    var connecting: set<nat>
    var open: set<nat>
    var closing: set<nat>
    var made: nat
    var delays: seq<nat>

    ghost function View(): State
      reads this
    {
      State(count, intentional, display, current, timers, attempts, connecting, open, closing, made, delays)
    }

    constructor ()
      ensures View() == Initial
    {
      count, intentional, display, current := 0, false, Idle, None;
      timers, attempts, connecting, open, closing, made, delays := 0, 0, {}, {}, {}, 0, [];
    }

    method ConnectAgain()
      modifies this
      ensures View() == ConnectInternal(old(View()))
    {
      if current.Some? && (current.value in open || current.value in connecting) {
        return;
      }
      display := if count > 0 then Reconnecting else Connecting;
      attempts := attempts + 1;
    }

    method UserConnect()
      modifies this
      ensures View() == Step(old(View()), Connect)
    {
      count := 0;
      delays := [];
      intentional := false;
      ConnectAgain();
    }

    method UserDisconnect()
      modifies this
      ensures View() == Step(old(View()), Disconnect)
    {
      intentional := true;
      if current.Some? && current.value in open {
        open := open - {current.value};
        closing := closing + {current.value};
      }
      display := Idle;
    }

    method OnTimer()
      requires timers > 0
      modifies this
      ensures View() == Step(old(View()), TimerFired)
    {
      timers := timers - 1;
      ConnectAgain();
    }

    method OnMicrophone(granted: bool)
      requires attempts > 0
      modifies this
      ensures View() == Step(old(View()), if granted then MicGranted else MicDenied)
    {
      attempts := attempts - 1;
      if !granted {
        display := Error;
        return;
      }
      connecting := connecting + {made};
      current := Some(made);
      made := made + 1;
    }

    method OnOpen(socket: nat, recording: bool)
      requires socket in connecting
      modifies this
      ensures View() == Step(old(View()), Opened(socket, recording))
    {
      connecting := connecting - {socket};
      count := 0;
      delays := [];
      if !recording {
        display := Error;
        closing := closing + {socket};
        return;
      }
      open := open + {socket};
    }

    method OnSocketClosed(socket: nat)
      requires socket in connecting + open + closing
      modifies this
      ensures View() == Step(old(View()), Closed(socket))
    {
      connecting, open, closing := connecting - {socket}, open - {socket}, closing - {socket};
      if intentional {
        intentional := false;
        display := Idle;
        return;
      }
      if count < |RECONNECT_DELAYS_MS| {
        var delay := RECONNECT_DELAYS_MS[count];
        count := count + 1;
        delays := delays + [delay];
        timers := timers + 1;
      } else {
        display := Error;
      }
    }

    method OnResumeRejected()
      requires attempts > 0
      modifies this
      ensures View() == Step(old(View()), ResumeRejected)
    {
      attempts := attempts - 1;
    }

    method OnErrorMessage(message: Option<string>)
      requires open != {}
      modifies this
      ensures View() == Step(old(View()), ErrorMessage(message))
    {
      if IsFatal(message) {
        intentional := true;
      }
      display := Error;
    }
  }

  // ---------- Bounded backoff ----------

  /** A close that nobody asked for. */
  predicate Lost(s: State, e: Event) {
    e.Closed? && Enabled(s, e) && !s.intentional
  }

  predicate Resets(s: State, e: Event) {
    e.Connect? || (e.Opened? && Enabled(s, e))
  }

  /** Number of connections lost since the count was last reset. */
  function Losses(s: State, es: seq<Event>): nat {
    if es == [] then 0 else
    var init, e := es[..|es| - 1], es[|es| - 1];
    if Resets(Exec(s, init), e) then 0
    else Losses(s, init) + if Lost(Exec(s, init), e) then 1 else 0
  }

  function Sum(ns: seq<nat>): nat {
    if ns == [] then 0 else Sum(ns[..|ns| - 1]) + ns[|ns| - 1]
  }

  lemma BackoffStep(s: State, e: Event, losses: nat)
    requires s.count == Min(3, losses) && s.delays == RECONNECT_DELAYS_MS[..Min(3, losses)]
    ensures var s' := Step(s, e);
      var losses' := if Resets(s, e) then 0 else losses + if Lost(s, e) then 1 else 0;
      s'.count == Min(3, losses') && s'.delays == RECONNECT_DELAYS_MS[..Min(3, losses')]
  {
  }

  /**
   On every run, however connects, timers and closes interleave: the count is the number of connections lost since
   the last reset, capped at 3, the delays scheduled since then are that long a prefix of the table, and they
   add up to at most seven seconds.
   */
  lemma {:induction false} BoundedBackoff(es: seq<Event>)
    ensures var s, n := Exec(Initial, es), Min(3, Losses(Initial, es));
      s.count == n && s.delays == RECONNECT_DELAYS_MS[..n] && Sum(s.delays) <= 7000
  {
    if es != [] {
      var init := es[..|es| - 1];
      BoundedBackoff(init);
      BackoffStep(Exec(Initial, init), es[|es| - 1], Losses(Initial, init));
    }
    PrefixSums(Min(3, Losses(Initial, es)));
  }

  lemma PrefixSums(n: nat)
    requires n <= 3
    ensures Sum(RECONNECT_DELAYS_MS[..n]) == [0, 1000, 3000, 7000][n]
  {
    assert RECONNECT_DELAYS_MS[..3][..2] == RECONNECT_DELAYS_MS[..2];
    assert RECONNECT_DELAYS_MS[..2][..1] == RECONNECT_DELAYS_MS[..1];
    assert RECONNECT_DELAYS_MS[..1][..0] == [];
    assert Sum(RECONNECT_DELAYS_MS[..1]) == 1000;
    assert Sum(RECONNECT_DELAYS_MS[..2]) == 3000;
  }

  /** A lost connection is retried exactly when fewer than three were lost since the last reset; else it is an error. */
  lemma RetriesIff(es: seq<Event>, e: Event)
    requires Lost(Exec(Initial, es), e)
    ensures var s := Exec(Initial, es);
      && (Step(s, e).timers == s.timers + 1 <==> Losses(Initial, es) < 3)
      && (Step(s, e).timers == s.timers && Step(s, e).display == Error <==> Losses(Initial, es) >= 3)
  {
    BoundedBackoff(es);
  }

  // ---------- Which closes are expected ----------

  /** The message names a fault that reconnecting does not mend. */
  ghost predicate NamesFault(message: string) {
    || Says(message, "pipeline") || Says(message, "API") || Says(message, "provider") || Says(message, "key")
    || Says(message, "not active") || Says(message, "not found") || Says(message, "Unauthorized")
  }

  lemma FatalIff(message: string)
    ensures IsFatal(Some(message)) <==> NamesFault(message)
  {
    hide IsFatal, Says;
    SevenWords(message);
    IncludesIff(message, "pipeline");
    IncludesIff(message, "API");
    IncludesIff(message, "provider");
    IncludesIff(message, "key");
    IncludesIff(message, "not active");
    IncludesIff(message, "not found");
    IncludesIff(message, "Unauthorized");
  }

  lemma SevenWords(message: string)
    ensures IsFatal(Some(message)) <==>
      || Includes(message, "pipeline") || Includes(message, "API") || Includes(message, "provider")
      || Includes(message, "key") || Includes(message, "not active") || Includes(message, "not found")
      || Includes(message, "Unauthorized")
  {
    hide Includes;
    assert forall k :: 0 <= k < |FATAL_WORDS| ==> Includes(message, FATAL_WORDS[k]) ==> IsFatal(Some(message));
    assert FATAL_WORDS[0] == "pipeline" && FATAL_WORDS[1] == "API" && FATAL_WORDS[2] == "provider";
    assert FATAL_WORDS[3] == "key" && FATAL_WORDS[4] == "not active" && FATAL_WORDS[5] == "not found";
    assert FATAL_WORDS[6] == "Unauthorized";
  }

  /** Whether an event makes the next close an expected one: ending the session does, and so does a lasting fault. */
  ghost function Expects(before: State, e: Event): Option<bool> {
    match e
    case Connect => Some(false)
    case Disconnect => Some(true)
    case ErrorMessage(m) => if before.open != {} && m.Some? && NamesFault(m.value) then Some(true) else None
    case Closed(w) => if w in before.connecting + before.open + before.closing then Some(false) else None
    case _ => None
  }

  ghost function AllExpects(es: seq<Event>): seq<Option<bool>> {
    if es == [] then [] else
    var n := |es| - 1;
    AllExpects(es[..n]) + [Expects(Exec(Initial, es[..n]), es[n])]
  }

  lemma ExpectsStep(s: State, e: Event)
    ensures Step(s, e).intentional == if Expects(s, e).Some? then Expects(s, e).value else s.intentional
  {
    hide NamesFault, IsFatal;
    if e.ErrorMessage? && e.message.Some? {
      FatalIff(e.message.value);
    } else if e.ErrorMessage? {
      NoMessageIsNotFatal();
    }
  }

  lemma NoMessageIsNotFatal()
    ensures !IsFatal(None)
  {
  }

  /** After every run the close to come is expected exactly if the last event that says so says yes. */
  lemma {:induction false} IntentionalIsLatest(es: seq<Event>)
    ensures Exec(Initial, es).intentional == Latest(false, AllExpects(es))
  {
    hide Step, Expects, Latest;
    if es == [] {
      LatestIs(false, []);
    } else {
      var n := |es| - 1;
      IntentionalIsLatest(es[..n]);
      ExpectsStep(Exec(Initial, es[..n]), es[n]);
      LatestAppend(false, AllExpects(es[..n]), Expects(Exec(Initial, es[..n]), es[n]));
    }
  }

  /**
   After any run, when an open socket reports an error and is lost: the hook retries exactly if the message names no lasting
   fault and fewer than three connections were lost. After a lasting fault nothing is scheduled and the session is idle.
   */
  lemma RetriesAfterErrorIff(es: seq<Event>, w: nat, message: Option<string>)
    requires w in Exec(Initial, es).open && !Exec(Initial, es).intentional
    ensures var s, t := Exec(Initial, es), Exec(Initial, es + [ErrorMessage(message), Closed(w)]);
      var fault := message.Some? && NamesFault(message.value);
      && (t.timers == s.timers + 1 <==> !fault && Losses(Initial, es) < 3)
      && (t.timers == s.timers <==> fault || Losses(Initial, es) >= 3)
      && (fault ==> t.display == Idle && t.count == s.count && t.delays == s.delays)
      && (!fault ==> t.display == Error)
  {
    hide Exec, IsFatal, NamesFault, Losses;
    var s := Exec(Initial, es);
    ExecSplit(Initial, es, [ErrorMessage(message), Closed(w)]);
    TwoSteps(s, ErrorMessage(message), Closed(w));
    ExpectsStep(s, ErrorMessage(message));
    BoundedBackoff(es);
    assert w in Step(s, ErrorMessage(message)).open;
  }

  // ---------- What is shown ----------

  /** What an event makes the hook show, if anything. */
  function Shows(before: State, e: Event): Option<Display> {
    var up := before.current.Some? && (before.current.value in before.open || before.current.value in before.connecting);
    match e
    case Connect => if up then None else Some(Connecting)
    case Disconnect => Some(Idle)
    case TimerFired =>
      if before.timers == 0 || up then None else Some(if before.count == 0 then Connecting else Reconnecting)
    case MicGranted => None
    case MicDenied => if before.attempts > 0 then Some(Error) else None
    case ResumeRejected => None
    case Opened(w, recording) => if w in before.connecting && !recording then Some(Error) else None
    case Closed(w) =>
      if w !in before.connecting + before.open + before.closing then None
      else if before.intentional then Some(Idle)
      else if before.count >= 3 then Some(Error)
      else None
    case ErrorMessage(_) => if before.open != {} then Some(Error) else None
  }

  function AllShows(es: seq<Event>): seq<Option<Display>> {
    if es == [] then [] else
    var n := |es| - 1;
    AllShows(es[..n]) + [Shows(Exec(Initial, es[..n]), es[n])]
  }

  lemma ShowsStep(s: State, e: Event)
    ensures Step(s, e).display == if Shows(s, e).Some? then Shows(s, e).value else s.display
  {
    hide IsFatal;
  }

  /** After every run the hook shows what the last such event made it show, and `idle` before any. */
  lemma {:induction false} DisplayIsLatest(es: seq<Event>)
    ensures Exec(Initial, es).display == Latest(Idle, AllShows(es))
  {
    hide Step, Shows, Latest;
    if es == [] {
      LatestIs(Idle, []);
    } else {
      var n := |es| - 1;
      DisplayIsLatest(es[..n]);
      ShowsStep(Exec(Initial, es[..n]), es[n]);
      LatestAppend(Idle, AllShows(es[..n]), Shows(Exec(Initial, es[..n]), es[n]));
    }
  }

  // ---------- How often the hook retries ----------

  /** Retries scheduled by an event. */
  function Scheduled(s: State, e: Event): nat {
    Max(0, Step(s, e).timers - s.timers)
  }

  /** Retries scheduled in a run. */
  function Retries(s: State, es: seq<Event>): nat {
    if es == [] then 0 else
    var init, e := es[..|es| - 1], es[|es| - 1];
    Retries(s, init) + Scheduled(Exec(s, init), e)
  }

  /** No connect and no socket that opens. */
  predicate NoReset(s: State, es: seq<Event>) {
    es == [] || (NoReset(s, es[..|es| - 1]) && !Resets(Exec(s, es[..|es| - 1]), es[|es| - 1]))
  }

  lemma {:induction false} RetriesAreCounted(s: State, es: seq<Event>)
    requires s.count <= 3 && NoReset(s, es)
    ensures s.count + Retries(s, es) == Exec(s, es).count <= 3
  {
    hide Step, Resets;
    if es != [] {
      RetriesAreCounted(s, es[..|es| - 1]);
      RetryIsCounted(Exec(s, es[..|es| - 1]), es[|es| - 1]);
    }
  }

  lemma RetryIsCounted(s: State, e: Event)
    requires s.count <= 3 && !Resets(s, e)
    ensures s.count + Scheduled(s, e) == Step(s, e).count <= 3
  {
  }

  /** The promised three retries, after any run: at most that many until a socket opens or the user connects. */
  lemma ThreeRetries(es: seq<Event>, more: seq<Event>)
    requires NoReset(Exec(Initial, es), more)
    ensures Exec(Initial, es).count + Retries(Exec(Initial, es), more) <= 3
  {
    BoundedBackoff(es);
    RetriesAreCounted(Exec(Initial, es), more);
  }

  /** Socket `w` opens and is lost again, at once if the recording could not start; the hook retries after a second. */
  function Cycle(w: nat, recording: bool): seq<Event> {
    [Opened(w, recording), Closed(w), TimerFired, MicGranted]
  }

  function Cycles(recordings: seq<bool>): seq<Event> {
    if recordings == [] then [Connect, MicGranted]
    else
      var n := |recordings| - 1;
      Cycles(recordings[..n]) + Cycle(n, recordings[n])
  }

  /** Socket `n` is connecting after `n` retries. */
  function AfterCycles(n: nat): State {
    State(Min(n, 1), false, if n == 0 then Connecting else Reconnecting, Some(n), 0, 0, {n}, {}, {}, n + 1,
          RECONNECT_DELAYS_MS[..Min(n, 1)])
  }

  lemma {:induction false} RetriesSplit(s: State, a: seq<Event>, b: seq<Event>)
    ensures Retries(s, a + b) == Retries(s, a) + Retries(Exec(s, a), b)
  {
    hide Step;
    if b == [] {
      assert a + b == a;
    } else {
      RetriesSplit(s, a, b[..|b| - 1]);
      ExecSplit(s, a, b[..|b| - 1]);
      assert (a + b)[..|a + b| - 1] == a + b[..|b| - 1];
    }
  }

  lemma TwoRetries(s: State, a: Event, b: Event)
    ensures Retries(s, [a, b]) == Scheduled(s, a) + Scheduled(Step(s, a), b)
  {
    hide Step, Scheduled;
    var es := [a, b];
    assert es[..1] == [a] && [a][..0] == [];
    assert Exec(s, [a]) == Step(s, a) && Retries(s, [a]) == Scheduled(s, a);
  }

  /** Between two connections: the timer is running. */
  function Waiting(n: nat, display: Display): State {
    State(1, false, display, Some(n), 1, 0, {}, {}, {}, n + 1, RECONNECT_DELAYS_MS[..1])
  }

  lemma OpenedAndLost(n: nat, recording: bool) returns (display: Display)
    ensures Exec(AfterCycles(n), [Opened(n, recording), Closed(n)]) == Waiting(n, display)
    ensures Retries(AfterCycles(n), [Opened(n, recording), Closed(n)]) == 1
  {
    hide Exec, Retries, IsFatal;
    display := if !recording then Error else if n == 0 then Connecting else Reconnecting;
    TwoSteps(AfterCycles(n), Opened(n, recording), Closed(n));
    TwoRetries(AfterCycles(n), Opened(n, recording), Closed(n));
    var s1 := Step(AfterCycles(n), Opened(n, recording));
    assert s1.connecting == {} && s1.open + s1.closing == {n} && s1.count == 0 && !s1.intentional;
    assert Step(s1, Closed(n)) == Waiting(n, display);
  }

  lemma ConnectsAgain(n: nat, display: Display)
    ensures Exec(Waiting(n, display), [TimerFired, MicGranted]) == AfterCycles(n + 1)
    ensures Retries(Waiting(n, display), [TimerFired, MicGranted]) == 0
  {
    hide Exec, Retries, IsFatal;
    TwoSteps(Waiting(n, display), TimerFired, MicGranted);
    TwoRetries(Waiting(n, display), TimerFired, MicGranted);
  }

  lemma OneCycle(n: nat, recording: bool)
    ensures Exec(AfterCycles(n), Cycle(n, recording)) == AfterCycles(n + 1)
    ensures Retries(AfterCycles(n), Cycle(n, recording)) == 1
  {
    hide Exec, Retries;
    var display := OpenedAndLost(n, recording);
    ConnectsAgain(n, display);
    var lost, again := [Opened(n, recording), Closed(n)], [TimerFired, MicGranted];
    ExecSplit(AfterCycles(n), lost, again);
    RetriesSplit(AfterCycles(n), lost, again);
    assert Cycle(n, recording) == lost + again;
  }

  /**
   Three is no bound on a whole session: a connection that opens every time, and is lost every time, is retried for ever
   without the user, always after one second. That includes a browser that cannot record.
   */
  lemma {:induction false} RetriesForEver(recordings: seq<bool>)
    ensures Exec(Initial, Cycles(recordings)) == AfterCycles(|recordings|)
    ensures Retries(Initial, Cycles(recordings)) == |recordings|
  {
    hide Step, Exec, Retries;
    if recordings == [] {
      FirstSocket();
      NoRetryYet();
    } else {
      var n := |recordings| - 1;
      RetriesForEver(recordings[..n]);
      OneCycle(n, recordings[n]);
      ExecSplit(Initial, Cycles(recordings[..n]), Cycle(n, recordings[n]));
      RetriesSplit(Initial, Cycles(recordings[..n]), Cycle(n, recordings[n]));
    }
  }

  lemma NoRetryYet()
    ensures Retries(Initial, [Connect, MicGranted]) == 0
  {
    assert [Connect, MicGranted][..1] == [Connect] && [Connect][..0] == [];
    assert Exec(Initial, [Connect]).timers == 0;
  }

  // ---------- What is under way ----------

  /** Timers an event starts, less those it ends: a lost connection starts one while there are retries left. */
  function TimersBy(before: State, e: Event): int {
    match e
    case Closed(w) =>
      if w in before.connecting + before.open + before.closing && !before.intentional && before.count < 3 then 1 else 0
    case TimerFired => if before.timers > 0 then -1 else 0
    case _ => 0
  }

  /** Attempts an event starts, less those it ends: each ends granted, denied or rejected. */
  function AttemptsBy(before: State, e: Event): int {
    var up := before.current.Some? && (before.current.value in before.open || before.current.value in before.connecting);
    match e
    case Connect => if up then 0 else 1
    case TimerFired => if up || before.timers == 0 then 0 else 1
    case MicGranted => if before.attempts > 0 then -1 else 0
    case MicDenied => if before.attempts > 0 then -1 else 0
    case ResumeRejected => if before.attempts > 0 then -1 else 0
    case _ => 0
  }

  function AllTimers(es: seq<Event>): int {
    if es == [] then 0 else
    var n := |es| - 1;
    AllTimers(es[..n]) + TimersBy(Exec(Initial, es[..n]), es[n])
  }

  function AllAttempts(es: seq<Event>): int {
    if es == [] then 0 else
    var n := |es| - 1;
    AllAttempts(es[..n]) + AttemptsBy(Exec(Initial, es[..n]), es[n])
  }

  lemma CountsStep(s: State, e: Event)
    ensures Step(s, e).timers == s.timers + TimersBy(s, e) && Step(s, e).attempts == s.attempts + AttemptsBy(s, e)
  {
    hide IsFatal;
  }

  /** On every run the timers and attempts under way are those started less those ended. */
  lemma {:induction false} CountsAreBalanced(es: seq<Event>)
    ensures Exec(Initial, es).timers == AllTimers(es) && Exec(Initial, es).attempts == AllAttempts(es)
  {
    hide Step, TimersBy, AttemptsBy;
    if es != [] {
      CountsAreBalanced(es[..|es| - 1]);
      CountsStep(Exec(Initial, es[..|es| - 1]), es[|es| - 1]);
    }
  }

  /** Where a socket is; before it was made and after it closed it is nowhere. */
  datatype Place = Nowhere | IsConnecting | IsOpen | IsClosing

  function PlaceIn(s: State, w: nat): Place {
    if w in s.connecting then IsConnecting else if w in s.open then IsOpen else if w in s.closing then IsClosing else Nowhere
  }

  /** Where an event puts socket `w`, if it does. */
  function Moves(before: State, e: Event, w: nat): Option<Place> {
    match e
    case MicGranted => if before.attempts > 0 && before.made == w then Some(IsConnecting) else None
    case Opened(v, recording) =>
      if v == w && PlaceIn(before, w) == IsConnecting then Some(if recording then IsOpen else IsClosing) else None
    case Disconnect => if before.current == Some(w) && PlaceIn(before, w) == IsOpen then Some(IsClosing) else None
    case Closed(v) => if v == w then Some(Nowhere) else None
    case _ => None
  }

  function AllMoves(es: seq<Event>, w: nat): seq<Option<Place>> {
    if es == [] then [] else
    var n := |es| - 1;
    AllMoves(es[..n], w) + [Moves(Exec(Initial, es[..n]), es[n], w)]
  }

  lemma MovesStep(s: State, e: Event, w: nat)
    requires WellFormed(s)
    ensures PlaceIn(Step(s, e), w) == if Moves(s, e, w).Some? then Moves(s, e, w).value else PlaceIn(s, w)
  {
    hide IsFatal, OnClose;
    if e.Closed? {
      CloseKeepsSockets(s.(connecting := s.connecting - {e.socket}, open := s.open - {e.socket},
                           closing := s.closing - {e.socket}));
    }
  }

  lemma CloseKeepsSockets(s: State)
    ensures OnClose(s).connecting == s.connecting && OnClose(s).open == s.open && OnClose(s).closing == s.closing
  {
  }

  /** On every run each socket is where the last event that moved it put it. */
  lemma {:induction false} SocketIsLatest(es: seq<Event>, w: nat)
    ensures PlaceIn(Exec(Initial, es), w) == Latest(Nowhere, AllMoves(es, w))
  {
    hide Step, Moves, Latest, WellFormed;
    if es == [] {
      LatestIs(Nowhere, []);
      assert PlaceIn(Initial, w) == Nowhere;
    } else {
      var n := |es| - 1;
      SocketIsLatest(es[..n], w);
      AlwaysWellFormed(es[..n]);
      MovesStep(Exec(Initial, es[..n]), es[n], w);
      LatestAppend(Nowhere, AllMoves(es[..n], w), Moves(Exec(Initial, es[..n]), es[n], w));
    }
  }

  /** On every run the current socket is the one made last. */
  lemma {:induction false} CurrentIsLastMade(es: seq<Event>)
    ensures var s := Exec(Initial, es); s.current == if s.made == 0 then None else Some(s.made - 1)
  {
    hide Step;
    if es != [] {
      CurrentIsLastMade(es[..|es| - 1]);
      MadeIsCurrent(Exec(Initial, es[..|es| - 1]), es[|es| - 1]);
    }
  }

  lemma MadeIsCurrent(s: State, e: Event)
    ensures var s' := Step(s, e);
      (s'.made == s.made && s'.current == s.current) || (s'.made == s.made + 1 && s'.current == Some(s.made))
  {
    hide IsFatal;
  }

  // ---------- When a disconnect is final ----------

  ghost predicate WellFormed(s: State) {
    && s.connecting !! s.open !! s.closing
    && (forall w :: w in s.connecting ==> w < s.made)
    && (forall w :: w in s.open ==> w < s.made)
    && (forall w :: w in s.closing ==> w < s.made)
    && s.count <= 3
  }

  lemma InitialIsWellFormed()
    ensures WellFormed(Initial) && Single(Initial)
  {
  }

  lemma WellFormedStep(s: State, e: Event)
    requires WellFormed(s)
    ensures WellFormed(Step(s, e))
  {
  }

  lemma {:induction false} AlwaysWellFormed(es: seq<Event>)
    ensures WellFormed(Exec(Initial, es))
  {
    hide Step, WellFormed;
    if es != [] {
      AlwaysWellFormed(es[..|es| - 1]);
      WellFormedStep(Exec(Initial, es[..|es| - 1]), es[|es| - 1]);
    } else {
      InitialIsWellFormed();
    }
  }

  /** The user does nothing more. */
  predicate Unattended(es: seq<Event>) {
    forall i :: 0 <= i < |es| ==> !es[i].Connect? && !es[i].Disconnect?
  }

  predicate AtMostOne(ws: set<nat>) {
    forall a, b :: a in ws && b in ws ==> a == b
  }

  /**
   Nothing is under way except the current socket, and at most one close is still to come
   (with the retries used up, any number).
   */
  predicate NothingElseUnderWay(s: State) {
    && s.timers == 0 && s.attempts == 0 && s.connecting == {}
    && (forall w :: w in s.open ==> s.current == Some(w))
    && (AtMostOne(s.open + s.closing) || s.count == 3)
  }

  /** After a disconnect no socket is ever open again unless the user connects. */
  ghost predicate StaysOffline(s: State) {
    forall es :: Unattended(es) ==> Exec(s, es).open == {}
  }

  ghost predicate Winding(s: State) {
    && s.timers == 0 && s.attempts == 0 && s.connecting == {} && s.open == {}
    && (s.closing == {} || s.count >= 3 || (s.intentional && AtMostOne(s.closing)))
  }

  lemma {:induction false} WindingIsKept(s: State, es: seq<Event>)
    requires Winding(s) && Unattended(es)
    ensures Winding(Exec(s, es))
  {
    if es != [] {
      WindingIsKept(s, es[..|es| - 1]);
      assert !es[|es| - 1].Connect? && !es[|es| - 1].Disconnect?;
    }
  }

  lemma Unfold(s: State, es: seq<Event>)
    requires es != []
    ensures Exec(s, es) == Exec(Step(s, es[0]), es[1..])
    decreases |es|
  {
    if |es| == 1 {
      assert es[..0] == [] && es[1..] == [];
    } else {
      Unfold(s, es[..|es| - 1]);
      assert es[..|es| - 1][1..] == es[1..][..|es| - 2];
    }
  }

  /** A timer that is left brings a socket up. */
  lemma TimerBringsUp(s: State) returns (es: seq<Event>)
    requires s.timers > 0 && s.open == {} && s.connecting == {}
    ensures Unattended(es) && |es| == 3 && Exec(s, es).open != {}
  {
    es := [TimerFired, MicGranted, Opened(s.made, true)];
    var s1 := Step(s, TimerFired);
    var s2 := Step(s1, MicGranted);
    Unfold(s, es);
    Unfold(s1, es[1..]);
    Unfold(s2, es[2..]);
    assert s.made in s2.connecting;
    assert s.made in Exec(s, es).open;
  }

  /** Two closes still to come: the first uses up the intentional flag, the second schedules a timer. */
  lemma ClosesBringUp(s: State, a: nat, b: nat) returns (es: seq<Event>)
    requires s.open == {} && s.connecting == {} && a in s.closing && b in s.closing && a != b
    requires s.intentional && s.count < 3
    ensures Unattended(es) && Exec(s, es).open != {}
  {
    var s1 := Step(s, Closed(a));
    var s2 := Step(s1, Closed(b));
    var up := TimerBringsUp(s2);
    es := [Closed(a), Closed(b)] + up;
    Unfold(s, es);
    Unfold(s1, es[1..]);
    assert es[1..][1..] == up;
  }

  /** A run of the environment that brings a socket up again after the disconnect. */
  lemma BackOnline(s: State) returns (es: seq<Event>)
    requires WellFormed(s) && !NothingElseUnderWay(s)
    ensures Unattended(es) && Exec(Step(s, Disconnect), es).open != {}
  {
    var s' := Step(s, Disconnect);
    if w :| w in s.open && s.current != Some(w) {
      es := [];
      assert w in s'.open;
    } else if w :| w in s.connecting {
      es := [Opened(w, true)];
      Unfold(s', es);
      assert w in Exec(s', es).open;
    } else if s.attempts > 0 {
      es := [MicGranted, Opened(s.made, true)];
      var s1 := Step(s', MicGranted);
      Unfold(s', es);
      Unfold(s1, es[1..]);
      assert s.made in s1.connecting;
      assert s.made in Exec(s', es).open;
    } else {
      assert s'.open == {} && s'.connecting == {};
      if s.timers > 0 {
        es := TimerBringsUp(s');
      } else {
        var a, b :| a in s.open + s.closing && b in s.open + s.closing && a != b;
        assert a in s'.closing && b in s'.closing;
        es := ClosesBringUp(s', a, b);
      }
    }
  }

  lemma FinalIsWinding(s: State)
    requires NothingElseUnderWay(s)
    ensures Winding(Step(s, Disconnect))
  {
    assert Step(s, Disconnect).closing <= s.open + s.closing;
  }

  lemma FinalIff(s: State)
    requires WellFormed(s)
    ensures StaysOffline(Step(s, Disconnect)) <==> NothingElseUnderWay(s)
  {
    if NothingElseUnderWay(s) {
      var s' := Step(s, Disconnect);
      FinalIsWinding(s);
      forall es | Unattended(es)
        ensures Exec(s', es).open == {}
      {
        WindingIsKept(s', es);
      }
    } else {
      var es := BackOnline(s);
    }
  }

  /**
   The exact condition, in every reachable state, for the user's disconnect to be final. In particular it is not final
   during a backoff, while the microphone prompt is up, or while the socket is still connecting.
   */
  lemma DisconnectIsFinalIff(es: seq<Event>)
    ensures StaysOffline(Exec(Initial, es + [Disconnect])) <==> NothingElseUnderWay(Exec(Initial, es))
  {
    var run := es + [Disconnect];
    assert run[..|run| - 1] == es;
    AlwaysWellFormed(es);
    FinalIff(Exec(Initial, es));
  }

  /** All three cases occur. First, during the microphone prompt. */
  lemma NotFinalDuringPrompt()
    ensures !StaysOffline(Exec(Initial, [Connect, Disconnect]))
  {
    Unfold(Initial, [Connect]);
    DisconnectIsFinalIff([Connect]);
    assert [Connect] + [Disconnect] == [Connect, Disconnect];
  }

  /** The user connects and grants the microphone. */
  lemma ConnectMakesSocket(s: State)
    requires !AlreadyConnected(s)
    ensures Exec(s, [Connect, MicGranted]) ==
      s.(count := 0, delays := [], intentional := false, display := Connecting, connecting := s.connecting + {s.made},
         current := Some(s.made), made := s.made + 1)
  {
    hide Exec, IsFatal;
    TwoSteps(s, Connect, MicGranted);
  }

  lemma FirstSocket()
    ensures Exec(Initial, [Connect, MicGranted]) == AfterCycles(0)
  {
    hide Exec;
    ConnectMakesSocket(Initial);
  }

  lemma TwoSteps(s: State, a: Event, b: Event)
    ensures Exec(s, [a, b]) == Step(Step(s, a), b)
  {
    hide Step;
    var es := [a, b];
    assert es[..1] == [a] && [a][..0] == [];
    assert Exec(s, [a]) == Step(s, a);
  }

  /** While the socket is still connecting. */
  lemma NotFinalWhileConnecting()
    ensures !StaysOffline(Exec(Initial, [Connect, MicGranted, Disconnect]))
  {
    hide Exec, StaysOffline;
    FirstSocket();
    DisconnectIsFinalIff([Connect, MicGranted]);
    assert [Connect, MicGranted] + [Disconnect] == [Connect, MicGranted, Disconnect];
  }

  /** And during a backoff. */
  lemma NotFinalDuringBackoff()
    ensures !StaysOffline(Exec(Initial, [Connect, MicGranted, Opened(0, true), Closed(0), Disconnect]))
  {
    hide Exec, IsFatal, StaysOffline;
    var up, down := [Connect, MicGranted], [Opened(0, true), Closed(0)];
    FirstSocket();
    ExecSplit(Initial, up, down);
    TwoSteps(Exec(Initial, up), Opened(0, true), Closed(0));
    assert Exec(Initial, up + down).timers == 1;
    DisconnectIsFinalIff(up + down);
    assert up + down + [Disconnect] == [Connect, MicGranted, Opened(0, true), Closed(0), Disconnect];
  }

  lemma {:induction false} ExecSplit(s: State, a: seq<Event>, b: seq<Event>)
    ensures Exec(s, a + b) == Exec(Exec(s, a), b)
  {
    hide Step;
    if b == [] {
      assert a + b == a;
    } else {
      ExecSplit(s, a, b[..|b| - 1]);
      assert (a + b)[..|a + b| - 1] == a + b[..|b| - 1];
    }
  }

  // ---------- One connection at a time ----------

  function Sockets(s: State): set<nat> {
    s.connecting + s.open + s.closing
  }

  /** At most one of: a timer, a microphone prompt, a socket that is not closed; and the socket is the current one. */
  ghost predicate Single(s: State) {
    && s.timers + s.attempts <= 1
    && (s.timers + s.attempts == 1 ==> Sockets(s) == {})
    && AtMostOne(Sockets(s))
    && (forall w :: w in s.connecting ==> s.current == Some(w))
    && (forall w :: w in s.open ==> s.current == Some(w))
  }

  /** Connecting during a backoff, a prompt or a close in progress makes room for a second connection. */
  predicate Doubles(s: State, e: Event) {
    e == Connect && (s.timers + s.attempts > 0 || s.closing != {})
  }

  lemma ConnectDoublesIff(s: State)
    requires WellFormed(s) && Single(s)
    ensures Single(Step(s, Connect)) <==> !Doubles(s, Connect)
  {
    var s' := Step(s, Connect);
    assert Sockets(s') == Sockets(s);
    if w :| w in s.closing {
      assert w in Sockets(s);
      assert !AlreadyConnected(s);
    } else if AlreadyConnected(s) {
      assert s.current.value in Sockets(s);
    } else {
      assert Sockets(s) == {};
    }
  }

  lemma SocketStepIsSingle(s: State, e: Event)
    requires WellFormed(s) && Single(s) && Enabled(s, e)
    requires e.Closed? || e.Opened? || e.MicGranted?
    ensures Single(Step(s, e))
  {
    var s' := Step(s, e);
    match e
    case Closed(w) =>
      assert w in Sockets(s);
      assert Sockets(s') == {};
    case Opened(w, _) =>
      assert w in Sockets(s);
      assert Sockets(s') == Sockets(s);
      assert forall x :: x in s.connecting ==> x in Sockets(s);
      assert forall x :: x in s.open ==> x in Sockets(s);
    case MicGranted =>
      assert Sockets(s) == {} && Sockets(s') == {s.made};
      assert forall x :: x in s.connecting ==> x in Sockets(s);
      assert forall x :: x in s.open ==> x in Sockets(s);
  }

  lemma OtherStepIsSingle(s: State, e: Event)
    requires WellFormed(s) && Single(s) && Enabled(s, e)
    requires e.Disconnect? || e.TimerFired? || e.MicDenied? || e.ResumeRejected? || e.ErrorMessage?
    ensures Single(Step(s, e))
  {
    assert Sockets(Step(s, e)) == Sockets(s);
  }

  /** While there is at most one connection under way, exactly those connects break that, and no other event does. */
  lemma SingleStepIff(s: State, e: Event)
    requires WellFormed(s) && Single(s)
    ensures Single(Step(s, e)) <==> !Doubles(s, e)
  {
    if e.Connect? {
      ConnectDoublesIff(s);
    } else if Enabled(s, e) {
      if e.Closed? || e.Opened? || e.MicGranted? {
        SocketStepIsSingle(s, e);
      } else {
        OtherStepIsSingle(s, e);
      }
    }
  }

  predicate NoDoubling(s: State, es: seq<Event>) {
    es == [] || (NoDoubling(s, es[..|es| - 1]) && !Doubles(Exec(s, es[..|es| - 1]), es[|es| - 1]))
  }

  lemma {:induction false} SingleIsKept(s: State, es: seq<Event>)
    requires WellFormed(s) && Single(s) && NoDoubling(s, es)
    ensures WellFormed(Exec(s, es)) && Single(Exec(s, es))
  {
    hide Step, WellFormed, Single, Doubles;
    if es != [] {
      var before, e := Exec(s, es[..|es| - 1]), es[|es| - 1];
      SingleIsKept(s, es[..|es| - 1]);
      SingleStepIff(before, e);
      WellFormedStep(before, e);
    }
  }

  /** On every run without such a connect there is never more than one timer, prompt or socket. */
  lemma SingleOnRuns(es: seq<Event>)
    requires NoDoubling(Initial, es)
    ensures Single(Exec(Initial, es))
  {
    InitialIsWellFormed();
    SingleIsKept(Initial, es);
  }

  lemma {:induction false} UnattendedDoesNotDouble(s: State, es: seq<Event>)
    requires Unattended(es)
    ensures NoDoubling(s, es)
  {
    if es != [] {
      UnattendedDoesNotDouble(s, es[..|es| - 1]);
      assert !es[|es| - 1].Connect?;
    }
  }

  /** Two attempts past the guard make two sockets, and both open. */
  lemma TwoAttemptsTwoSockets(s: State) returns (es: seq<Event>)
    requires s.attempts >= 2
    ensures Unattended(es) && |es| == 4 && {s.made, s.made + 1} <= Exec(s, es).open
  {
    hide Exec, IsFatal;
    var granted, ups := [MicGranted, MicGranted], [Opened(s.made, true), Opened(s.made + 1, true)];
    TwoSteps(s, MicGranted, MicGranted);
    TwoSteps(Exec(s, granted), Opened(s.made, true), Opened(s.made + 1, true));
    ExecSplit(s, granted, ups);
    es := granted + ups;
  }

  /** A timer beside an attempt, with no socket yet, makes a second attempt. */
  lemma TimerDoubles(s: State) returns (es: seq<Event>)
    requires s.attempts >= 1 && s.timers >= 1 && Sockets(s) == {}
    ensures Unattended(es) && {s.made, s.made + 1} <= Exec(s, es).open
  {
    var s1 := Step(s, TimerFired);
    assert s.connecting <= Sockets(s) && s.open <= Sockets(s);
    var more := TwoAttemptsTwoSockets(s1);
    es := [TimerFired] + more;
    Unfold(s, es);
    assert es[1..] == more;
  }

  /** After such a connect the environment alone brings up two sockets at once. */
  lemma DoublingOpensTwo(s: State, e: Event) returns (es: seq<Event>)
    requires WellFormed(s) && Single(s) && Doubles(s, e)
    ensures Unattended(es) && !AtMostOne(Exec(Step(s, e), es).open)
  {
    var s' := Step(s, e);
    assert s.closing <= Sockets(s);
    var base := s'.made;
    if w :| w in s.closing {
      assert w in Sockets(s) && Sockets(s) == {w};
      assert !AlreadyConnected(s);
      var s1 := Step(s', Closed(w));
      assert Sockets(s1) == {};
      var more := TimerDoubles(s1);
      es := [Closed(w)] + more;
      Unfold(s', es);
      assert es[1..] == more;
    } else if s.timers > 0 {
      es := TimerDoubles(s');
    } else {
      es := TwoAttemptsTwoSockets(s');
    }
    assert {base, base + 1} <= Exec(s', es).open;
    assert base in Exec(s', es).open && base + 1 in Exec(s', es).open;
  }

  /** No continuation without further such connects ever has two sockets open. */
  ghost predicate OneSocket(s: State) {
    forall es :: NoDoubling(s, es) ==> AtMostOne(Exec(s, es).open)
  }

  lemma SingleIsOneSocket(s: State)
    requires WellFormed(s) && Single(s)
    ensures OneSocket(s)
  {
    forall es | NoDoubling(s, es)
      ensures AtMostOne(Exec(s, es).open)
    {
      SingleIsKept(s, es);
      assert Exec(s, es).open <= Sockets(Exec(s, es));
    }
  }

  /**
   The exact condition for a single connection: after a run that kept to one, there is never more than one open socket
   again if and only if the next event is not a connect during a backoff, a prompt or a close in progress.
   */
  lemma SingleConnectionIff(es: seq<Event>, e: Event)
    requires NoDoubling(Initial, es)
    ensures OneSocket(Exec(Initial, es + [e])) <==> !Doubles(Exec(Initial, es), e)
  {
    hide Step, WellFormed, Single, Doubles;
    var run, s := es + [e], Exec(Initial, es);
    assert run[..|run| - 1] == es;
    InitialIsWellFormed();
    SingleIsKept(Initial, es);
    if Doubles(s, e) {
      var more := DoublingOpensTwo(s, e);
      UnattendedDoesNotDouble(Step(s, e), more);
    } else {
      SingleStepIff(s, e);
      WellFormedStep(s, e);
      SingleIsOneSocket(Step(s, e));
    }
  }
}
