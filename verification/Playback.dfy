/**
 The audio playback queue of the voice session and the barge-in detector that stops it
 (frontend/lib/useVoiceSession.ts).

 The refs the hook mutates are the fields of class `Player`; every callback that the browser
 can deliver is one of its methods. `playNextChunk` awaits between taking a chunk and starting
 it, so those are two separate steps. Each method is proved against `Step`, and the theorems
 are about `Exec`, the effect of an arbitrary sequence of events.
 */
module Playback {
  import opened Options

  /** The session states of the hook. */
  datatype SessionState = Idle | Connecting | Reconnecting | Listening | Processing | Speaking | Error

  /** Why a received chunk left the machine. */
  datatype Fate = Finished | Failed | Interrupted | Dropped

  datatype Retirement = Retirement(chunk: nat, fate: Fate)

  /**
   The refs of the hook together with what the browser still owes it.
   A chunk is named by its place in the order of arrival.
   */
  datatype State = State(
    hasContext: bool,               // audioContextRef is set
    queue: seq<nat>,                // audioQueueRef
    playing: bool,                  // playingRef
    active: Option<nat>,            // activeSourceRef
    stateRef: SessionState,         // stateRef
    bargeIn: nat,                   // bargeInCountRef
    pending: set<nat>,              // chunks taken from the queue whose decoding is awaited
    live: set<nat>,                 // sources started, not stopped, whose onended is still to come
    stale: set<nat>,                // sources stopped, whose onended is still to come
    received: nat,                  // number of chunks received
    retired: seq<Retirement>        // history: chunks that are done with, in order
  )

  const Initial := State(false, [], false, None, Idle, 0, {}, {}, {}, 0, [])

  datatype Event =
    | ContextCreated                // _connectInternal made the AudioContext
    | AudioChunk                    // an audio_chunk message
    | Decoded(chunk: nat)           // the awaited decoding succeeded and the source was started
    | PlayFailed(chunk: nat, late: bool)  // the try block threw; late: after the state was set
    | Ended(chunk: nat)             // onended of a source
    | Tick(average: real)           // one VAD interval with this mean amplitude
    | BackendState(state: SessionState)   // a session_state message

  const BARGE_IN_AMPLITUDE := 80.0
  const BARGE_IN_FRAME_COUNT := 3

  // ---------- The code ----------

  /** What the browser can deliver; messages arrive only once the context exists. */
  predicate Enabled(s: State, e: Event) {
    match e
    case AudioChunk => s.hasContext
    case Decoded(c) => c in s.pending
    case PlayFailed(c, _) => c in s.pending
    case Ended(c) => c in s.live + s.stale
    case _ => true
  }

  /** playNextChunk up to its first await. */
  function PlayNext(s: State): State {
    if s.playing || |s.queue| == 0 || !s.hasContext then s
    else s.(playing := true, queue := s.queue[1..], pending := s.pending + {s.queue[0]})
  }

  /** enqueueAudio. */
  function Enqueue(s: State): State {
    PlayNext(s.(queue := s.queue + [s.received], received := s.received + 1))
  }

  function Retire(chunks: seq<nat>, fate: Fate): seq<Retirement> {
    seq(|chunks|, i requires 0 <= i < |chunks| => Retirement(chunks[i], fate))
  }

  /** stopAudioPlayback. */
  function Stop(s: State): State {
    var cut := match s.active case None => [] case Some(a) => [a];
    s.(queue := [], active := None, playing := false,
       live := s.live - (set c | c in cut), stale := s.stale + (set c | c in cut),
       retired := s.retired + Retire(cut, Interrupted) + Retire(s.queue, Dropped))
  }

  /** A tick that counts towards a barge-in. */
  predicate LoudWhileSpeaking(s: State, e: Event) {
    e.Tick? && s.stateRef == Speaking && e.average > BARGE_IN_AMPLITUDE
  }

  /** The tick that stops playback. */
  predicate Fires(s: State, e: Event) {
    LoudWhileSpeaking(s, e) && s.bargeIn + 1 >= BARGE_IN_FRAME_COUNT
  }

  /** One event. An event the browser cannot deliver now has no effect. */
  function Step(s: State, e: Event): State {
    if !Enabled(s, e) then s else
    match e
    case ContextCreated => s.(hasContext := true)
    case AudioChunk => Enqueue(s)
    case Decoded(c) =>
      s.(pending := s.pending - {c}, live := s.live + {c}, active := Some(c), stateRef := Speaking)
    case PlayFailed(c, late) =>
      PlayNext(s.(pending := s.pending - {c}, active := None, playing := false,
                  stateRef := if late then Speaking else s.stateRef,
                  retired := s.retired + [Retirement(c, Failed)]))
    case Ended(c) =>
      PlayNext(s.(live := s.live - {c}, stale := s.stale - {c}, active := None, playing := false,
                  stateRef := if |s.queue| == 0 then Listening else s.stateRef,
                  retired := s.retired + if c in s.live then [Retirement(c, Finished)] else []))
    case Tick(_) =>
      if Fires(s, e) then Stop(s).(bargeIn := 0)
      else if LoudWhileSpeaking(s, e) then s.(bargeIn := s.bargeIn + 1)
      else s.(bargeIn := 0)
    case BackendState(st) => if st == Speaking then s else s.(stateRef := st)
  }

  /** A whole run. */
  function Exec(s: State, es: seq<Event>): State {
    if es == [] then s else Step(Exec(s, es[..|es| - 1]), es[|es| - 1])
  }

  /** The hook's mutable refs. The last five fields are the browser's obligations and the history. */
  class Player {
    var hasContext: bool
    var queue: seq<nat>
    var playing: bool
    var active: Option<nat>
    var stateRef: SessionState
    var bargeIn: nat
    var pending: set<nat>
    var live: set<nat>
    var stale: set<nat>
    var received: nat
    var retired: seq<Retirement>

    ghost function View(): State
      reads this
    {
      State(hasContext, queue, playing, active, stateRef, bargeIn, pending, live, stale, received, retired)
    }

    constructor ()
      ensures View() == Initial
    {
      hasContext, queue, playing, active, stateRef, bargeIn := false, [], false, None, Idle, 0;
      pending, live, stale, received, retired := {}, {}, {}, 0, [];
    }

    method CreateContext()
      modifies this
      ensures View() == Step(old(View()), ContextCreated)
    {
      hasContext := true;
    }

    method PlayNextChunk()
      modifies this
      ensures View() == PlayNext(old(View()))
    {
      if playing || |queue| == 0 {
        return;
      }
      if !hasContext {
        return;
      }
      playing := true;
      var buf := queue[0];
      queue := queue[1..];
      pending := pending + {buf};
    }

    method EnqueueAudio()
      modifies this
      ensures View() == Enqueue(old(View()))
    {
      queue := queue + [received];
      received := received + 1;
      PlayNextChunk();
    }

    method StartDecoded(chunk: nat)
      requires chunk in pending
      modifies this
      ensures View() == Step(old(View()), Decoded(chunk))
    {
      pending := pending - {chunk};
      active := Some(chunk);
      stateRef := Speaking;
      live := live + {chunk};
    }

    method OnPlayFailed(chunk: nat, late: bool)
      requires chunk in pending
      modifies this
      ensures View() == Step(old(View()), PlayFailed(chunk, late))
    {
      pending := pending - {chunk};
      if late {
        stateRef := Speaking;
      }
      retired := retired + [Retirement(chunk, Failed)];
      active := None;
      playing := false;
      PlayNextChunk();
    }

    method OnEnded(chunk: nat)
      requires chunk in live + stale
      modifies this
      ensures View() == Step(old(View()), Ended(chunk))
    {
      if chunk in live {
        retired := retired + [Retirement(chunk, Finished)];
      }
      live := live - {chunk};
      stale := stale - {chunk};
      active := None;
      playing := false;
      if |queue| == 0 {
        stateRef := Listening;
      }
      PlayNextChunk();
    }

    method StopAudioPlayback()
      modifies this
      ensures View() == Stop(old(View()))
    {
      var dropped := queue;
      queue := [];
      if active.Some? {
        live := live - {active.value};
        stale := stale + {active.value};
        retired := retired + [Retirement(active.value, Interrupted)];
        active := None;
      }
      retired := retired + Retire(dropped, Dropped);
      playing := false;
    }

    /** One VAD interval; the result says whether an interrupt message goes to the backend. */
    method VadTick(average: real, socketOpen: bool) returns (interrupt: bool)
      modifies this
      ensures View() == Step(old(View()), Tick(average))
      ensures interrupt == (Fires(old(View()), Tick(average)) && socketOpen)
    {
      interrupt := false;
      if stateRef == Speaking {
        if average > BARGE_IN_AMPLITUDE {
          bargeIn := bargeIn + 1;
          if bargeIn >= BARGE_IN_FRAME_COUNT {
            bargeIn := 0;
            StopAudioPlayback();
            interrupt := socketOpen;
          }
        } else {
          bargeIn := 0;
        }
      } else {
        bargeIn := 0;
      }
    }

    /** A session_state message; `None` is time_limit_reached, which only makes the session end. */
    method OnSessionState(message: Option<SessionState>) returns (timeLimit: bool)
      modifies this
      ensures timeLimit == message.None?
      ensures View() == if message.Some? then Step(old(View()), BackendState(message.value)) else old(View())
    {
      timeLimit := message.None?;
      if timeLimit {
        return;
      }
      if message.value != Speaking {
        stateRef := message.value;
      }
    }
  }

  // ---------- Coherent states and the two hazards ----------

  /**
   Chunk number |retired| is the one in flight, everything before it is done with in order of arrival,
   everything after it is queued in order of arrival, and `playing` says whether there is one.
   */
  ghost predicate Coherent(s: State) {
    var c := |s.retired|;
    && (forall i :: 0 <= i < c ==> s.retired[i].chunk == i)
    && c + (if s.playing then 1 else 0) + |s.queue| == s.received
    && (forall i :: 0 <= i < |s.queue| ==> s.queue[i] == c + 1 + i)
    && (if s.playing then
          || (s.pending == {c} && s.live == {} && s.active == None)
          || (s.pending == {} && s.live == {c} && s.active == Some(c))
        else s.pending == {} && s.live == {} && s.active == None && s.queue == [])
    && (forall x :: x in s.stale ==> x < c)
    && (s.received > 0 ==> s.hasContext)
  }

  /**
   The two steps after which `playing` no longer tells the truth: a barge-in while a chunk is between
   being taken and being started, and a late onended of a stopped source while another chunk is in flight.
   */
  predicate Hazard(s: State, e: Event) {
    || (Fires(s, e) && s.pending != {})
    || (e.Ended? && e.chunk in s.stale && s.pending + s.live != {})
  }

  predicate HazardFree(s: State, es: seq<Event>) {
    es == [] ||
    (HazardFree(s, es[..|es| - 1]) && !Hazard(Exec(s, es[..|es| - 1]), es[|es| - 1]))
  }

  lemma ArrivalIsCoherent(s: State)
    requires Coherent(s)
    ensures Coherent(Step(s, AudioChunk))
  {
  }

  lemma FailureIsCoherent(s: State, c: nat, late: bool)
    requires Coherent(s)
    ensures Coherent(Step(s, PlayFailed(c, late)))
  {
  }

  lemma EndedIsCoherentIff(s: State, c: nat)
    requires Coherent(s)
    ensures Coherent(Step(s, Ended(c))) <==> !Hazard(s, Ended(c))
  {
  }

  lemma TickIsCoherentIff(s: State, average: real)
    requires Coherent(s)
    ensures Coherent(Step(s, Tick(average))) <==> !Hazard(s, Tick(average))
  {
  }

  lemma DecodedIsCoherent(s: State, c: nat)
    requires Coherent(s)
    ensures Coherent(Step(s, Decoded(c)))
  {
  }

  /** Exactly the hazards break coherence. */
  lemma CoherentStepIff(s: State, e: Event)
    requires Coherent(s)
    ensures Coherent(Step(s, e)) <==> !Hazard(s, e)
  {
    match e
    case AudioChunk => ArrivalIsCoherent(s);
    case PlayFailed(c, late) => FailureIsCoherent(s, c, late);
    case Ended(c) => EndedIsCoherentIff(s, c);
    case Tick(average) => TickIsCoherentIff(s, average);
    case Decoded(c) => DecodedIsCoherent(s, c);
    case ContextCreated =>
    case BackendState(_) =>
  }

  lemma {:induction false} HazardFreeIsCoherent(s: State, es: seq<Event>)
    requires Coherent(s) && HazardFree(s, es)
    ensures Coherent(Exec(s, es))
  {
    if es != [] {
      HazardFreeIsCoherent(s, es[..|es| - 1]);
      CoherentStepIff(Exec(s, es[..|es| - 1]), es[|es| - 1]);
    }
  }

  function Chunks(rs: seq<Retirement>): seq<nat> {
    seq(|rs|, i requires 0 <= i < |rs| => rs[i].chunk)
  }

  /** The chunk between the retired ones and the queued ones. */
  function InFlight(s: State): seq<nat> {
    if s.playing then [|s.retired|] else []
  }

  /**
   Conservation and exclusion on every run without a hazard: the chunks received are those done with,
   then the one in flight, then the queue, in order of arrival; at most one source sounds; and a chunk
   waits only while another is in flight.
   */
  lemma {:induction false} PlaybackSafety(es: seq<Event>)
    requires HazardFree(Initial, es)
    ensures var s := Exec(Initial, es);
      && Chunks(s.retired) + InFlight(s) + s.queue == seq(s.received, i => i)
      && s.pending + s.live == (set c | c in InFlight(s))
      && s.pending !! s.live && |s.live| <= 1
      && (s.queue != [] ==> s.pending + s.live != {})
  {
    HazardFreeIsCoherent(Initial, es);
  }

  /** A continuation after which two sources sound at once, whatever hazard step `e` was. */
  lemma HazardOverlaps(s: State, e: Event) returns (more: seq<Event>, a: nat, b: nat)
    requires Coherent(s) && Hazard(s, e)
    ensures var s' := Step(s, e);
      HazardFree(s', more) && a != b && {a, b} <= Exec(s', more).live
  {
    var s' := Step(s, e);
    a := |s.retired|;
    if |s.queue| > 0 && e.Ended? {
      b := a + 1;
      more := if a in s.live then [Decoded(b)] else [Decoded(a), Decoded(b)];
    } else {
      b := s.received;
      more := if a in s.live then [AudioChunk, Decoded(b)] else [AudioChunk, Decoded(a), Decoded(b)];
    }
    Unfold3(s', more);
  }

  /** Exec and HazardFree of a short run, front to back. */
  lemma Unfold3(s: State, es: seq<Event>)
    requires 1 <= |es| <= 3
    ensures var s1 := Step(s, es[0]);
      var s2 := if |es| > 1 then Step(s1, es[1]) else s1;
      && Exec(s, es) == (if |es| > 2 then Step(s2, es[2]) else s2)
      && (HazardFree(s, es) <==>
           && !Hazard(s, es[0])
           && (|es| > 1 ==> !Hazard(s1, es[1]))
           && (|es| > 2 ==> !Hazard(s2, es[2])))
  {
    assert es[..1] == [es[0]] && es[..1][..0] == [];
    if |es| > 1 {
      assert es[..2][..1] == es[..1];
      assert |es| > 2 ==> es[..3] == es;
      assert |es| == 2 ==> es[..2] == es;
    } else {
      assert es[..1] == es;
    }
  }

  /** No continuation free of further hazards ever has two sources sounding. */
  ghost predicate Exclusive(s: State) {
    forall es :: HazardFree(s, es) ==> |Exec(s, es).live| <= 1
  }

  lemma CoherentIsExclusive(s: State)
    requires Coherent(s)
    ensures Exclusive(s)
  {
    forall es | HazardFree(s, es)
      ensures |Exec(s, es).live| <= 1
    {
      HazardFreeIsCoherent(s, es);
    }
  }

  lemma HazardIsNotExclusive(s: State, e: Event)
    requires Coherent(s) && Hazard(s, e)
    ensures !Exclusive(Step(s, e))
  {
    var more, a, b := HazardOverlaps(s, e);
    assert |{a, b}| == 2;
    SubsetSize({a, b}, Exec(Step(s, e), more).live);
  }

  /**
   The exact condition for mutual exclusion: from a coherent state playback stays exclusive after `e`
   if and only if `e` is not one of the two hazards.
   */
  lemma ExclusionIff(s: State, e: Event)
    requires Coherent(s)
    ensures Exclusive(Step(s, e)) <==> !Hazard(s, e)
  {
    if Hazard(s, e) {
      HazardIsNotExclusive(s, e);
    } else {
      CoherentStepIff(s, e);
      CoherentIsExclusive(Step(s, e));
    }
  }

  lemma {:induction false} SubsetSize(a: set<nat>, b: set<nat>)
    requires a <= b
    ensures |a| <= |b|
  {
    if a != {} {
      var x :| x in a;
      SubsetSize(a - {x}, b - {x});
    }
  }

  lemma {:induction false} ExecSplit(s: State, a: seq<Event>, b: seq<Event>)
    ensures Exec(s, a + b) == Exec(Exec(s, a), b)
  {
    if b == [] {
      assert a + b == a;
    } else {
      ExecSplit(s, a, b[..|b| - 1]);
      assert (a + b)[..|a + b| - 1] == a + b[..|b| - 1];
    }
  }

  /** Two chunks arrive, the first plays and the user starts to speak. */
  lemma BeforeInterrupt()
    ensures Exec(Initial, [ContextCreated, AudioChunk, AudioChunk]) ==
      State(true, [1], true, None, Idle, 0, {0}, {}, {}, 2, [])
    ensures Exec(State(true, [1], true, None, Idle, 0, {0}, {}, {}, 2, []), [Decoded(0), Tick(90.0), Tick(90.0)]) ==
      State(true, [1], true, Some(0), Speaking, 2, {}, {0}, {}, 2, [])
  {
    Unfold3(Initial, [ContextCreated, AudioChunk, AudioChunk]);
    Unfold3(State(true, [1], true, None, Idle, 0, {0}, {}, {}, 2, []), [Decoded(0), Tick(90.0), Tick(90.0)]);
  }

  /** The barge-in comes while the second chunk is being decoded. */
  lemma AtInterrupt()
    ensures Exec(State(true, [1], true, Some(0), Speaking, 2, {}, {0}, {}, 2, []), [Ended(0), Tick(90.0)]) ==
      State(true, [], false, None, Speaking, 0, {1}, {}, {}, 2, [Retirement(0, Finished)])
  {
    hide Exec, HazardFree;
    Unfold3(State(true, [1], true, Some(0), Speaking, 2, {}, {0}, {}, 2, []), [Ended(0), Tick(90.0)]);
  }

  /** Then the next answer arrives. */
  lemma AfterInterrupt(s: State)
    requires s.hasContext && s.queue == [] && !s.playing && s.pending == {1} && s.live == {} && s.received == 2
    ensures Exec(s, [AudioChunk, Decoded(1), Decoded(2)]).live == {1, 2}
  {
    hide Exec, HazardFree;
    Unfold3(s, [AudioChunk, Decoded(1), Decoded(2)]);
  }

  /**
   The hazard occurs: a barge-in while the second chunk is being decoded, one more chunk of the next answer,
   and the old chunk sounds together with the new one.
   */
  lemma OverlapIsReachable() returns (run: seq<Event>)
    ensures Exec(Initial, run).live == {1, 2}
  {
    hide Exec;
    var arrive := [ContextCreated, AudioChunk, AudioChunk];
    var speak := [Decoded(0), Tick(90.0), Tick(90.0)];
    var interrupt := [Ended(0), Tick(90.0)];
    var answer := [AudioChunk, Decoded(1), Decoded(2)];
    BeforeInterrupt();
    AtInterrupt();
    AfterInterrupt(State(true, [], false, None, Speaking, 0, {1}, {}, {}, 2, [Retirement(0, Finished)]));
    ExecSplit(Initial, arrive, speak);
    ExecSplit(Initial, arrive + speak, interrupt);
    ExecSplit(Initial, arrive + speak + interrupt, answer);
    run := arrive + speak + interrupt + answer;
  }

  // ---------- Sufficient conditions ----------

  predicate NoBargeIn(s: State, es: seq<Event>) {
    es == [] || (NoBargeIn(s, es[..|es| - 1]) && !Fires(Exec(s, es[..|es| - 1]), es[|es| - 1]))
  }

  predicate NoFailures(es: seq<Event>) {
    forall i :: 0 <= i < |es| ==> !es[i].PlayFailed?
  }

  /**
   Without barge-in there is no hazard, and every chunk done with was played to its end or failed; without failures it
   was played to its end.
   */
  lemma {:induction false} NoBargeInIsSafe(es: seq<Event>)
    requires NoBargeIn(Initial, es)
    ensures HazardFree(Initial, es)
    ensures var s := Exec(Initial, es);
      s.stale == {} && forall r :: r in s.retired ==> r.fate in {Finished, Failed} && (NoFailures(es) ==> r.fate == Finished)
  {
    if es != [] {
      NoBargeInIsSafe(es[..|es| - 1]);
    }
  }

  /** Every barge-in hits a started source, and its onended arrives before the next audio_chunk. */
  predicate PromptStops(s: State, es: seq<Event>) {
    es == [] ||
    var before := Exec(s, es[..|es| - 1]);
    var e := es[|es| - 1];
    && PromptStops(s, es[..|es| - 1])
    && (Fires(before, e) ==> before.pending == {})
    && (e == AudioChunk ==> before.stale == {})
  }

  lemma {:induction false} PromptStopsAreSafe(es: seq<Event>)
    requires PromptStops(Initial, es)
    ensures HazardFree(Initial, es)
    ensures var s := Exec(Initial, es); Coherent(s) && (s.stale != {} ==> !s.playing)
  {
    if es != [] {
      PromptStopsAreSafe(es[..|es| - 1]);
      CoherentStepIff(Exec(Initial, es[..|es| - 1]), es[|es| - 1]);
    }
  }

  // ---------- What a barge-in silences ----------

  /**
   Holds in every reachable state, coherent or not: the queue holds the latest arrivals, the rest came before, and
   nothing waits unless the browser owes a callback.
   */
  ghost predicate WellFormed(s: State) {
    && s.pending !! s.live !! s.stale
    && (s.active.Some? ==> s.active.value in s.live)
    && |s.queue| <= s.received
    && (forall i :: 0 <= i < |s.queue| ==> s.queue[i] == s.received - |s.queue| + i)
    && (forall c :: c in s.pending ==> c < s.received - |s.queue|)
    && (forall c :: c in s.live ==> c < s.received - |s.queue|)
    && (forall c :: c in s.stale ==> c < s.received - |s.queue|)
    && (s.received > 0 ==> s.hasContext)
    && (s.queue != [] ==> s.playing)
    && (s.playing ==> Owed(s) != {})
  }

  /** The chunks for which the browser has a callback to deliver. */
  function Owed(s: State): set<nat> {
    s.pending + s.live + s.stale
  }

  lemma WellFormedStop(s: State)
    requires WellFormed(s)
    ensures WellFormed(Stop(s))
  {
  }

  lemma WellFormedEnded(s: State, c: nat)
    requires WellFormed(s)
    ensures WellFormed(Step(s, Ended(c)))
  {
  }

  lemma WellFormedFailed(s: State, c: nat, late: bool)
    requires WellFormed(s)
    ensures WellFormed(Step(s, PlayFailed(c, late)))
  {
  }

  lemma WellFormedDecoded(s: State, c: nat)
    requires WellFormed(s)
    ensures WellFormed(Step(s, Decoded(c)))
  {
  }

  lemma WellFormedTick(s: State, average: real)
    requires WellFormed(s)
    ensures WellFormed(Step(s, Tick(average)))
  {
    WellFormedStop(s);
  }

  lemma WellFormedArrival(s: State)
    requires WellFormed(s)
    ensures WellFormed(Step(s, AudioChunk))
  {
  }

  lemma WellFormedStep(s: State, e: Event)
    requires WellFormed(s)
    ensures WellFormed(Step(s, e))
  {
    match e
    case AudioChunk => WellFormedArrival(s);
    case Tick(average) => WellFormedTick(s, average);
    case Ended(c) => WellFormedEnded(s, c);
    case PlayFailed(c, late) => WellFormedFailed(s, c, late);
    case Decoded(c) => WellFormedDecoded(s, c);
    case ContextCreated =>
    case BackendState(_) =>
  }

  lemma {:induction false} AlwaysWellFormed(s: State, es: seq<Event>)
    requires WellFormed(s)
    ensures WellFormed(Exec(s, es))
  {
    if es != [] {
      AlwaysWellFormed(s, es[..|es| - 1]);
      WellFormedStep(Exec(s, es[..|es| - 1]), es[|es| - 1]);
    }
  }

  /** Chunks that can still start all arrived at or after `n`. */
  ghost predicate OnlyFrom(s: State, n: nat) {
    && s.received >= n
    && (forall c :: c in s.pending ==> c >= n)
    && (forall i :: 0 <= i < |s.queue| ==> s.queue[i] >= n)
  }

  lemma OnlyFromStep(s: State, e: Event, n: nat)
    requires OnlyFrom(s, n)
    ensures OnlyFrom(Step(s, e), n)
    ensures forall c :: c in Step(s, e).live && c < n ==> c in s.live
  {
  }

  lemma {:induction false} OnlyFromIsKept(s: State, es: seq<Event>, n: nat)
    requires OnlyFrom(s, n)
    ensures OnlyFrom(Exec(s, es), n)
    ensures forall c :: c in Exec(s, es).live && c < n ==> c in s.live
  {
    hide Step;
    if es != [] {
      OnlyFromIsKept(s, es[..|es| - 1], n);
      OnlyFromStep(Exec(s, es[..|es| - 1]), es[|es| - 1], n);
    }
  }

  function ActiveSources(s: State): set<nat> {
    if s.active.Some? then {s.active.value} else {}
  }

  /**
   From a well-formed state, coherent or not, a barge-in silences everything received before it if and only if no chunk
   was between being taken and being started, and the source it stops is the only one sounding.
   */
  lemma SilencesIff(s: State, tick: Event)
    requires WellFormed(s) && Fires(s, tick)
    ensures (forall es, c :: c in Exec(Step(s, tick), es).live ==> c >= s.received)
            <==> s.pending == {} && s.live == ActiveSources(s)
  {
    var s' := Step(s, tick);
    var stopped := ActiveSources(s);
    assert s'.live == s.live - stopped;
    if s.pending == {} && s.live == stopped {
      forall es, c | c in Exec(s', es).live
        ensures c >= s.received
      {
        OnlyFromIsKept(s', es, s.received);
      }
    } else if s.pending != {} {
      var c :| c in s.pending;
      Unfold3(s', [Decoded(c)]);
      assert c in Exec(s', [Decoded(c)]).live;
    } else {
      assert stopped <= s.live;
      assert s.live - stopped != {};
      var c :| c in s.live - stopped;
      Unfold3(s', [ContextCreated]);
      assert c in s.live;
      assert c in Exec(s', [ContextCreated]).live;
    }
  }

  /** The exact condition, after any run, for a barge-in to silence everything received before it for good. */
  lemma StopSilencesIff(es: seq<Event>, tick: Event)
    requires Fires(Exec(Initial, es), tick)
    ensures var s := Exec(Initial, es);
      (forall more, c :: c in Exec(Step(s, tick), more).live ==> c >= s.received)
      <==> s.pending == {} && s.live == ActiveSources(s)
  {
    AlwaysWellFormed(Initial, es);
    SilencesIff(Exec(Initial, es), tick);
  }

  /** Chunk `c` was received and is neither waiting, nor being decoded, nor sounding. */
  predicate Gone(s: State, c: nat) {
    c < s.received && c !in s.queue && c !in s.pending && c !in s.live
  }

  lemma GoneStep(s: State, e: Event, c: nat)
    requires Gone(s, c)
    ensures Gone(Step(s, e), c)
  {
  }

  lemma {:induction false} GoneForGood(s: State, es: seq<Event>, c: nat)
    requires Gone(s, c)
    ensures Gone(Exec(s, es), c)
  {
    hide Step;
    if es != [] {
      GoneForGood(s, es[..|es| - 1], c);
      GoneStep(Exec(s, es[..|es| - 1]), es[|es| - 1], c);
    }
  }

  /** Without any side condition: after any run, a chunk that is still queued at a barge-in is dropped and never sounds. */
  lemma QueuedChunksNeverSound(es: seq<Event>, tick: Event, c: nat, more: seq<Event>)
    requires Fires(Exec(Initial, es), tick) && c in Exec(Initial, es).queue
    ensures Retirement(c, Dropped) in Step(Exec(Initial, es), tick).retired
    ensures c !in Exec(Step(Exec(Initial, es), tick), more).live
  {
    var s := Exec(Initial, es);
    AlwaysWellFormed(Initial, es);
    var i :| 0 <= i < |s.queue| && s.queue[i] == c;
    assert Retire(s.queue, Dropped)[i] == Retirement(c, Dropped);
    GoneForGood(Step(s, tick), more, c);
  }

  // ---------- The session state ----------

  /**
   The state an event puts the hook in, if it does: a source that starts, or a failure after that, `speaking`; an end with
   nothing queued `listening`; the backend any other.
   */
  function Puts(before: State, e: Event): Option<SessionState> {
    match e
    case Decoded(c) => if c in before.pending then Some(Speaking) else None
    case PlayFailed(c, late) => if c in before.pending && late then Some(Speaking) else None
    case Ended(c) => if c in before.live + before.stale && before.queue == [] then Some(Listening) else None
    case BackendState(st) => if st != Speaking then Some(st) else None
    case ContextCreated => None
    case AudioChunk => None
    case Tick(_) => None
  }

  /** What each event of a run puts the hook in. */
  function AllPuts(es: seq<Event>): seq<Option<SessionState>> {
    if es == [] then [] else
    var n := |es| - 1;
    AllPuts(es[..n]) + [Puts(Exec(Initial, es[..n]), es[n])]
  }

  lemma PutStep(s: State, e: Event)
    ensures Step(s, e).stateRef == if Puts(s, e).Some? then Puts(s, e).value else s.stateRef
  {
  }

  /** After every run the hook is in the state the last such event put it in, and before any in `idle`. */
  lemma {:induction false} StateIsLatestPut(es: seq<Event>)
    ensures Exec(Initial, es).stateRef == Latest(Idle, AllPuts(es))
  {
    hide Step, Puts, Latest;
    if es == [] {
      LatestIs(Idle, []);
    } else {
      var n := |es| - 1;
      StateIsLatestPut(es[..n]);
      PutStep(Exec(Initial, es[..n]), es[n]);
      LatestAppend(Idle, AllPuts(es[..n]), Puts(Exec(Initial, es[..n]), es[n]));
    }
  }

  /** In particular an answer played to its end leaves the hook listening. */
  lemma PlayedAnswerListens(es: seq<Event>, c: nat)
    requires c in Exec(Initial, es).live + Exec(Initial, es).stale && Exec(Initial, es).queue == []
    ensures Exec(Initial, es + [Ended(c)]).stateRef == Listening
  {
    hide Exec, Step;
    var run := es + [Ended(c)];
    assert run[..|es|] == es && run[|es|] == Ended(c);
    StateIsLatestPut(run);
    LatestAppend(Idle, AllPuts(es), Some(Listening));
  }

  /**
   What an event does to the active source: a source that starts takes its place, even after a barge-in; any end, failure or
   barge-in clears it.
   */
  function Activates(before: State, e: Event): Option<Option<nat>> {
    match e
    case Decoded(c) => if c in before.pending then Some(Some(c)) else None
    case PlayFailed(c, _) => if c in before.pending then Some(None) else None
    case Ended(c) => if c in before.live + before.stale then Some(None) else None
    case Tick(_) => if Fires(before, e) then Some(None) else None
    case _ => None
  }

  /** And to the playing flag: a chunk sets it, an end or a failure leaves it set if more is queued, a barge-in clears it. */
  function Plays(before: State, e: Event): Option<bool> {
    match e
    case AudioChunk => if before.hasContext then Some(true) else None
    case PlayFailed(c, _) => if c in before.pending then Some(before.queue != []) else None
    case Ended(c) => if c in before.live + before.stale then Some(before.queue != []) else None
    case Tick(_) => if Fires(before, e) then Some(false) else None
    case _ => None
  }

  function AllActivates(es: seq<Event>): seq<Option<Option<nat>>> {
    if es == [] then [] else
    var n := |es| - 1;
    AllActivates(es[..n]) + [Activates(Exec(Initial, es[..n]), es[n])]
  }

  function AllPlays(es: seq<Event>): seq<Option<bool>> {
    if es == [] then [] else
    var n := |es| - 1;
    AllPlays(es[..n]) + [Plays(Exec(Initial, es[..n]), es[n])]
  }

  lemma ActivatesStep(s: State, e: Event)
    ensures Step(s, e).active == if Activates(s, e).Some? then Activates(s, e).value else s.active
  {
  }

  lemma PlaysStep(s: State, e: Event)
    requires WellFormed(s)
    ensures Step(s, e).playing == if Plays(s, e).Some? then Plays(s, e).value else s.playing
  {
  }

  /** After every run both are as the last such event left them. */
  lemma {:induction false} PlayerIsLatest(es: seq<Event>)
    ensures Exec(Initial, es).active == Latest(None, AllActivates(es))
    ensures Exec(Initial, es).playing == Latest(false, AllPlays(es))
  {
    hide Step, Activates, Plays, Latest, WellFormed;
    if es == [] {
      LatestIs<Option<nat>>(None, []);
      LatestIs(false, []);
    } else {
      var n := |es| - 1;
      var before := Exec(Initial, es[..n]);
      PlayerIsLatest(es[..n]);
      InitialIsWellFormed();
      AlwaysWellFormed(Initial, es[..n]);
      ActivatesStep(before, es[n]);
      PlaysStep(before, es[n]);
      LatestAppend(None, AllActivates(es[..n]), Activates(before, es[n]));
      LatestAppend(false, AllPlays(es[..n]), Plays(before, es[n]));
    }
  }

  lemma InitialIsWellFormed()
    ensures WellFormed(Initial)
  {
  }

  // ---------- The speaking state ----------

  /** The hook believes it is speaking, and the browser owes it no callback. */
  predicate Stuck(s: State) {
    s.stateRef == Speaking && Owed(s) == {}
  }

  lemma StuckStep(s: State, e: Event)
    requires WellFormed(s) && !Stuck(s)
    ensures Stuck(Step(s, e)) <==>
      && e.PlayFailed? && s.pending == {e.chunk} && s.live + s.stale == {} && s.queue == []
      && (s.stateRef == Speaking || e.late)
  {
  }

  /**
   In every reachable state: the session gets stuck in `speaking` exactly at a playback failure of the last chunk the
   browser owed anything for, with nothing queued, when the state was or had just been set to `speaking`.
   */
  lemma StuckIff(es: seq<Event>, e: Event)
    requires !Stuck(Exec(Initial, es))
    ensures var s := Exec(Initial, es);
      Stuck(Step(s, e)) <==>
        && e.PlayFailed? && s.pending == {e.chunk} && s.live + s.stale == {} && s.queue == []
        && (s.stateRef == Speaking || e.late)
  {
    AlwaysWellFormed(Initial, es);
    StuckStep(Exec(Initial, es), e);
  }

  /** Once stuck, the state stays `speaking` on every run without a further chunk or backend state. */
  lemma {:induction false} StuckStays(es: seq<Event>, more: seq<Event>)
    requires Stuck(Exec(Initial, es))
    requires forall i :: 0 <= i < |more| ==> !more[i].AudioChunk? && !more[i].BackendState?
    ensures Stuck(Exec(Exec(Initial, es), more))
    decreases |more|
  {
    if more != [] {
      var init := more[..|more| - 1];
      StuckStays(es, init);
      AlwaysWellFormed(Initial, es);
      AlwaysWellFormed(Exec(Initial, es), init);
      assert !more[|more| - 1].AudioChunk? && !more[|more| - 1].BackendState?;
    }
  }

  lemma LastChunkFails(s: State)
    requires s.hasContext && s.queue == [1] && s.playing && s.pending == {0} && s.live == {} && s.stale == {}
    ensures Stuck(Exec(s, [Decoded(0), Ended(0), PlayFailed(1, false)]))
  {
    hide Exec;
    Unfold3(s, [Decoded(0), Ended(0), PlayFailed(1, false)]);
  }

  /** The last chunk of an answer cannot be decoded. */
  lemma StuckIsReachable() returns (run: seq<Event>)
    ensures run == [ContextCreated, AudioChunk, AudioChunk] + [Decoded(0), Ended(0), PlayFailed(1, false)]
    ensures Stuck(Exec(Initial, run))
  {
    var arrive, play := [ContextCreated, AudioChunk, AudioChunk], [Decoded(0), Ended(0), PlayFailed(1, false)];
    run := arrive + play;
    ExecSplit(Initial, arrive, play);
    BeforeInterrupt();
    hide Exec, Stuck;
    LastChunkFails(State(true, [1], true, None, Idle, 0, {0}, {}, {}, 2, []));
  }

  /**
   Without failures, `speaking` means that the browser owes a callback; without barge-in also that a chunk is in flight.
   */
  lemma {:induction false} SpeakingMeansInFlight(es: seq<Event>)
    requires NoFailures(es)
    ensures !Stuck(Exec(Initial, es))
    ensures NoBargeIn(Initial, es) && Exec(Initial, es).stateRef == Speaking ==> Exec(Initial, es).playing
  {
    hide Step;
    if es != [] {
      SpeakingMeansInFlight(es[..|es| - 1]);
      StuckIff(es[..|es| - 1], es[|es| - 1]);
    }
    if NoBargeIn(Initial, es) {
      NoBargeInIsSafe(es);
      HazardFreeIsCoherent(Initial, es);
    }
  }

  predicate NoBackendStates(es: seq<Event>) {
    forall i :: 0 <= i < |es| ==> !es[i].BackendState?
  }

  /** While a source sounds the hook is in `speaking`, so that a barge-in can be noticed, unless the backend says otherwise. */
  lemma {:induction false} SoundingMeansSpeaking(es: seq<Event>)
    requires HazardFree(Initial, es) && NoBackendStates(es)
    ensures Exec(Initial, es).live != {} ==> Exec(Initial, es).stateRef == Speaking
  {
    if es != [] {
      SoundingMeansSpeaking(es[..|es| - 1]);
      HazardFreeIsCoherent(Initial, es[..|es| - 1]);
      StaysSpeaking(Exec(Initial, es[..|es| - 1]), es[|es| - 1]);
    }
  }

  lemma StaysSpeaking(s: State, e: Event)
    requires Coherent(s) && !Hazard(s, e) && !e.BackendState?
    requires s.live != {} ==> s.stateRef == Speaking
    ensures Step(s, e).live != {} ==> Step(s, e).stateRef == Speaking
  {
  }

  // ---------- Every chunk is done with in the end ----------

  /** How many callbacks the browser can still deliver for the chunks received. */
  function Outstanding(s: State): nat {
    2 * |s.queue| + 2 * |s.pending| + |s.live| + |s.stale|
  }

  predicate IsCallback(e: Event) {
    e.Decoded? || e.PlayFailed? || e.Ended?
  }

  lemma CallbackLowers(s: State, e: Event)
    requires s.pending !! s.live !! s.stale && IsCallback(e) && Enabled(s, e)
    ensures Outstanding(Step(s, e)) < Outstanding(s)
  {
    hide PlayNext;
    if e.PlayFailed? || e.Ended? {
      var c := e.chunk;
      assert |s.live - {c}| + |s.stale - {c}| + 1 == |s.live| + |s.stale| || e.PlayFailed?;
      PlayNextKeeps(s.(pending := s.pending - {c}, active := None, playing := false,
                    stateRef := if e.PlayFailed? && e.late then Speaking else s.stateRef,
                    retired := s.retired + [Retirement(c, Failed)]));
      PlayNextKeeps(s.(live := s.live - {c}, stale := s.stale - {c}, active := None, playing := false,
                    stateRef := if |s.queue| == 0 then Listening else s.stateRef,
                    retired := s.retired + if c in s.live then [Retirement(c, Finished)] else []));
    }
  }

  lemma PlayNextKeeps(s: State)
    ensures Outstanding(PlayNext(s)) <= Outstanding(s)
  {
  }

  /** All of `es` are callbacks that the browser can deliver at their turn. */
  predicate Callbacks(s: State, es: seq<Event>) {
    es == [] ||
    (Callbacks(s, es[..|es| - 1]) && IsCallback(es[|es| - 1]) && Enabled(Exec(s, es[..|es| - 1]), es[|es| - 1]))
  }

  lemma {:induction false} OutstandingAfter(s: State, more: seq<Event>)
    requires WellFormed(s) && Callbacks(s, more)
    ensures |more| + Outstanding(Exec(s, more)) <= Outstanding(s)
  {
    hide Step, Outstanding;
    if more != [] {
      OutstandingAfter(s, more[..|more| - 1]);
      AlwaysWellFormed(s, more[..|more| - 1]);
      CallbackLowers(Exec(s, more[..|more| - 1]), more[|more| - 1]);
    }
  }

  /** After any run the callbacks run out: the browser delivers at most `Outstanding` of them until it owes none. */
  lemma CallbacksRunOut(es: seq<Event>, more: seq<Event>)
    requires Callbacks(Exec(Initial, es), more)
    ensures |more| + Outstanding(Exec(Exec(Initial, es), more)) <= Outstanding(Exec(Initial, es))
  {
    AlwaysWellFormed(Initial, es);
    OutstandingAfter(Exec(Initial, es), more);
  }

  /** The chunks that are done with. */
  function Done(rs: seq<Retirement>): set<nat> {
    if rs == [] then {} else Done(rs[..|rs| - 1]) + {rs[|rs| - 1].chunk}
  }

  /** Every chunk taken from the queue is being decoded, sounding, or done with, and only one of these, and only once. */
  ghost predicate Accounted(s: State) {
    && |s.queue| <= s.received
    && (forall c: nat :: c < s.received - |s.queue| <==> c in s.pending || c in s.live || c in Done(s.retired))
    && (forall c :: c in Done(s.retired) ==> c !in s.pending && c !in s.live)
    && |Done(s.retired)| == |s.retired|
  }

  lemma DoneAppend(rs: seq<Retirement>, r: Retirement)
    ensures Done(rs + [r]) == Done(rs) + {r.chunk}
    ensures r.chunk !in Done(rs) && |Done(rs)| == |rs| ==> |Done(rs + [r])| == |rs + [r]|
  {
    assert (rs + [r])[..|rs + [r]| - 1] == rs;
  }

  /** Dropping a queue of consecutive chunks. */
  lemma {:induction false} DoneRetire(rs: seq<Retirement>, q: seq<nat>, first: nat, fate: Fate)
    requires forall i :: 0 <= i < |q| ==> q[i] == first + i
    requires (forall c :: c in Done(rs) ==> c < first) && |Done(rs)| == |rs|
    ensures forall c :: c in Done(rs + Retire(q, fate)) <==> c in Done(rs) || first <= c < first + |q|
    ensures |Done(rs + Retire(q, fate))| == |rs + Retire(q, fate)|
  {
    hide Done;
    if q == [] {
      assert rs + Retire(q, fate) == rs;
    } else {
      var n := |q| - 1;
      DoneRetire(rs, q[..n], first, fate);
      DoneAppend(rs + Retire(q[..n], fate), Retirement(q[n], fate));
      assert rs + Retire(q, fate) == rs + Retire(q[..n], fate) + [Retirement(q[n], fate)];
    }
  }

  /** The queue holds the latest arrivals, as in WellFormed. */
  ghost predicate LatestQueued(s: State) {
    |s.queue| <= s.received && forall i :: 0 <= i < |s.queue| ==> s.queue[i] == s.received - |s.queue| + i
  }

  lemma AccountedPlayNext(s: State)
    requires LatestQueued(s) && Accounted(s)
    ensures Accounted(PlayNext(s))
  {
  }

  lemma AccountedRetired(s: State, c: nat, fate: Fate)
    requires LatestQueued(s) && Accounted(s) && s.pending !! s.live && c in s.pending + s.live
    ensures var s' := s.(pending := s.pending - {c}, live := s.live - {c}, retired := s.retired + [Retirement(c, fate)]);
      Accounted(s')
  {
    DoneAppend(s.retired, Retirement(c, fate));
  }

  lemma AccountedDropped(s: State)
    requires LatestQueued(s) && Accounted(s)
    ensures Accounted(s.(queue := [], retired := s.retired + Retire(s.queue, Dropped)))
  {
    DoneRetire(s.retired, s.queue, s.received - |s.queue|, Dropped);
    assert Done(s.retired + Retire(s.queue, Dropped)) >= Done(s.retired);
  }

  lemma AccountedInterrupted(s: State, a: nat)
    requires WellFormed(s) && Accounted(s) && s.active == Some(a)
    ensures var s' := s.(live := s.live - {a}, retired := s.retired + [Retirement(a, Interrupted)]);
      LatestQueued(s') && Accounted(s')
  {
    AccountedRetired(s, a, Interrupted);
    assert s.pending - {a} == s.pending;
  }

  lemma AccountedStop(s: State)
    requires WellFormed(s) && Accounted(s)
    ensures Accounted(Stop(s))
  {
    if s.active.Some? {
      var a := s.active.value;
      var s' := s.(live := s.live - {a}, retired := s.retired + [Retirement(a, Interrupted)]);
      AccountedInterrupted(s, a);
      hide WellFormed, LatestQueued, Done;
      AccountedDropped(s');
      assert Retire([a], Interrupted) == [Retirement(a, Interrupted)] && (set c | c in [a]) == {a};
      assert Stop(s).retired == s'.retired + Retire(s.queue, Dropped) && Stop(s).live == s'.live;
    } else {
      AccountedDropped(s);
      assert s.retired + Retire([], Interrupted) == s.retired;
    }
  }

  lemma AccountedFailed(s: State, c: nat, late: bool)
    requires WellFormed(s) && Accounted(s) && c in s.pending
    ensures Accounted(Step(s, PlayFailed(c, late)))
  {
    AccountedRetired(s, c, Failed);
    assert s.live - {c} == s.live;
    AccountedPlayNext(s.(pending := s.pending - {c}, active := None, playing := false,
                      stateRef := if late then Speaking else s.stateRef,
                      retired := s.retired + [Retirement(c, Failed)]));
  }

  lemma AccountedEnded(s: State, c: nat)
    requires WellFormed(s) && Accounted(s) && c in s.live + s.stale
    ensures Accounted(Step(s, Ended(c)))
  {
    var fates := if c in s.live then [Retirement(c, Finished)] else [];
    if c in s.live {
      AccountedRetired(s, c, Finished);
      assert s.pending - {c} == s.pending;
    } else {
      assert s.live - {c} == s.live && s.retired + fates == s.retired;
    }
    AccountedPlayNext(s.(live := s.live - {c}, stale := s.stale - {c}, active := None, playing := false,
                      stateRef := if |s.queue| == 0 then Listening else s.stateRef, retired := s.retired + fates));
  }

  lemma AccountedArrival(s: State)
    requires WellFormed(s) && Accounted(s)
    ensures Accounted(Step(s, AudioChunk))
  {
    var arrived := s.(queue := s.queue + [s.received], received := s.received + 1);
    assert LatestQueued(arrived) && Accounted(arrived);
    AccountedPlayNext(arrived);
  }

  lemma AccountedTick(s: State, average: real)
    requires WellFormed(s) && Accounted(s)
    ensures Accounted(Step(s, Tick(average)))
  {
    AccountedStop(s);
    hide Stop, WellFormed;
  }

  lemma AccountedStep(s: State, e: Event)
    requires WellFormed(s) && Accounted(s)
    ensures Accounted(Step(s, e))
  {
    hide WellFormed, Enqueue, PlayNext, Stop;
    if Enabled(s, e) {
      match e
      case AudioChunk => AccountedArrival(s);
      case Tick(average) => AccountedTick(s, average);
      case PlayFailed(c, late) => AccountedFailed(s, c, late);
      case Ended(c) => AccountedEnded(s, c);
      case _ =>
    }
  }

  lemma {:induction false} AlwaysAccounted(es: seq<Event>)
    ensures Accounted(Exec(Initial, es))
  {
    hide Step, Accounted, WellFormed;
    if es != [] {
      AlwaysAccounted(es[..|es| - 1]);
      WellFormedFromStart(es[..|es| - 1]);
      AccountedStep(Exec(Initial, es[..|es| - 1]), es[|es| - 1]);
    } else {
      InitialIsAccounted();
    }
  }

  lemma WellFormedFromStart(es: seq<Event>)
    ensures WellFormed(Exec(Initial, es))
  {
    AlwaysWellFormed(Initial, es);
  }

  lemma InitialIsAccounted()
    ensures Accounted(Initial)
  {
  }

  /**
   After any run, barge-ins and late callbacks included: once the browser owes nothing, no chunk waits, and each of those
   received is done with exactly once, on a run without a hazard in order of arrival.
   */
  lemma NothingIsLost(es: seq<Event>)
    requires Owed(Exec(Initial, es)) == {}
    ensures var s := Exec(Initial, es);
      && s.queue == [] && |s.retired| == s.received
      && (forall c: nat :: c in Done(s.retired) <==> c < s.received)
      && (HazardFree(Initial, es) ==> Chunks(s.retired) == seq(s.received, i => i))
  {
    AlwaysAccounted(es);
    WellFormedFromStart(es);
    var s := Exec(Initial, es);
    UpTo(Done(s.retired), s.received);
    if HazardFree(Initial, es) {
      PlaybackSafety(es);
      assert s.pending == {} && s.live == {} && !s.playing;
      assert Chunks(s.retired) + [] + [] == Chunks(s.retired);
    }
  }

  lemma {:induction false} UpTo(a: set<nat>, n: nat)
    requires forall c: nat :: c in a <==> c < n
    ensures |a| == n
  {
    if n == 0 {
      assert a == {};
    } else {
      UpTo(a - {n - 1}, n - 1);
    }
  }

  // ---------- How many were played, failed or stopped ----------

  function CountFate(rs: seq<Retirement>, fate: Fate): nat {
    if rs == [] then 0 else CountFate(rs[..|rs| - 1], fate) + if rs[|rs| - 1].fate == fate then 1 else 0
  }

  lemma CountAppend(rs: seq<Retirement>, r: Retirement, fate: Fate)
    ensures CountFate(rs + [r], fate) == CountFate(rs, fate) + if r.fate == fate then 1 else 0
  {
    assert (rs + [r])[..|rs + [r]| - 1] == rs;
  }

  lemma {:induction false} CountRetire(rs: seq<Retirement>, q: seq<nat>, given: Fate, fate: Fate)
    ensures CountFate(rs + Retire(q, given), fate) == CountFate(rs, fate) + if given == fate then |q| else 0
  {
    hide CountFate;
    if q == [] {
      assert rs + Retire(q, given) == rs;
    } else {
      var n := |q| - 1;
      CountRetire(rs, q[..n], given, fate);
      CountAppend(rs + Retire(q[..n], given), Retirement(q[n], given), fate);
      assert rs + Retire(q, given) == rs + Retire(q[..n], given) + [Retirement(q[n], given)];
    }
  }

  /**
   Chunks that meet their fate by an event: a live source's end finishes one, a failure fails one, and a barge-in interrupts
   the active one and drops those queued.
   */
  function FateBy(before: State, e: Event, fate: Fate): nat {
    match fate
    case Finished => if e.Ended? && e.chunk in before.live then 1 else 0
    case Failed => if e.PlayFailed? && e.chunk in before.pending then 1 else 0
    case Interrupted => if Fires(before, e) && before.active.Some? then 1 else 0
    case Dropped => if Fires(before, e) then |before.queue| else 0
  }

  function AllFates(es: seq<Event>, fate: Fate): nat {
    if es == [] then 0 else
    var n := |es| - 1;
    AllFates(es[..n], fate) + FateBy(Exec(Initial, es[..n]), es[n], fate)
  }

  lemma FateStop(s: State, fate: Fate)
    ensures CountFate(Stop(s).retired, fate) == CountFate(s.retired, fate)
      + (if fate == Interrupted && s.active.Some? then 1 else 0) + if fate == Dropped then |s.queue| else 0
  {
    hide CountFate;
    var cut := match s.active case None => [] case Some(a) => [a];
    CountRetire(s.retired, cut, Interrupted, fate);
    CountRetire(s.retired + Retire(cut, Interrupted), s.queue, Dropped, fate);
  }

  lemma FateStep(s: State, e: Event, fate: Fate)
    ensures CountFate(Step(s, e).retired, fate) == CountFate(s.retired, fate) + FateBy(s, e, fate)
  {
    hide CountFate, Stop;
    if Enabled(s, e) {
      match e
      case PlayFailed(c, _) => CountAppend(s.retired, Retirement(c, Failed), fate);
      case Ended(c) =>
        CountAppend(s.retired, Retirement(c, Finished), fate);
        assert s.retired + [] == s.retired;
      case Tick(_) => FateStop(s, fate);
      case _ =>
    }
  }

  /** On every run as many chunks were played to the end, failed, were interrupted or dropped as the events say. */
  lemma {:induction false} FatesAreCounted(es: seq<Event>, fate: Fate)
    ensures CountFate(Exec(Initial, es).retired, fate) == AllFates(es, fate)
  {
    hide Step, FateBy;
    if es != [] {
      FatesAreCounted(es[..|es| - 1], fate);
      FateStep(Exec(Initial, es[..|es| - 1]), es[|es| - 1], fate);
    }
  }

  // ---------- Barge-in in closed form ----------

  /** For each tick of the run, whether it was louder than 80 while the hook was speaking. */
  function LoudTicks(s: State, es: seq<Event>): seq<bool> {
    if es == [] then [] else
    var init := es[..|es| - 1];
    var e := es[|es| - 1];
    LoudTicks(s, init) + if e.Tick? then [Exec(s, init).stateRef == Speaking && e.average > 80.0] else []
  }

  lemma LoudTicksAppend(s: State, es: seq<Event>, average: real)
    ensures LoudTicks(s, es + [Tick(average)])
            == LoudTicks(s, es) + [Exec(s, es).stateRef == Speaking && average > 80.0]
  {
    var run := es + [Tick(average)];
    assert run[..|run| - 1] == es;
  }

  /** Length of the run of true values at the end. */
  function TrailingRun(bs: seq<bool>): nat {
    if bs == [] || !bs[|bs| - 1] then 0 else 1 + TrailingRun(bs[..|bs| - 1])
  }

  lemma TrailingRunAppend(bs: seq<bool>, b: bool)
    ensures TrailingRun(bs + [b]) == if b then TrailingRun(bs) + 1 else 0
  {
    assert (bs + [b])[..|bs|] == bs;
  }

  lemma BargeInStep(s: State, e: Event)
    requires s.bargeIn < 3
    ensures Step(s, e).bargeIn ==
      if !e.Tick? then s.bargeIn
      else if s.stateRef == Speaking && e.average > 80.0 then (s.bargeIn + 1) % 3
      else 0
  {
  }

  lemma NoRun()
    ensures TrailingRun([]) == 0
  {
  }

  lemma {:induction false} BargeInCount(s: State, es: seq<Event>)
    requires s.bargeIn == 0
    ensures Exec(s, es).bargeIn == TrailingRun(LoudTicks(s, es)) % 3
  {
    hide Step, TrailingRun;
    if es == [] {
      NoRun();
    } else {
      var init, e := es[..|es| - 1], es[|es| - 1];
      BargeInCount(s, init);
      BargeInStep(Exec(s, init), e);
      if e.Tick? {
        TrailingRunAppend(LoudTicks(s, init), Exec(s, init).stateRef == Speaking && e.average > 80.0);
      } else {
        assert LoudTicks(s, es) == LoudTicks(s, init);
      }
    }
  }

  lemma FiresIff(s: State, average: real, n: nat)
    requires s.bargeIn == n % 3
    ensures Fires(s, Tick(average)) <==> s.stateRef == Speaking && average > 80.0 && (n + 1) % 3 == 0
  {
  }

  /**
   On every run, whatever happens between the ticks, a tick stops playback if and only if the loud-while-speaking
   ticks ending with it number a positive multiple of three.
   */
  lemma BargeInClosedForm(s: State, es: seq<Event>, average: real)
    requires s.bargeIn == 0
    ensures var n := TrailingRun(LoudTicks(s, es + [Tick(average)]));
      Fires(Exec(s, es), Tick(average)) <==> n > 0 && n % 3 == 0
  {
    var run := es + [Tick(average)];
    BargeInCount(s, es);
    LoudTicksAppend(s, es, average);
    var before, bs := Exec(s, es), LoudTicks(s, es);
    TrailingRunAppend(bs, before.stateRef == Speaking && average > 80.0);
    FiresIff(before, average, TrailingRun(bs));
  }
}
