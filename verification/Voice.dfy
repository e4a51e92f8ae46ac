/**
 The whole voice session (frontend/lib/useVoiceSession.ts): the connection and the playback queue side by side, joined by
 what they share. Connecting makes the audio context, an open socket delivers the chunks, and the VAD gate, whose ticks can
 stop playback, is started and stopped with the connection.
 */
module Voice {
  import opened Options
  import Playback
  import Reconnect

  /** vadIntervalRef, and the intervals that are running. */
  datatype Gate = Gate(current: Option<nat>, running: set<nat>, started: nat)

  datatype State = State(sound: Playback.State, link: Reconnect.State, gate: Gate)

  const Initial := State(Playback.Initial, Reconnect.Initial, Gate(None, {}, 0))

  datatype Event =
    | Link(connection: Reconnect.Event)
    | Sound(playback: Playback.Event)

  // ---------- The code ----------

  /** startVADGate overwrites the ref of an interval that is still running. */
  function StartGate(g: Gate): Gate {
    Gate(Some(g.started), g.running + {g.started}, g.started + 1)
  }

  function StopGate(g: Gate): Gate {
    if g.current.Some? then g.(running := g.running - {g.current.value}, current := None) else g
  }

  class VADGate {
    var current: Option<nat>
    var running: set<nat>
    var started: nat

    ghost function View(): Gate
      reads this
    {
      Gate(current, running, started)
    }

    constructor ()
      ensures View() == Initial.gate
    {
      current, running, started := None, {}, 0;
    }

    method StartVADGate()
      modifies this
      ensures View() == StartGate(old(View()))
    {
      current := Some(started);
      running := running + {started};
      started := started + 1;
    }

    method StopVADGate()
      modifies this
      ensures View() == StopGate(old(View()))
    {
      if current.Some? {
        running := running - {current.value};
        current := None;
      }
    }
  }

  /** Messages need an open socket, and ticks a running interval. The context is made by connecting. */
  predicate Delivers(s: State, e: Playback.Event) {
    match e
    case ContextCreated => false
    case AudioChunk => s.link.open != {}
    case BackendState(_) => s.link.open != {}
    case Tick(_) => s.gate.running != {}
    case _ => true
  }

  /** _connectInternal gets past its guard. */
  predicate Prompts(s: Reconnect.State, e: Reconnect.Event) {
    Reconnect.Enabled(s, e) && (e.Connect? || e.TimerFired?) && !Reconnect.AlreadyConnected(s)
  }

  /** onopen starts the gate; onclose and disconnect stop it. */
  function GateStep(s: State, e: Reconnect.Event): Gate {
    if !Reconnect.Enabled(s.link, e) then s.gate
    else if e.Opened? && e.recording then StartGate(s.gate)
    else if e.Closed? || e.Disconnect? then StopGate(s.gate)
    else s.gate
  }

  /** What a step is to the playback queue. */
  function SoundOf(s: State, e: Event): seq<Playback.Event> {
    match e
    case Sound(p) => if Delivers(s, p) then [p] else []
    case Link(l) => if Prompts(s.link, l) then [Playback.ContextCreated] else []
  }

  function Step(s: State, e: Event): State {
    match e
    case Sound(p) => if Delivers(s, p) then s.(sound := Playback.Step(s.sound, p)) else s
    case Link(l) =>
      State(if Prompts(s.link, l) then Playback.Step(s.sound, Playback.ContextCreated) else s.sound,
            Reconnect.Step(s.link, l), GateStep(s, l))
  }

  function Run(s: State, es: seq<Event>): State {
    if es == [] then s else Step(Run(s, es[..|es| - 1]), es[|es| - 1])
  }

  // ---------- The two parts ----------

  function Sounds(s: State, es: seq<Event>): seq<Playback.Event> {
    if es == [] then [] else Sounds(s, es[..|es| - 1]) + SoundOf(Run(s, es[..|es| - 1]), es[|es| - 1])
  }

  function Links(es: seq<Event>): seq<Reconnect.Event> {
    if es == [] then [] else
    Links(es[..|es| - 1]) + if es[|es| - 1].Link? then [es[|es| - 1].connection] else []
  }

  /** Every run of the session is a run of the playback queue, so what holds of all those holds here. */
  lemma {:induction false} SoundIsARun(s: State, es: seq<Event>)
    ensures Run(s, es).sound == Playback.Exec(s.sound, Sounds(s, es))
  {
    hide Playback.Step, Reconnect.Step, Delivers, Prompts;
    if es != [] {
      var init, e := es[..|es| - 1], es[|es| - 1];
      SoundIsARun(s, init);
      var before := Sounds(s, init);
      if SoundOf(Run(s, init), e) != [] {
        var p := SoundOf(Run(s, init), e)[0];
        assert Sounds(s, es) == before + [p];
        assert (before + [p])[..|before + [p]| - 1] == before;
      } else {
        assert Sounds(s, es) == before;
      }
    }
  }

  /** And a run of the connection. */
  lemma {:induction false} LinkIsARun(s: State, es: seq<Event>)
    ensures Run(s, es).link == Reconnect.Exec(s.link, Links(es))
  {
    hide Playback.Step, Reconnect.Step;
    if es != [] {
      var init, e := es[..|es| - 1], es[|es| - 1];
      LinkIsARun(s, init);
      if e.Link? {
        var before := Links(init);
        assert (before + [e.connection])[..|before + [e.connection]| - 1] == before;
      } else {
        assert Links(es) == Links(init);
      }
    }
  }

  // ---------- Chunks find an audio context ----------

  ghost predicate HasContext(s: State) {
    s.link.attempts > 0 || s.link.timers > 0 || s.link.connecting + s.link.open + s.link.closing != {} ==>
      s.sound.hasContext
  }

  lemma SoundKeepsContext(s: Playback.State, e: Playback.Event)
    ensures s.hasContext ==> Playback.Step(s, e).hasContext
  {
  }

  lemma HasContextStep(s: State, e: Event)
    requires HasContext(s)
    ensures HasContext(Step(s, e))
  {
    match e
    case Sound(p) => SoundKeepsContext(s.sound, p);
    case Link(l) =>
      hide Reconnect.IsFatal;
      assert Playback.Step(s.sound, Playback.ContextCreated).hasContext;
  }

  /** While a socket is open there is an audio context, so that no chunk arrives before it. */
  lemma {:induction false} ChunksFindContext(es: seq<Event>)
    ensures HasContext(Run(Initial, es))
    ensures Run(Initial, es).link.open != {} ==> Run(Initial, es).sound.hasContext
  {
    hide Step;
    if es != [] {
      ChunksFindContext(es[..|es| - 1]);
      HasContextStep(Run(Initial, es[..|es| - 1]), es[|es| - 1]);
    }
  }

  // ---------- One gate at a time ----------

  /** While a socket is open one interval runs, the one in the ref, and otherwise none; a socket is the current one. */
  ghost predicate OneGate(s: State) {
    && (s.link.open == {} ==> s.gate.running == {})
    && (s.link.open != {} ==> s.gate.current.Some? && s.gate.running == {s.gate.current.value})
    && (forall w :: w in Reconnect.Sockets(s.link) ==> s.link.current == Some(w))
  }

  lemma OneGateStep(s: State, l: Reconnect.Event)
    requires OneGate(s) && Reconnect.WellFormed(s.link) && Reconnect.Single(s.link)
    ensures OneGate(Step(s, Link(l)))
  {
    hide Playback.Step, Reconnect.IsFatal;
    assert s.link.connecting <= Reconnect.Sockets(s.link) && s.link.open <= Reconnect.Sockets(s.link);
    assert s.link.attempts > 0 ==> Reconnect.Sockets(s.link) == {};
    if l.Opened? && Reconnect.Enabled(s.link, l) {
      assert Reconnect.Sockets(s.link) == {l.socket};
      assert s.link.open == {};
    }
  }

  /**
   On every run that keeps to one connection one interval runs while the socket is open, so that a barge-in can be noticed,
   and none otherwise; stopping the gate leaves none.
   */
  lemma {:induction false} OneGateOnRuns(es: seq<Event>)
    requires Reconnect.NoDoubling(Reconnect.Initial, Links(es))
    ensures OneGate(Run(Initial, es)) && StopGate(Run(Initial, es).gate).running == {}
  {
    hide Reconnect.Step, Reconnect.Single, Reconnect.WellFormed, Reconnect.Doubles, Step;
    if es != [] {
      var init, e := es[..|es| - 1], es[|es| - 1];
      if e.Link? {
        assert Links(es) == Links(init) + [e.connection] && Links(es)[..|Links(es)| - 1] == Links(init);
      } else {
        assert Links(es) == Links(init);
      }
      OneGateOnRuns(init);
      LinkIsARun(Initial, init);
      Reconnect.InitialIsWellFormed();
      Reconnect.SingleIsKept(Reconnect.Initial, Links(init));
      if e.Link? {
        OneGateStep(Run(Initial, init), e.connection);
      } else {
        SoundKeepsGate(Run(Initial, init), e);
      }
    }
  }

  lemma SoundKeepsGate(s: State, e: Event)
    requires e.Sound?
    ensures Step(s, e).gate == s.gate && Step(s, e).link == s.link
  {
  }

  // ---------- What is heard after the session has ended ----------

  predicate Unattended(es: seq<Event>) {
    forall i :: 0 <= i < |es| ==> !(es[i].Link? && (es[i].connection.Connect? || es[i].connection.Disconnect?))
  }

  /** Nothing but callbacks for chunks received earlier can still happen to the playback queue. */
  ghost predicate Closing(s: State) {
    Reconnect.Winding(s.link) && s.gate.running == {}
  }

  /**
   `t` has played on from `s`: the same chunks, some of them done with, none of them stopped or dropped, and no state but
   those that playing sets.
   */
  ghost predicate PlayedOn(s: Playback.State, t: Playback.State) {
    && t.received == s.received && t.stateRef in {s.stateRef, Playback.Speaking, Playback.Listening}
    && |s.retired| <= |t.retired| && t.retired[..|s.retired|] == s.retired
    && forall i :: |s.retired| <= i < |t.retired| ==> t.retired[i].fate in {Playback.Finished, Playback.Failed}
  }

  lemma CallbackPlaysOn(s: Playback.State, e: Playback.Event)
    requires Playback.IsCallback(e)
    ensures PlayedOn(s, Playback.Step(s, e))
  {
  }

  lemma PlayedOnTrans(s: Playback.State, t: Playback.State, u: Playback.State)
    requires PlayedOn(s, t) && PlayedOn(t, u)
    ensures PlayedOn(s, u)
  {
    assert u.retired[..|t.retired|][..|s.retired|] == u.retired[..|s.retired|];
    forall i | |s.retired| <= i < |u.retired|
      ensures u.retired[i].fate in {Playback.Finished, Playback.Failed}
    {
      if i < |t.retired| {
        assert u.retired[..|t.retired|][i] == u.retired[i];
      }
    }
  }

  lemma ClosingStep(s: State, e: Event)
    requires Closing(s) && !(e.Link? && (e.connection.Connect? || e.connection.Disconnect?))
    ensures Closing(Step(s, e)) && PlayedOn(s.sound, Step(s, e).sound)
  {
    match e
    case Sound(p) =>
      if Delivers(s, p) {
        CallbackPlaysOn(s.sound, p);
      }
    case Link(l) =>
      hide Reconnect.IsFatal, Playback.Step;
  }

  lemma {:induction false} ClosingIsKept(s: State, more: seq<Event>)
    requires Closing(s) && Unattended(more)
    ensures Closing(Run(s, more)) && PlayedOn(s.sound, Run(s, more).sound)
  {
    hide Step, Closing;
    if more != [] {
      var init := more[..|more| - 1];
      ClosingIsKept(s, init);
      ClosingStep(Run(s, init), more[|more| - 1]);
      PlayedOnTrans(s.sound, Run(s, init).sound, Run(s, more).sound);
    }
  }

  lemma {:induction false} DoneAt(rs: seq<Playback.Retirement>, c: nat)
    requires c in Playback.Done(rs)
    ensures exists i :: 0 <= i < |rs| && rs[i].chunk == c
  {
    if rs[|rs| - 1].chunk != c {
      DoneAt(rs[..|rs| - 1], c);
      var i :| 0 <= i < |rs| - 1 && rs[..|rs| - 1][i].chunk == c;
      assert rs[i].chunk == c;
    }
  }

  lemma {:induction false} AtIsDone(rs: seq<Playback.Retirement>, i: nat)
    requires i < |rs|
    ensures rs[i].chunk in Playback.Done(rs)
  {
    if i < |rs| - 1 {
      AtIsDone(rs[..|rs| - 1], i);
    }
  }

  /** The chunk was played to its end, or could not be played, between `s` and `t`. */
  ghost predicate PlayedBetween(s: Playback.State, t: Playback.State, c: nat) {
    exists i :: |s.retired| <= i < |t.retired| && t.retired[i].chunk == c
      && t.retired[i].fate in {Playback.Finished, Playback.Failed}
  }

  lemma LeftoverIsPlayed(s: Playback.State, t: Playback.State, c: nat)
    requires Playback.WellFormed(s) && Playback.Accounted(s) && PlayedOn(s, t)
    requires forall x: nat :: x in Playback.Done(t.retired) <==> x < t.received
    requires c in s.queue || c in s.pending || c in s.live
    ensures PlayedBetween(s, t, c)
  {
    assert c !in Playback.Done(s.retired);
    DoneAt(t.retired, c);
    var i :| 0 <= i < |t.retired| && t.retired[i].chunk == c;
    if i < |s.retired| {
      assert t.retired[..|s.retired|][i] == s.retired[i];
      AtIsDone(s.retired, i);
    }
  }

  lemma {:induction false} RunSplit(s: State, a: seq<Event>, b: seq<Event>)
    ensures Run(s, a + b) == Run(Run(s, a), b)
  {
    hide Step;
    if b == [] {
      assert a + b == a;
    } else {
      RunSplit(s, a, b[..|b| - 1]);
      assert (a + b)[..|a + b| - 1] == a + b[..|b| - 1];
    }
  }

  lemma DisconnectCloses(s: State)
    requires Reconnect.NothingElseUnderWay(s.link) && StopGate(s.gate).running == {}
    ensures Closing(Step(s, Link(Reconnect.Disconnect))) && Step(s, Link(Reconnect.Disconnect)).sound == s.sound
  {
    Reconnect.FinalIsWinding(s.link);
    hide Reconnect.Winding, Playback.Step;
  }

  /**
   Ending the session leaves the playback queue alone and stops the ticks that could. After any run and a disconnect that is
   final, with no interval left running: no more chunks arrive, none is interrupted or dropped, and by the time the browser
   owes nothing every chunk that was still queued, being decoded or sounding has been played to its end or has failed.
   */
  lemma PlaysOnAfterTheEnd(es: seq<Event>, more: seq<Event>)
    requires Unattended(more)
    requires Reconnect.NothingElseUnderWay(Run(Initial, es).link) && StopGate(Run(Initial, es).gate).running == {}
    ensures var s := Run(Initial, es).sound; var t := Run(Initial, es + [Link(Reconnect.Disconnect)] + more).sound;
      && PlayedOn(s, t)
      && (Playback.Owed(t) == {} ==>
           forall c :: c in s.queue || c in s.pending || c in s.live ==> PlayedBetween(s, t, c))
  {
    hide Step, PlayedOn, PlayedBetween, Playback.WellFormed, Playback.Accounted, Playback.Exec;
    var over := es + [Link(Reconnect.Disconnect)];
    var all := over + more;
    assert over[..|over| - 1] == es;
    DisconnectCloses(Run(Initial, es));
    ClosingIsKept(Run(Initial, over), more);
    RunSplit(Initial, over, more);
    var s, t := Run(Initial, es).sound, Run(Initial, all).sound;
    SoundIsARun(Initial, es);
    SoundIsARun(Initial, all);
    Playback.WellFormedFromStart(Sounds(Initial, es));
    Playback.AlwaysAccounted(Sounds(Initial, es));
    if Playback.Owed(t) == {} {
      Playback.NothingIsLost(Sounds(Initial, all));
      forall c | c in s.queue || c in s.pending || c in s.live
        ensures PlayedBetween(s, t, c)
      {
        LeftoverIsPlayed(s, t, c);
      }
    }
  }

  lemma TwoSteps(s: State, a: Event, b: Event)
    ensures Run(s, [a, b]) == Step(Step(s, a), b)
  {
    hide Step;
    var es := [a, b];
    assert es[..1] == [a] && [a][..0] == [];
    assert Run(s, [a]) == Step(s, a);
  }

  /** The first socket is connecting; it is open and a chunk is being decoded; the session is over and the chunk sounds. */
  function Connected(link: Reconnect.State): State {
    State(Playback.Initial.(hasContext := true), link, Initial.gate)
  }

  function Talking(link: Reconnect.State): State {
    State(Playback.Initial.(hasContext := true, playing := true, pending := {0}, received := 1),
          link.(connecting := {}, open := {0}), Gate(Some(0), {0}, 1))
  }

  function Over(link: Reconnect.State): State {
    State(Playback.Initial.(hasContext := true, playing := true, active := Some(0), stateRef := Playback.Speaking,
                            live := {0}, received := 1),
          link.(connecting := {}, intentional := true, display := Reconnect.Idle, closing := {0}), Gate(None, {}, 1))
  }

  lemma Connects(link: Reconnect.State)
    requires link == Reconnect.AfterCycles(0)
    ensures Run(Initial, [Link(Reconnect.Connect), Link(Reconnect.MicGranted)]) == Connected(link)
  {
    hide Run, Reconnect.Exec, Reconnect.IsFatal;
    TwoSteps(Initial, Link(Reconnect.Connect), Link(Reconnect.MicGranted));
    Reconnect.FirstSocket();
    Reconnect.TwoSteps(Reconnect.Initial, Reconnect.Connect, Reconnect.MicGranted);
    hide Reconnect.Step;
    assert Playback.Step(Playback.Initial, Playback.ContextCreated) == Connected(link).sound;
  }

  lemma Talks(link: Reconnect.State)
    requires link == Reconnect.AfterCycles(0)
    ensures Run(Connected(link), [Link(Reconnect.Opened(0, true)), Sound(Playback.AudioChunk)]) == Talking(link)
  {
    hide Run, Reconnect.IsFatal;
    var opening, chunk := Link(Reconnect.Opened(0, true)), Sound(Playback.AudioChunk);
    TwoSteps(Connected(link), opening, chunk);
    var s := Step(Connected(link), opening);
    assert s.link == Talking(link).link && s.gate == Talking(link).gate && s.sound == Connected(link).sound;
    assert 0 in s.link.open;
    assert Playback.Step(s.sound, Playback.AudioChunk) == Talking(link).sound;
  }

  lemma Ends(link: Reconnect.State)
    requires link == Reconnect.AfterCycles(0)
    ensures Run(Talking(link), [Link(Reconnect.Disconnect), Sound(Playback.Decoded(0))]) == Over(link)
    ensures Reconnect.NothingElseUnderWay(Talking(link).link)
  {
    hide Run, Reconnect.IsFatal;
    TwoSteps(Talking(link), Link(Reconnect.Disconnect), Sound(Playback.Decoded(0)));
    var s := Step(Talking(link), Link(Reconnect.Disconnect));
    assert s.link == Over(link).link && s.gate == Over(link).gate && s.sound == Talking(link).sound;
    assert Playback.Step(s.sound, Playback.Decoded(0)) == Over(link).sound;
  }

  /** It happens: after a disconnect that is final, with nothing sounding, a chunk received earlier starts to sound. */
  lemma HeardAfterTheEnd() returns (es: seq<Event>, more: seq<Event>)
    ensures |more| == 2 && more[0] == Link(Reconnect.Disconnect) && Unattended(more[1..])
    ensures Reconnect.NothingElseUnderWay(Run(Initial, es).link) && Run(Initial, es).sound.live == {}
    ensures var s := Run(Initial, es + more);
      s.sound.live == {0} && s.link.open == {} && s.link.display == Reconnect.Idle && s.gate.running == {}
  {
    var link := Reconnect.AfterCycles(0);
    var up := [Link(Reconnect.Connect), Link(Reconnect.MicGranted)];
    var talk := [Link(Reconnect.Opened(0, true)), Sound(Playback.AudioChunk)];
    es, more := up + talk, [Link(Reconnect.Disconnect), Sound(Playback.Decoded(0))];
    hide Run, Reconnect.NothingElseUnderWay;
    Connects(link);
    Talks(link);
    Ends(link);
    RunSplit(Initial, up, talk);
    RunSplit(Initial, es, more);
  }
}
