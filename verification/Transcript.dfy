/**
 The chat transcript of the voice session (frontend/lib/useVoiceSession.ts): the updaters handed to
 `setTranscript` are functions from the old list to the new one, and a session is a fold of events over them.
 */
module Transcript {
  datatype Role = User | Assistant

  datatype Entry = Entry(role: Role, text: string, isFinal: bool)

  datatype Event =
    | Interim(text: string)     // transcript_interim and transcript_partial
    | Final(text: string)       // transcript_final
    | Rollback                  // transcript_rollback
    | Chunk(text: string)       // llm_chunk
    | ChunkFinal                // llm_chunk with is_final
    | SendText(text: string)    // the text-mode input, on an open socket

  // ---------- The code ----------

  predicate EndsWith(t: seq<Entry>, role: Role) {
    |t| > 0 && t[|t| - 1].role == role
  }

  /** The last entry is an assistant entry that is still growing. */
  predicate Growing(t: seq<Entry>) {
    EndsWith(t, Assistant) && !t[|t| - 1].isFinal
  }

  function Init(t: seq<Entry>): seq<Entry>
    requires |t| > 0
  {
    t[..|t| - 1]
  }

  function Speak(t: seq<Entry>, entry: Entry): seq<Entry> {
    if EndsWith(t, User) then Init(t) + [entry] else t + [entry]
  }

  function Step(t: seq<Entry>, e: Event): seq<Entry> {
    match e
    case Interim(text) => Speak(t, Entry(User, text, false))
    case Final(text) => Speak(t, Entry(User, text, true))
    case Rollback => if EndsWith(t, User) then Init(t) else t
    case Chunk(text) =>
      if Growing(t) then Init(t) + [Entry(Assistant, t[|t| - 1].text + text, false)]
      else t + [Entry(Assistant, text, false)]
    case ChunkFinal =>
      if EndsWith(t, Assistant) then Init(t) + [t[|t| - 1].(isFinal := true)] else t
    case SendText(text) => t + [Entry(User, text, true)]
  }

  function Run(t: seq<Entry>, es: seq<Event>): seq<Entry>
    decreases |es|
  {
    if es == [] then t else Run(Step(t, es[0]), es[1..])
  }

  lemma {:induction false} RunSplit(t: seq<Entry>, a: seq<Event>, b: seq<Event>)
    ensures Run(t, a + b) == Run(Run(t, a), b)
    decreases |a|
  {
    if a == [] {
      assert a + b == b;
    } else {
      assert (a + b)[0] == a[0] && (a + b)[1..] == a[1..] + b;
      RunSplit(Step(t, a[0]), a[1..], b);
    }
  }

  lemma RunLast(t: seq<Entry>, es: seq<Event>, e: Event)
    ensures Run(t, es + [e]) == Step(Run(t, es), e)
  {
    RunSplit(t, es, [e]);
    assert [e][1..] == [];
  }

  // ---------- Replies ----------

  function Concat(texts: seq<string>): string {
    if texts == [] then "" else texts[0] + Concat(texts[1..])
  }

  function Chunks(texts: seq<string>): seq<Event> {
    seq(|texts|, i requires 0 <= i < |texts| => Chunk(texts[i]))
  }

  lemma ChunkGrows(t: seq<Entry>, text: string)
    requires Growing(t)
    ensures var next := Step(t, Chunk(text));
      Growing(next) && Init(next) == Init(t) && next[|next| - 1] == Entry(Assistant, t[|t| - 1].text + text, false)
  {
  }

  lemma {:induction false} GrowingReply(t: seq<Entry>, texts: seq<string>)
    requires Growing(t)
    ensures Run(t, Chunks(texts)) == Init(t) + [Entry(Assistant, t[|t| - 1].text + Concat(texts), false)]
    decreases |texts|
  {
    var text := t[|t| - 1].text;
    if texts == [] {
      assert text + Concat(texts) == text;
    } else {
      hide Step;
      ChunkGrows(t, texts[0]);
      assert Chunks(texts)[0] == Chunk(texts[0]) && Chunks(texts)[1..] == Chunks(texts[1..]);
      GrowingReply(Step(t, Chunk(texts[0])), texts[1..]);
      assert text + texts[0] + Concat(texts[1..]) == text + (texts[0] + Concat(texts[1..]));
    }
  }

  /**
   A reply sent in any non-empty list of chunks and then closed adds one final entry holding their concatenation,
   or completes the entry that was still growing.
   */
  lemma Reply(t: seq<Entry>, texts: seq<string>)
    requires texts != []
    ensures Run(t, Chunks(texts) + [ChunkFinal]) ==
      if Growing(t) then Init(t) + [Entry(Assistant, t[|t| - 1].text + Concat(texts), true)]
      else t + [Entry(Assistant, Concat(texts), true)]
  {
    RunLast(t, Chunks(texts), ChunkFinal);
    if Growing(t) {
      GrowingReply(t, texts);
    } else {
      assert Chunks(texts)[1..] == Chunks(texts[1..]);
      GrowingReply(t + [Entry(Assistant, texts[0], false)], texts[1..]);
    }
  }

  /** Where the chunk boundaries fall makes no difference, whatever the transcript was before. */
  lemma ChunkBoundariesDoNotMatter(t: seq<Entry>, a: seq<string>, b: seq<string>)
    requires a != [] && b != [] && Concat(a) == Concat(b)
    ensures Run(t, Chunks(a) + [ChunkFinal]) == Run(t, Chunks(b) + [ChunkFinal])
  {
    Reply(t, a);
    Reply(t, b);
  }

  /** A reply adds a bubble of its own exactly when the last bubble was not still growing. */
  lemma ReplyAddsOneIff(t: seq<Entry>, texts: seq<string>)
    requires texts != []
    ensures Run(t, Chunks(texts) + [ChunkFinal]) == t + [Entry(Assistant, Concat(texts), true)] <==> !Growing(t)
  {
    Reply(t, texts);
  }

  // ---------- Bursts of speech ----------

  predicate IsSpeech(e: Event) {
    e.Interim? || e.Final?
  }

  predicate IsBurst(es: seq<Event>) {
    es != [] && forall i :: 0 <= i < |es| ==> IsSpeech(es[i])
  }

  /** A burst of recognition events has the effect of its last event alone. */
  lemma {:induction false} BurstCollapses(t: seq<Entry>, burst: seq<Event>)
    requires IsBurst(burst)
    ensures Run(t, burst) == Step(t, burst[|burst| - 1])
    decreases |burst|
  {
    hide Step;
    if |burst| == 1 {
      assert burst[1..] == [];
    } else {
      BurstCollapses(Step(t, burst[0]), burst[1..]);
      assert burst[1..][|burst| - 2] == burst[|burst| - 1];
      SpeechOverwrites(t, burst[0], burst[|burst| - 1]);
    }
  }

  lemma SpeechOverwrites(t: seq<Entry>, first: Event, second: Event)
    requires IsSpeech(first) && IsSpeech(second)
    ensures Step(Step(t, first), second) == Step(t, second)
  {
  }

  /** Rolling a burst back restores the transcript exactly when the transcript did not end with a user bubble. */
  lemma RollbackUndoesBurstIff(t: seq<Entry>, burst: seq<Event>)
    requires IsBurst(burst)
    ensures Run(t, burst + [Rollback]) == t <==> !EndsWith(t, User)
  {
    RunLast(t, burst, Rollback);
    BurstCollapses(t, burst);
    if EndsWith(t, User) {
      assert |Run(t, burst + [Rollback])| == |t| - 1;
    }
  }

  /** A rollback takes away exactly a user entry at the end, and a final marker without a growing reply does nothing. */
  lemma NothingToDoIff(t: seq<Entry>)
    ensures Step(t, Rollback) == t <==> !EndsWith(t, User)
    ensures EndsWith(t, User) ==> Step(t, Rollback) == t[..|t| - 1]
    ensures Step(t, ChunkFinal) == t <==> !Growing(t)
  {
    if EndsWith(t, User) {
      assert |Step(t, Rollback)| == |t| - 1;
    }
    if Growing(t) {
      assert Step(t, ChunkFinal)[|t| - 1].isFinal;
    }
  }

  /** A rollback or a second final marker that comes after the reply finds nothing to do. */
  lemma LateRollback(t: seq<Entry>, texts: seq<string>)
    requires texts != []
    ensures Run(t, Chunks(texts) + [ChunkFinal] + [Rollback]) == Run(t, Chunks(texts) + [ChunkFinal])
    ensures Run(t, Chunks(texts) + [ChunkFinal] + [ChunkFinal]) == Run(t, Chunks(texts) + [ChunkFinal])
  {
    hide Run;
    var replied := Run(t, Chunks(texts) + [ChunkFinal]);
    RunLast(t, Chunks(texts) + [ChunkFinal], Rollback);
    RunLast(t, Chunks(texts) + [ChunkFinal], ChunkFinal);
    Reply(t, texts);
    NothingToDoIff(replied);
  }

  /**
   Typed text is appended as a final entry; the next event leaves it standing exactly when it is neither a rollback nor
   recognised speech with another text or not yet final.
   */
  lemma TypedTextKeptIff(t: seq<Entry>, text: string, e: Event)
    ensures var typed := Step(t, SendText(text));
      && typed == t + [Entry(User, text, true)]
      && (typed <= Step(typed, e) <==> e != Rollback && (IsSpeech(e) ==> e == Final(text)))
  {
    var typed := Step(t, SendText(text));
    assert Init(typed) == t;
    if IsSpeech(e) {
      assert Step(typed, e)[|t|] == Entry(User, e.text, e.Final?);
      assert typed[|t|] == Entry(User, text, true);
    }
  }

  // ---------- Whole conversations ----------

  /** One exchange: attempts the model withdrew, the burst it answered, and the chunks of its answer. */
  datatype Turn = Turn(withdrawn: seq<seq<Event>>, burst: seq<Event>, reply: seq<string>)

  predicate WellFormedTurn(turn: Turn) {
    && (forall i :: 0 <= i < |turn.withdrawn| ==> IsBurst(turn.withdrawn[i]))
    && IsBurst(turn.burst) && turn.reply != []
  }

  function Attempts(withdrawn: seq<seq<Event>>): seq<Event> {
    if withdrawn == [] then [] else withdrawn[0] + [Rollback] + Attempts(withdrawn[1..])
  }

  function TurnEvents(turn: Turn): seq<Event> {
    Attempts(turn.withdrawn) + turn.burst + (Chunks(turn.reply) + [ChunkFinal])
  }

  function Events(turns: seq<Turn>): seq<Event> {
    if turns == [] then [] else TurnEvents(turns[0]) + Events(turns[1..])
  }

  /** The two bubbles a turn is meant to leave: the last recognised text and the whole answer. */
  function Bubbles(turn: Turn): seq<Entry>
    requires WellFormedTurn(turn)
  {
    var last := turn.burst[|turn.burst| - 1];
    [Entry(User, last.text, last.Final?), Entry(Assistant, Concat(turn.reply), true)]
  }

  function Shown(turns: seq<Turn>): seq<Entry>
    requires forall i :: 0 <= i < |turns| ==> WellFormedTurn(turns[i])
  {
    if turns == [] then [] else Bubbles(turns[0]) + Shown(turns[1..])
  }

  lemma {:induction false} AttemptsLeaveNothing(t: seq<Entry>, withdrawn: seq<seq<Event>>)
    requires !EndsWith(t, User)
    requires forall i :: 0 <= i < |withdrawn| ==> IsBurst(withdrawn[i])
    ensures Run(t, Attempts(withdrawn)) == t
  {
    if withdrawn != [] {
      RollbackUndoesBurstIff(t, withdrawn[0]);
      RunSplit(t, withdrawn[0] + [Rollback], Attempts(withdrawn[1..]));
      AttemptsLeaveNothing(t, withdrawn[1..]);
    }
  }

  /** Speech after the assistant starts a user entry. */
  lemma SpeechAdds(t: seq<Entry>, e: Event)
    requires !EndsWith(t, User) && IsSpeech(e)
    ensures Step(t, e) == t + [Entry(User, e.text, e.Final?)] && !Growing(Step(t, e))
  {
  }

  lemma TurnShown(t: seq<Entry>, turn: Turn)
    requires !EndsWith(t, User) && WellFormedTurn(turn)
    ensures Run(t, TurnEvents(turn)) == t + Bubbles(turn) && !EndsWith(t + Bubbles(turn), User)
  {
    var last := turn.burst[|turn.burst| - 1];
    SpeechAdds(t, last);
    var heard := t + [Entry(User, last.text, last.Final?)];
    assert t + Bubbles(turn) == heard + [Entry(Assistant, Concat(turn.reply), true)];
    hide Run, Step, Attempts, Chunks, Concat, Growing, Bubbles;
    var reply := Chunks(turn.reply) + [ChunkFinal];
    RunSplit(t, Attempts(turn.withdrawn) + turn.burst, reply);
    RunSplit(t, Attempts(turn.withdrawn), turn.burst);
    AttemptsLeaveNothing(t, turn.withdrawn);
    BurstCollapses(t, turn.burst);
    Reply(heard, turn.reply);
  }

  /** Folding the events of a whole conversation over the updaters shows exactly what is meant to be shown. */
  lemma {:induction false} ConversationShown(t: seq<Entry>, turns: seq<Turn>)
    requires !EndsWith(t, User)
    requires forall i :: 0 <= i < |turns| ==> WellFormedTurn(turns[i])
    ensures Run(t, Events(turns)) == t + Shown(turns)
    decreases |turns|
  {
    if turns == [] {
      assert t + Shown(turns) == t;
    } else {
      hide Run, TurnEvents, WellFormedTurn, Bubbles, EndsWith;
      var turn, rest := turns[0], turns[1..];
      RunSplit(t, TurnEvents(turn), Events(rest));
      TurnShown(t, turn);
      ConversationShown(t + Bubbles(turn), rest);
      Regroup(t, Bubbles(turn), Shown(rest));
    }
  }

  lemma Regroup(a: seq<Entry>, b: seq<Entry>, c: seq<Entry>)
    ensures (a + b) + c == a + (b + c)
  {
  }

  // ---------- Shape ----------

  /** Of two neighbouring assistant entries the earlier is final; two neighbouring user entries need `typed`. */
  predicate WellShaped(t: seq<Entry>, typed: bool) {
    forall i :: 0 < i < |t| && t[i - 1].role == t[i].role ==>
      if t[i].role == User then typed else t[i - 1].isFinal
  }

  lemma StepKeepsShape(t: seq<Entry>, e: Event, typed: bool)
    requires WellShaped(t, typed) && (e.SendText? ==> typed)
    ensures WellShaped(Step(t, e), typed)
  {
    var t' := Step(t, e);
    OnlyTheEndChanges(t, e);
    forall i | 0 < i < |t'| && t'[i - 1].role == t'[i].role
      ensures if t'[i].role == User then typed else t'[i - 1].isFinal
    {
      if i < |t'| - 1 {
        assert t'[i] == t[i] && t'[i - 1] == t[i - 1];
      } else if i < |t| {
        assert t'[i - 1] == t[i - 1];
      }
    }
  }

  /** On every session the transcript keeps its shape; neighbouring user entries come only from typed text. */
  lemma {:induction false} ShapeIsKept(t: seq<Entry>, es: seq<Event>, typed: bool)
    requires WellShaped(t, typed)
    requires !typed ==> forall i :: 0 <= i < |es| ==> !es[i].SendText?
    ensures WellShaped(Run(t, es), typed)
    decreases |es|
  {
    hide Step, WellShaped;
    if es != [] {
      StepKeepsShape(t, es[0], typed);
      ShapeIsKept(Step(t, es[0]), es[1..], typed);
    }
  }

  /** Every event changes at most the last entry, or adds or removes one at the end. */
  lemma OnlyTheEndChanges(t: seq<Entry>, e: Event)
    ensures var t' := Step(t, e);
      && |t| - 1 <= |t'| <= |t| + 1
      && (|t'| > |t| ==> t' == t + [t'[|t|]])
      && (|t'| == |t| > 0 ==> t'[..|t| - 1] == t[..|t| - 1])
      && (|t'| < |t| ==> t' == t[..|t| - 1] && e == Rollback)
  {
  }
}
