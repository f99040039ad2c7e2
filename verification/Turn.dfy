/** One turn: what it records, in what order, and how it ends
    (runCommand, drainOutput, mergedText and contextObserver). */
module Turn {
  import opened Envelope
  import opened Groups

  /** What an append to the sink comes to; a refused record may stay in the
      outbox's buffer all the same. */
  datatype Fate = Took | Refused(kept: bool)

  /** `sink(es)` is the fate of the last of the records submitted up to now, and
      `bypass(k)` tells whether the k-th direct upload gets through; without an
      uploader none does. */
  datatype Env = Env(sink: seq<Entry> -> Fate, bypass: nat -> bool)

  datatype Chunk = Chunk(stream: Stream, text: string, seqNo: int)

  /** Text waiting to become one TEXT_DELTA; a string holds bytes. */
  datatype Delta = Delta(stream: Stream, text: string)

  /** The agent's context state and the observer's memory of a message chunk. */
  datatype Context = Context(used: int, compacting: bool, chatted: bool)

  /** What the turn loop receives. `recent`: the last message chunk lies within
      the quiet window. */
  datatype Input =
    | Output(chunk: Chunk)
    | Happened(event: EventType, recent: bool)
    | Watchdog

  /** How the wait for the runtime ends: the turn's context goes away, or the
      runtime is done, with what it still had buffered. */
  datatype Ending =
    | Interrupted
    | Finished(tail: seq<Input>, exitCode: int, message: string, reason: string)

  datatype State = State(records: seq<Entry>, submitted: seq<Entry>, bypassed: seq<Entry>, bypasses: nat,
                         lastSeq: int, lastEventSeq: int, merged: Option<Delta>, context: Option<Context>)

  datatype Out = Out(s: State, ok: bool)

  const FLUSH_BYTES := 4096
  const WRITE_FAILURE := "agent outbox write failure"

  /** An int32, as it wraps. */
  function Wrap32(n: int): int {
    (n + 0x8000_0000) % 0x1_0000_0000 - 0x8000_0000
  }

  function NextSeq(n: int): int {
    Wrap32(n + 1)
  }

  // ---------- the specification of one input ----------

  function Submit(env: Env, s: State, e: Entry): Out {
    var s' := s.(submitted := s.submitted + [e]);
    match env.sink(s'.submitted)
    case Took => Out(s'.(records := s.records + [e]), true)
    case Refused(kept) => Out(s'.(records := if kept then s.records + [e] else s.records), false)
  }

  function ProgressEntry(c: string, ch: Chunk): Entry {
    Entry(c, Progress, ch.seqNo, ProgressBody(ch.stream, ch.text))
  }

  function EventEntry(c: string, seqNo: int, t: EventType): Entry {
    Entry(c, Event, seqNo, EventBody(t))
  }

  function ResultEntry(c: string, exitCode: int, lastSeqNo: int, message: string): Entry {
    Entry(c, Result, 1, ResultBody(exitCode, lastSeqNo, message))
  }

  function SubmitEvent(env: Env, c: string, s: State, t: EventType): Out {
    var seqNo := NextSeq(s.lastEventSeq);
    Submit(env, s.(lastEventSeq := seqNo), EventEntry(c, seqNo, t))
  }

  predicate Full(m: Option<Delta>, stream: Stream) {
    m.Some? && (stream != m.value.stream || |m.value.text| >= FLUSH_BYTES)
  }

  function Joined(m: Option<Delta>, stream: Stream, text: string): Option<Delta> {
    if m.Some? then Some(Delta(m.value.stream, m.value.text + text)) else Some(Delta(stream, text))
  }

  function FlushText(env: Env, c: string, s: State): Out {
    if s.merged.None? then Out(s, true)
    else
      var t := s.merged.value;
      var s' := s.(merged := None);
      if t.text == "" then Out(s', true) else SubmitEvent(env, c, s', TextDelta(t.stream, t.text))
  }

  /** A failed flush aborts the turn, but not the final drain. */
  function TakeChunk(env: Env, c: string, s: State, ch: Chunk, draining: bool): Out {
    var p := Submit(env, s, ProgressEntry(c, ch));
    if !p.ok then p
    else
      var s1 := p.s.(lastSeq := Max(p.s.lastSeq, ch.seqNo));
      var f := if Full(s1.merged, ch.stream) then FlushText(env, c, s1) else Out(s1, true);
      if !f.ok && !draining then f else Out(f.s.(merged := Joined(f.s.merged, ch.stream, ch.text)), true)
  }

  /** More than 30% below the previous observation, while the agent is quiet. */
  predicate LooksCompacted(ctx: Context, used: int, recent: bool) {
    && ctx.used > 0 && used >= 0 && ctx.used - used > 0
    && !((ctx.used - used) as real / ctx.used as real <= 0.3)
    && !(ctx.chatted && recent)
  }

  function Observe(env: Env, c: string, s: State, t: EventType, recent: bool): Out {
    if s.context.None? then Out(s, true)
    else
      var ctx := s.context.value;
      match t
      case CompactionStarted => Out(s.(context := Some(ctx.(compacting := true))), true)
      case CompactionFinished(_) => Out(s.(context := Some(ctx.(compacting := false, used := 0))), true)
      case UsageUpdate(Some(used)) =>
        var s' := s.(context := Some(ctx.(used := used)));
        if !ctx.compacting && LooksCompacted(ctx, used, recent) then SubmitEvent(env, c, s', CompactionFinished(true))
        else Out(s', true)
      case RawAcp(true) => Out(s.(context := Some(ctx.(chatted := true))), true)
      case _ => Out(s, true)
  }

  function TakeEvent(env: Env, c: string, s: State, t: EventType, recent: bool): Out {
    var p := SubmitEvent(env, c, s, t);
    if !p.ok then p else Observe(env, c, p.s, t, recent)
  }

  function Take(env: Env, c: string, s: State, i: Input, draining: bool): Out {
    match i
    case Output(ch) => TakeChunk(env, c, s, ch, draining)
    case Happened(t, recent) => TakeEvent(env, c, s, t, recent)
    case Watchdog => SubmitEvent(env, c, s, Warning)
  }

  /** Inputs up to the first that fails. */
  function TakeAll(env: Env, c: string, s: State, ins: seq<Input>, draining: bool): Out
    decreases |ins|
  {
    if ins == [] then Out(s, true)
    else
      var p := Take(env, c, s, ins[0], draining);
      if !p.ok then p else TakeAll(env, c, p.s, ins[1..], draining)
  }

  // ---------- the specification of the whole turn ----------

  function Fresh(ctx: Option<Context>): State {
    State([], [], [], 0, 0, 0, None, ctx)
  }

  function Deliver(env: Env, s: State, e: Entry): Out {
    var p := Submit(env, s, e);
    if p.ok then p
    else
      var s' := p.s.(bypasses := p.s.bypasses + 1);
      if env.bypass(p.s.bypasses) then Out(s'.(bypassed := s'.bypassed + [e]), true) else Out(s', false)
  }

  /** The turn's deferred call, when no terminal was delivered. */
  function Deferred(env: Env, c: string, s: State, pending: Option<Entry>, gone: bool): State {
    if gone then s
    else Deliver(env, s, if pending.Some? then pending.value else ResultEntry(c, -1, 0, WRITE_FAILURE)).s
  }

  function Drained(env: Env, c: string, s: State, tail: seq<Input>): State {
    FlushText(env, c, TakeAll(env, c, FlushText(env, c, s).s, tail, true).s).s
  }

  function Started(env: Env, c: string, ctx: Option<Context>): Out {
    SubmitEvent(env, c, Fresh(ctx), Lifecycle)
  }

  function Pumped(env: Env, c: string, ctx: Option<Context>, ins: seq<Input>): Out {
    var p := Started(env, c, ctx);
    if p.ok then TakeAll(env, c, p.s, ins, false) else p
  }

  function RealResult(c: string, s: State, end: Ending): Entry
    requires end.Finished?
  {
    ResultEntry(c, end.exitCode, s.lastSeq, if end.reason != "" && end.exitCode != 0 then end.reason else end.message)
  }

  /** `gone` tells whether the turn's context has ended by the time of the
      deferred call. */
  function RunTurn(env: Env, c: string, ctx: Option<Context>, ins: seq<Input>, end: Ending, gone: bool): State {
    var p := Pumped(env, c, ctx, ins);
    if !p.ok then Deferred(env, c, p.s, None, gone)
    else if end.Interrupted? then p.s
    else
      var s := Drained(env, c, p.s, end.tail);
      var e := RealResult(c, s, end);
      var d := Deliver(env, s, e);
      if d.ok then d.s else Deferred(env, c, d.s, Some(e), gone)
  }

  // ---------- the turn as the agent runs it ----------

  class Turn {
    const env: Env
    const command: string

    var records: seq<Entry>
    var submitted: seq<Entry>
    var bypassed: seq<Entry>
    var bypasses: nat
    var lastSeqSent: int
    var lastEventSeqSent: int

    // mergedText
    var builder: string
    var streamType: Stream
    var started: bool

    // contextObserver and its context state; untracked when the state is nil
    var tracked: bool
    var used: int
    var compacting: bool
    var chatted: bool

    ghost function Value(): State
      reads this
    {
      State(records, submitted, bypassed, bypasses, lastSeqSent, lastEventSeqSent,
            if started then Some(Delta(streamType, builder)) else None,
            if tracked then Some(Context(used, compacting, chatted)) else None)
    }

    constructor (env: Env, command: string, ctx: Option<Context>)
      ensures this.env == env && this.command == command && Value() == Fresh(ctx)
    {
      this.env, this.command := env, command;
      records, submitted, bypassed, bypasses := [], [], [], 0;
      lastSeqSent, lastEventSeqSent := 0, 0;
      builder, streamType, started := "", Unknown, false;
      tracked := ctx.Some?;
      used := if ctx.Some? then ctx.value.used else 0;
      compacting := ctx.Some? && ctx.value.compacting;
      chatted := ctx.Some? && ctx.value.chatted;
    }

    method Append(e: Entry) returns (ok: bool)
      modifies `records, `submitted
      ensures Out(Value(), ok) == Submit(env, old(Value()), e)
      ensures submitted == old(submitted) + [e] && (ok <==> env.sink(submitted).Took?)
      ensures records == if ok || env.sink(submitted) == Refused(true) then old(records) + [e] else old(records)
    {
      submitted := submitted + [e];
      var fate := env.sink(submitted);
      ok := fate.Took?;
      if ok || fate.kept { records := records + [e]; }
    }

    method NextEventSeq() returns (n: int)
      modifies `lastEventSeqSent
      ensures n == NextSeq(old(lastEventSeqSent)) && Value() == old(Value()).(lastEventSeq := n)
    {
      lastEventSeqSent := Wrap32(lastEventSeqSent + 1);
      n := lastEventSeqSent;
    }

    method AppendEvent(t: EventType) returns (ok: bool)
      modifies `lastEventSeqSent, `records, `submitted
      ensures Out(Value(), ok) == SubmitEvent(env, command, old(Value()), t)
    {
      var n := NextEventSeq();
      ok := Append(EventEntry(command, n, t));
    }

    /** Tells whether the pending run must be flushed first; the text is not
        taken then. */
    method AppendText(stream: Stream, text: string) returns (full: bool)
      modifies `builder, `streamType, `started
      ensures full == Full(old(Value()).merged, stream)
      ensures full == (old(started) && (stream != old(streamType) || |old(builder)| >= 4096))
      ensures Value() == if full then old(Value()) else old(Value()).(merged := Joined(old(Value()).merged, stream, text))
    {
      if started && (stream != streamType || |builder| >= FLUSH_BYTES) {
        return true;
      }
      if !started {
        started, streamType, builder := true, stream, "";
      }
      assert "" + text == text;
      builder := builder + text;
      full := false;
    }

    method Flush() returns (ok: bool)
      modifies this
      ensures Out(Value(), ok) == FlushText(env, command, old(Value()))
      ensures !started && tracked == old(tracked) && used == old(used) && compacting == old(compacting) && chatted == old(chatted)
      ensures if old(started) && old(builder) != "" then
                && submitted == old(submitted) + [Entry(command, Event, lastEventSeqSent, EventBody(TextDelta(old(streamType), old(builder))))]
                && lastEventSeqSent == NextSeq(old(lastEventSeqSent)) && (ok <==> env.sink(submitted).Took?)
              else ok && submitted == old(submitted) && lastEventSeqSent == old(lastEventSeqSent)
    {
      if !started { return true; }
      var text := builder;
      builder := "";
      started := false;
      if text == "" { return true; }
      ok := AppendEvent(TextDelta(streamType, text));
    }

    method OnChunk(ch: Chunk, draining: bool) returns (ok: bool)
      modifies this
      ensures Out(Value(), ok) == TakeChunk(env, command, old(Value()), ch, draining)
      ensures var sent := old(submitted) + [Entry(command, Progress, ch.seqNo, ProgressBody(ch.stream, ch.text))];
              var full := old(started) && (ch.stream != old(streamType) || |old(builder)| >= 4096);
              if !env.sink(sent).Took? then
                // the record is refused: nothing is counted or merged
                && !ok && submitted == sent && lastSeqSent == old(lastSeqSent)
                && started == old(started) && (started ==> builder == old(builder) && streamType == old(streamType))
              else if !full then
                && ok && submitted == sent && lastSeqSent == Max(old(lastSeqSent), ch.seqNo) && started
                && streamType == (if old(started) then old(streamType) else ch.stream)
                && builder == (if old(started) then old(builder) else "") + ch.text
              else
                // the run is flushed first; if that fails the chunk's text is kept only in the drain
                && lastSeqSent == Max(old(lastSeqSent), ch.seqNo)
                && |submitted| == |sent| + (if old(builder) == "" then 0 else 1)
                && (ok <==> draining || old(builder) == "" || env.sink(submitted).Took?)
                && started == ok && (ok ==> streamType == ch.stream && builder == ch.text)
    {
      ok := Append(ProgressEntry(command, ch));
      if !ok { return; }
      if ch.seqNo > lastSeqSent { lastSeqSent := ch.seqNo; }
      var full := AppendText(ch.stream, ch.text);
      if full {
        ok := Flush();
        if !ok && !draining { return; }
        var again := AppendText(ch.stream, ch.text);
        ok := true;
      }
    }

    method EmitInferredCompaction() returns (ok: bool)
      modifies this
      requires tracked && !compacting
      ensures Out(Value(), ok) == SubmitEvent(env, command, old(Value()), CompactionFinished(true))
    {
      compacting := false;
      ok := AppendEvent(CompactionFinished(true));
    }

    method OnEventObserved(t: EventType, recent: bool) returns (ok: bool)
      modifies this
      ensures Out(Value(), ok) == Observe(env, command, old(Value()), t, recent)
    {
      ok := true;
      if !tracked { return; }
      match t
      case CompactionStarted => compacting := true;
      case CompactionFinished(_) => compacting := false; used := 0;
      case UsageUpdate(u) =>
        if u.None? { return; }
        var prev := Context(used, compacting, chatted);
        used := u.value;
        if !compacting && LooksCompacted(prev, u.value, recent) { ok := EmitInferredCompaction(); }
      case RawAcp(agentMessage) => if agentMessage { chatted := true; }
      case _ =>
    }

    method OnEvent(t: EventType, recent: bool) returns (ok: bool)
      modifies this
      ensures Out(Value(), ok) == TakeEvent(env, command, old(Value()), t, recent)
      ensures var sent := old(submitted) + [Entry(command, Event, NextSeq(old(lastEventSeqSent)), EventBody(t))];
              !env.sink(sent).Took? ==>
                && !ok && submitted == sent
                && used == old(used) && compacting == old(compacting) && chatted == old(chatted)
    {
      ok := AppendEvent(t);
      if ok { ok := OnEventObserved(t, recent); }
    }

    method OnInput(i: Input, draining: bool) returns (ok: bool)
      modifies this
      ensures Out(Value(), ok) == Take(env, command, old(Value()), i, draining)
    {
      match i
      case Output(ch) => ok := OnChunk(ch, draining);
      case Happened(t, recent) => ok := OnEvent(t, recent);
      case Watchdog => ok := AppendEvent(Warning);
    }

    method Pump(ins: seq<Input>, draining: bool) returns (ok: bool)
      modifies this
      ensures Out(Value(), ok) == TakeAll(env, command, old(Value()), ins, draining)
    {
      ok := true;
      var i := 0;
      while ok && i < |ins|
        invariant i <= |ins|
        invariant TakeAll(env, command, old(Value()), ins, draining)
                  == if ok then TakeAll(env, command, Value(), ins[i..], draining) else Out(Value(), false)
      {
        ok := OnInput(ins[i], draining);
        i := i + 1;
      }
    }

    method DrainOutput(tail: seq<Input>)
      modifies this
      ensures Value() == FlushText(env, command, TakeAll(env, command, old(Value()), tail, true).s).s
    {
      var ok := Pump(tail, true);
      ok := Flush();
    }

    /** The runtime is done. */
    method RecordTheRest(tail: seq<Input>)
      modifies this
      ensures Value() == Drained(env, command, old(Value()), tail)
    {
      var flushed := Flush();
      DrainOutput(tail);
      flushed := Flush();
    }

    method DeliverTerminal(e: Entry) returns (ok: bool)
      modifies this
      ensures Out(Value(), ok) == Deliver(env, old(Value()), e)
      ensures submitted == old(submitted) + [e]
      ensures env.sink(submitted).Took? ==> ok && bypasses == old(bypasses) && bypassed == old(bypassed)
      ensures !env.sink(submitted).Took? ==>
                && ok == env.bypass(old(bypasses)) && bypasses == old(bypasses) + 1
                && bypassed == if ok then old(bypassed) + [e] else old(bypassed)
    {
      ok := Append(e);
      if !ok {
        ok := env.bypass(bypasses);
        bypasses := bypasses + 1;
        if ok { bypassed := bypassed + [e]; }
      }
    }

    method RunCommand(ghost ctx: Option<Context>, ins: seq<Input>, end: Ending, gone: bool)
      requires Value() == Fresh(ctx)
      modifies this
      ensures Value() == RunTurn(env, command, ctx, ins, end, gone)
    {
      var ok := AppendEvent(Lifecycle);
      if ok { ok := Pump(ins, false); }
      var pending := None;
      if ok {
        if end.Interrupted? { return; }
        RecordTheRest(end.tail);
        pending := Some(ResultEntry(command, end.exitCode, lastSeqSent,
                                    if end.reason != "" && end.exitCode != 0 then end.reason else end.message));
        var delivered := DeliverTerminal(pending.value);
        if delivered { return; }
      }
      if !gone {
        var delivered := DeliverTerminal(if pending.Some? then pending.value else ResultEntry(command, -1, 0, WRITE_FAILURE));
      }
    }
  }
}
