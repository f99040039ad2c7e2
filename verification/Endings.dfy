/** How a turn ends on any sink: its terminals come last and say one thing. */
module Endings {
  import opened Envelope
  import opened Groups
  import opened Outbox
  import opened Retention
  import opened Turn
  import opened Trace

  // ---------- the sink ----------

  /** What an outbox append comes to, as the turn sees it. */
  function FateOf(b: Box, r: Written): Fate {
    if r.ok then Took else Refused(!b.closed)
  }

  /** The sink's three outcomes are the outbox's: a taken record is held, a
      refused one that is kept waits last in the buffer, and a closed outbox
      changes nothing. */
  lemma AppendIsAFate(size: Sizer, b: Box, e: Entry, w: Weather)
    ensures var r := AppendBox(size, b, e, w);
            match FateOf(b, r)
            case Took => !r.moved && Stored(r.box) == Stored(b) + {e}
            case Refused(true) => r.box.buffered == b.buffered + [e] && (!r.moved ==> Stored(r.box) == Stored(b) + {e})
            case Refused(false) => r.box == b
  {
    if !b.closed {
      AppendKeepsEntries(size, b, e, w);
      FlushKeepsEntries(Buffering(size, b, e), w);
    }
  }

  // ---------- before the terminal ----------

  predicate NoTerminal(c: string, s: State) {
    s.bypassed == [] && forall r :: r in s.records ==> r.command == c && r.kind != Result
  }

  lemma SubmitAddsNoTerminal(env: Env, c: string, s: State, e: Entry)
    requires NoTerminal(c, s) && e.command == c && e.kind != Result
    ensures NoTerminal(c, Submit(env, s, e).s)
  {
  }

  lemma FlushAddsNoTerminal(env: Env, c: string, s: State)
    requires NoTerminal(c, s)
    ensures NoTerminal(c, FlushText(env, c, s).s)
  {
  }

  lemma TakeAddsNoTerminal(env: Env, c: string, s: State, i: Input, draining: bool)
    requires NoTerminal(c, s)
    ensures NoTerminal(c, Take(env, c, s, i, draining).s)
  {
    match i
    case Output(ch) =>
      var p := Submit(env, s, ProgressEntry(c, ch));
      FlushAddsNoTerminal(env, c, p.s.(lastSeq := Max(p.s.lastSeq, ch.seqNo)));
    case Happened(t, recent) =>
    case Watchdog =>
  }

  lemma {:induction false} TakeAllAddsNoTerminal(env: Env, c: string, s: State, ins: seq<Input>, draining: bool)
    requires NoTerminal(c, s)
    ensures NoTerminal(c, TakeAll(env, c, s, ins, draining).s)
    decreases |ins|
  {
    if ins != [] {
      TakeAddsNoTerminal(env, c, s, ins[0], draining);
      TakeAllAddsNoTerminal(env, c, Take(env, c, s, ins[0], draining).s, ins[1..], draining);
    }
  }

  lemma PumpedHasNoTerminal(env: Env, c: string, ctx: Option<Context>, ins: seq<Input>)
    ensures NoTerminal(c, Pumped(env, c, ctx, ins).s)
  {
    SubmitAddsNoTerminal(env, c, Fresh(ctx).(lastEventSeq := 1), EventEntry(c, 1, Lifecycle));
    TakeAllAddsNoTerminal(env, c, Started(env, c, ctx).s, ins, false);
  }

  lemma DrainedHasNoTerminal(env: Env, c: string, s: State, tail: seq<Input>)
    requires NoTerminal(c, s)
    ensures NoTerminal(c, Drained(env, c, s, tail))
  {
    FlushAddsNoTerminal(env, c, s);
    TakeAllAddsNoTerminal(env, c, FlushText(env, c, s).s, tail, true);
    FlushAddsNoTerminal(env, c, TakeAll(env, c, FlushText(env, c, s).s, tail, true).s);
  }

  // ---------- the terminal ----------

  /** All that a turn has to say before its terminal. */
  function Before(env: Env, c: string, ctx: Option<Context>, ins: seq<Input>, end: Ending): State {
    var p := Pumped(env, c, ctx, ins);
    if p.ok && end.Finished? then Drained(env, c, p.s, end.tail) else p.s
  }

  /** The terminal of a turn that is not interrupted: the runtime's own if the
      wait ended with it, else the write failure. */
  function TerminalOf(env: Env, c: string, ctx: Option<Context>, ins: seq<Input>, end: Ending): Entry {
    if Pumped(env, c, ctx, ins).ok && end.Finished? then RealResult(c, Before(env, c, ctx, ins, end), end)
    else ResultEntry(c, -1, 0, WRITE_FAILURE)
  }

  /** Its fields: the runtime's exit code, the progress counted, and its message,
      or the reason of a cancel if the runtime failed; for an append failure -1, no
      progress, and a message of its own. */
  lemma TerminalSays(env: Env, c: string, ctx: Option<Context>, ins: seq<Input>, end: Ending)
    ensures var e := TerminalOf(env, c, ctx, ins, end);
            if Pumped(env, c, ctx, ins).ok && end.Finished? then
              IsTerminalOf(e, c, end.exitCode, Before(env, c, ctx, ins, end).lastSeq,
                           if end.exitCode != 0 && end.reason != "" then end.reason else end.message)
            else IsTerminalOf(e, c, -1, 0, "agent outbox write failure")
  {
  }

  predicate AllAre(es: seq<Entry>, e: Entry) {
    forall x :: x in es ==> x == e
  }

  /** Copies of `e`, at most two in the outbox, behind everything else; at most
      one upload beside the outbox got through. */
  predicate SaysLast(s: State, before: State, e: Entry) {
    && before.records <= s.records && |s.records| <= |before.records| + 2
    && AllAre(s.records[|before.records|..], e)
    && |s.bypassed| <= 1 && AllAre(s.bypassed, e)
  }

  lemma DeliverSays(env: Env, s: State, before: State, e: Entry)
    requires before.records <= s.records && |s.records| <= |before.records| + 1 && AllAre(s.records[|before.records|..], e) && s.bypassed == []
    ensures SaysLast(Deliver(env, s, e).s, before, e)
    ensures !Deliver(env, s, e).ok ==> Deliver(env, s, e).s.bypassed == [] && |Deliver(env, s, e).s.records| <= |s.records| + 1
    ensures Deliver(env, s, e).ok ==> e in Deliver(env, s, e).s.records || e in Deliver(env, s, e).s.bypassed
  {
    var d := Deliver(env, s, e).s;
    assert d.records == s.records || d.records == s.records + [e];
    if d.records != s.records {
      assert d.records[|before.records|..] == s.records[|before.records|..] + [e];
      assert d.records[|d.records| - 1] == e;
    }
  }

  /** Whatever the sink does, and wherever the turn stops: an interrupted turn
      leaves no terminal, any other leaves copies of one terminal behind its
      other records. It goes missing only if the context has ended or each
      attempt was refused both ways. After an append failure an ended context
      means none; after a refused terminal, that it is not tried again. */
  lemma TerminalsComeLast(env: Env, c: string, ctx: Option<Context>, ins: seq<Input>, end: Ending, gone: bool)
    ensures var s, b, e := RunTurn(env, c, ctx, ins, end, gone), Before(env, c, ctx, ins, end), TerminalOf(env, c, ctx, ins, end);
            && NoTerminal(c, b)
            && (Pumped(env, c, ctx, ins).ok && end.Interrupted? ==> s == b)
            && SaysLast(s, b, e)
            && (gone && !Pumped(env, c, ctx, ins).ok ==> s == b)
            && (gone && Pumped(env, c, ctx, ins).ok && end.Finished? ==> s.submitted == b.submitted + [e])
            && (e !in s.records && e !in s.bypassed && !(Pumped(env, c, ctx, ins).ok && end.Interrupted?) ==>
                  gone || (!env.sink(s.submitted).Took? && s.bypasses > 0 && !env.bypass(s.bypasses - 1)))
  {
    var p, b, e := Pumped(env, c, ctx, ins), Before(env, c, ctx, ins, end), TerminalOf(env, c, ctx, ins, end);
    PumpedHasNoTerminal(env, c, ctx, ins);
    DrainedHasNoTerminalIf(env, c, p, end);
    if !(p.ok && end.Interrupted?) {
      DeliverSays(env, b, b, e);
      var d := Deliver(env, b, e);
      if p.ok && !d.ok { DeliverSays(env, d.s, b, e); }
    }
  }

  lemma DrainedHasNoTerminalIf(env: Env, c: string, p: Out, end: Ending)
    requires NoTerminal(c, p.s)
    ensures end.Finished? ==> NoTerminal(c, Drained(env, c, p.s, end.tail))
  {
    if end.Finished? { DrainedHasNoTerminal(env, c, p.s, end.tail); }
  }

  // ---------- what the terminal covers ----------

  /** The chunk whose progress record was refused and kept, if the inputs end
      with one. */
  function KeptChunk(env: Env, c: string, s: State, ins: seq<Input>, draining: bool): Option<Chunk>
    decreases |ins|
  {
    if ins == [] then None
    else
      var p := Take(env, c, s, ins[0], draining);
      if p.ok then KeptChunk(env, c, p.s, ins[1..], draining)
      else if ins[0].Output? && env.sink(s.submitted + [ProgressEntry(c, ins[0].chunk)]) == Refused(true) then Some(ins[0].chunk)
      else None
  }

  /** The same for a whole turn: before or during the drain. */
  function KeptBefore(env: Env, c: string, ctx: Option<Context>, ins: seq<Input>, end: Ending): Option<Chunk> {
    var p := Pumped(env, c, ctx, ins);
    if !Started(env, c, ctx).ok then None
    else if !p.ok then KeptChunk(env, c, Started(env, c, ctx).s, ins, false)
    else if end.Finished? then KeptChunk(env, c, FlushText(env, c, p.s).s, end.tail, true)
    else None
  }

  function With(n: int, k: Option<Chunk>): int {
    if k.Some? then Max(n, k.value.seqNo) else n
  }

  /** The largest progress seq recorded. */
  ghost predicate Reaches(c: string, s: State, n: int) {
    IsLastProgress(Members(s.records), c, n)
  }

  lemma EventKeepsReach(env: Env, c: string, s: State, t: EventType, n: int)
    requires Reaches(c, s, n)
    ensures Reaches(c, SubmitEvent(env, c, s, t).s, n)
  {
    var e := EventEntry(c, NextSeq(s.lastEventSeq), t);
    LastRecord(s.records, e);
    AddToLast(Members(s.records), c, n, e);
  }

  lemma FlushKeepsReach(env: Env, c: string, s: State, n: int)
    requires Reaches(c, s, n)
    ensures Reaches(c, FlushText(env, c, s).s, n) && FlushText(env, c, s).s.lastSeq == s.lastSeq
  {
    if s.merged.Some? && s.merged.value.text != "" {
      EventKeepsReach(env, c, s.(merged := None), TextDelta(s.merged.value.stream, s.merged.value.text), n);
    }
  }

  lemma ChunkReaches(env: Env, c: string, s: State, ch: Chunk, draining: bool)
    requires Reaches(c, s, s.lastSeq)
    ensures var p, kept := TakeChunk(env, c, s, ch, draining), env.sink(s.submitted + [ProgressEntry(c, ch)]) == Refused(true);
            && (kept ==> !p.ok) && Reaches(c, p.s, if kept then Max(p.s.lastSeq, ch.seqNo) else p.s.lastSeq)
  {
    var e := ProgressEntry(c, ch);
    LastRecord(s.records, e);
    AddToLast(Members(s.records), c, s.lastSeq, e);
    var p := Submit(env, s, e);
    if p.ok {
      var s1 := p.s.(lastSeq := Max(p.s.lastSeq, ch.seqNo));
      assert Reaches(c, s1, s1.lastSeq);
      FlushKeepsReach(env, c, s1, s1.lastSeq);
    }
  }

  lemma TakeReaches(env: Env, c: string, s: State, i: Input, draining: bool)
    requires Reaches(c, s, s.lastSeq)
    ensures var p, k := Take(env, c, s, i, draining), KeptChunk(env, c, s, [i], draining);
            (p.ok ==> k.None?) && Reaches(c, p.s, With(p.s.lastSeq, k))
  {
    match i
    case Output(ch) => ChunkReaches(env, c, s, ch, draining);
    case Watchdog => EventKeepsReach(env, c, s, Warning, s.lastSeq);
    case Happened(t, recent) =>
      EventKeepsReach(env, c, s, t, s.lastSeq);
      var p := SubmitEvent(env, c, s, t);
      if p.ok && s.context.Some? && t.UsageUpdate? && t.used.Some? {
        EventKeepsReach(env, c, p.s.(context := Some(p.s.context.value.(used := t.used.value))), CompactionFinished(true), s.lastSeq);
      }
  }

  lemma {:induction false} TakeAllReaches(env: Env, c: string, s: State, ins: seq<Input>, draining: bool)
    requires Reaches(c, s, s.lastSeq)
    ensures var p, k := TakeAll(env, c, s, ins, draining), KeptChunk(env, c, s, ins, draining);
            (p.ok ==> k.None?) && Reaches(c, p.s, With(p.s.lastSeq, k))
    decreases |ins|
  {
    if ins != [] {
      TakeReaches(env, c, s, ins[0], draining);
      var p := Take(env, c, s, ins[0], draining);
      if p.ok { TakeAllReaches(env, c, p.s, ins[1..], draining); }
    }
  }

  lemma StartReaches(env: Env, c: string, ctx: Option<Context>)
    ensures var p := Started(env, c, ctx); p.s.lastSeq == 0 && Reaches(c, p.s, 0)
  {
    EventKeepsReach(env, c, Fresh(ctx), Lifecycle, 0);
  }

  lemma DrainReaches(env: Env, c: string, s: State, tail: seq<Input>)
    requires Reaches(c, s, s.lastSeq)
    ensures var b := Drained(env, c, s, tail);
            Reaches(c, b, With(b.lastSeq, KeptChunk(env, c, FlushText(env, c, s).s, tail, true)))
  {
    FlushKeepsReach(env, c, s, s.lastSeq);
    var f := FlushText(env, c, s).s;
    TakeAllReaches(env, c, f, tail, true);
    FlushKeepsReach(env, c, TakeAll(env, c, f, tail, true).s,
                    With(TakeAll(env, c, f, tail, true).s.lastSeq, KeptChunk(env, c, f, tail, true)));
  }

  lemma BeforeReaches(env: Env, c: string, ctx: Option<Context>, ins: seq<Input>, end: Ending)
    ensures var b := Before(env, c, ctx, ins, end);
            Reaches(c, b, With(b.lastSeq, KeptBefore(env, c, ctx, ins, end)))
  {
    StartReaches(env, c, ctx);
    if Started(env, c, ctx).ok {
      TakeAllReaches(env, c, Started(env, c, ctx).s, ins, false);
      var p := Pumped(env, c, ctx, ins);
      if p.ok && end.Finished? { DrainReaches(env, c, p.s, end.tail); }
    }
  }

  /** On any sink. The terminal's watermark is the largest progress seq recorded
      exactly when no append failed before the runtime was done, or no progress
      was counted till then (the write-failure terminal always says 0), and no
      progress record was refused and kept, before or during the drain, with a
      seq above that watermark. */
  lemma TerminalCoversTheProgress(env: Env, c: string, ctx: Option<Context>, ins: seq<Input>, end: Ending)
    requires Pumped(env, c, ctx, ins).ok ==> end.Finished?
    ensures var p, b, e := Pumped(env, c, ctx, ins), Before(env, c, ctx, ins, end), TerminalOf(env, c, ctx, ins, end);
            var kept := KeptBefore(env, c, ctx, ins, end);
            IsLastProgress(Members(b.records), c, e.body.lastSeqNo)
            <==> (p.ok || p.s.lastSeq == 0) && (kept.Some? ==> kept.value.seqNo <= e.body.lastSeqNo)
  {
    BeforeReaches(env, c, ctx, ins, end);
    var b, e := Before(env, c, ctx, ins, end), TerminalOf(env, c, ctx, ins, end);
    var n := With(b.lastSeq, KeptBefore(env, c, ctx, ins, end));
    if IsLastProgress(Members(b.records), c, e.body.lastSeqNo) {
      LastProgressUnique(Members(b.records), c, e.body.lastSeqNo, n);
    }
    LastSeqIsNatural(env, c, ctx, ins);
  }

  lemma LastSeqIsNatural(env: Env, c: string, ctx: Option<Context>, ins: seq<Input>)
    ensures Pumped(env, c, ctx, ins).s.lastSeq >= 0
  {
    if Started(env, c, ctx).ok { LastSeqGrows(env, c, Started(env, c, ctx).s, ins, false); }
  }

  lemma {:induction false} LastSeqGrows(env: Env, c: string, s: State, ins: seq<Input>, draining: bool)
    ensures TakeAll(env, c, s, ins, draining).s.lastSeq >= s.lastSeq
    decreases |ins|
  {
    if ins != [] {
      var p := Take(env, c, s, ins[0], draining);
      assert p.s.lastSeq >= s.lastSeq;
      if p.ok { LastSeqGrows(env, c, p.s, ins[1..], draining); }
    }
  }

  // ---------- two turns whose terminal says too little ----------

  const FIVE := Output(Chunk(Stdout, "", 5))

  /** The second append, the chunk's, is refused and kept. */
  const SECOND_KEPT := Env((es: seq<Entry>) => if |es| == 2 then Refused(true) else Took, (k: nat) => false)

  /** During the drain: the runtime is done, the record is in the buffer, the
      terminal says 0. */
  lemma KeptInTheDrain(c: string)
    ensures var end := Finished([FIVE], 0, "", "");
            var b := Before(SECOND_KEPT, c, None, [], end);
            && Pumped(SECOND_KEPT, c, None, []).ok && KeptBefore(SECOND_KEPT, c, None, [], end) == Some(FIVE.chunk)
            && TerminalOf(SECOND_KEPT, c, None, [], end).body.lastSeqNo == 0
            && ProgressEntry(c, FIVE.chunk) in b.records
  {
    var s := Started(SECOND_KEPT, c, None).s;
    assert s.records == s.submitted == [EventEntry(c, 1, Lifecycle)];
    var p := TakeAll(SECOND_KEPT, c, s, [FIVE], true);
    assert p == Out(s.(records := s.records + [ProgressEntry(c, FIVE.chunk)], submitted := s.submitted + [ProgressEntry(c, FIVE.chunk)]), false);
    assert p.s.records[1] == ProgressEntry(c, FIVE.chunk);
  }

  /** Before it: the turn aborts with nothing counted, and the terminal says 0. */
  lemma KeptBeforeTheDrain(c: string, end: Ending)
    ensures var p, b := Pumped(SECOND_KEPT, c, None, [FIVE]), Before(SECOND_KEPT, c, None, [FIVE], end);
            && !p.ok && p.s.lastSeq == 0 && KeptBefore(SECOND_KEPT, c, None, [FIVE], end) == Some(FIVE.chunk)
            && TerminalOf(SECOND_KEPT, c, None, [FIVE], end).body.lastSeqNo == 0
            && ProgressEntry(c, FIVE.chunk) in b.records
  {
    var s := Started(SECOND_KEPT, c, None).s;
    assert s.records == s.submitted == [EventEntry(c, 1, Lifecycle)];
    var p := TakeAll(SECOND_KEPT, c, s, [FIVE], false);
    assert p == Out(s.(records := s.records + [ProgressEntry(c, FIVE.chunk)], submitted := s.submitted + [ProgressEntry(c, FIVE.chunk)]), false);
    assert p.s.records[1] == ProgressEntry(c, FIVE.chunk);
  }
}
