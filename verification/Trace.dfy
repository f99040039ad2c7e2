/** What the records of a healthy turn are: the grammar of its trace, and how to
    read events, chunks and deltas off one. */
module Trace {
  import opened Envelope
  import opened Groups
  import opened Retention
  import opened Turn

  // ---------- reading a trace ----------

  function EventSeqs(rs: seq<Entry>): seq<int> {
    if rs == [] then []
    else EventSeqs(rs[..|rs| - 1]) + if rs[|rs| - 1].kind == Event then [rs[|rs| - 1].seqNo] else []
  }

  /** The progress chunks recorded. */
  function Outputs(rs: seq<Entry>): seq<Chunk> {
    if rs == [] then []
    else
      var r := rs[|rs| - 1];
      Outputs(rs[..|rs| - 1]) + if r.kind == Progress && r.body.ProgressBody? then [Chunk(r.body.stream, r.body.content, r.seqNo)] else []
  }

  /** Events the turn loop itself derives from others. */
  predicate Derived(t: EventType) {
    t.TextDelta? || t == CompactionFinished(true)
  }

  function Originals(rs: seq<Entry>): seq<EventType> {
    if rs == [] then []
    else
      var r := rs[|rs| - 1];
      Originals(rs[..|rs| - 1]) + if r.kind == Event && r.body.EventBody? && !Derived(r.body.event) then [r.body.event] else []
  }

  function Deltas(rs: seq<Entry>): seq<Delta> {
    if rs == [] then []
    else
      var r := rs[|rs| - 1];
      Deltas(rs[..|rs| - 1]) + if r.kind == Event && r.body.EventBody? && r.body.event.TextDelta?
                               then [Delta(r.body.event.stream, r.body.event.text)] else []
  }

  lemma LastRecord(rs: seq<Entry>, e: Entry)
    ensures (rs + [e])[..|rs + [e]| - 1] == rs && (rs + [e])[|rs + [e]| - 1] == e
    ensures Members(rs + [e]) == Members(rs) + {e}
  {
  }

  // ---------- what goes in ----------

  function ChunkOf(i: Input): seq<Chunk> {
    if i.Output? then [i.chunk] else []
  }

  function EventOf(i: Input): seq<EventType> {
    match i
    case Output(_) => []
    case Happened(t, _) => [t]
    case Watchdog => [Warning]
  }

  function ChunksOf(ins: seq<Input>): seq<Chunk> {
    if ins == [] then [] else ChunkOf(ins[0]) + ChunksOf(ins[1..])
  }

  function EventsOf(ins: seq<Input>): seq<EventType> {
    if ins == [] then [] else EventOf(ins[0]) + EventsOf(ins[1..])
  }

  /** A runtime emits no derived event itself. */
  predicate Genuine(ins: seq<Input>) {
    forall i :: i in ins && i.Happened? ==> !Derived(i.event)
  }

  ghost predicate Healthy(env: Env) {
    forall es :: es != [] ==> env.sink(es).Took?
  }

  // ---------- the grammar ----------

  /** Event seqs count from 1, as an int32 counts. */
  predicate Numbered(ns: seq<int>) {
    forall k :: 0 <= k < |ns| ==> ns[k] == Wrap32(k + 1)
  }

  /** The counter runs through the int32s: the k-th seq is the int32 that differs
      from k by a multiple of 2^32. */
  lemma WrapStep(k: nat)
    ensures NextSeq(Wrap32(k)) == Wrap32(k + 1)
    ensures k <= 0x7FFF_FFFF ==> Wrap32(k) == k
    ensures -0x8000_0000 <= Wrap32(k) <= 0x7FFF_FFFF && (k - Wrap32(k)) % 0x1_0000_0000 == 0
  {
  }

  ghost predicate Form(c: string, s: State) {
    && s.bypassed == [] && s.records != [] && s.records[0] == EventEntry(c, 1, Lifecycle)
    && (forall r :: r in s.records ==> r.command == c && r.kind != Result)
    && Numbered(EventSeqs(s.records)) && s.lastEventSeq == Wrap32(|EventSeqs(s.records)|)
    && IsLastProgress(Members(s.records), c, s.lastSeq)
  }

  lemma EventKeepsForm(env: Env, c: string, s: State, t: EventType)
    requires Healthy(env) && Form(c, s)
    ensures SubmitEvent(env, c, s, t).ok && Form(c, SubmitEvent(env, c, s, t).s)
  {
    var e := EventEntry(c, NextSeq(s.lastEventSeq), t);
    LastRecord(s.records, e);
    WrapStep(|EventSeqs(s.records)|);
    assert SubmitEvent(env, c, s, t).s.records == s.records + [e];
    AddToLast(Members(s.records), c, s.lastSeq, e);
  }

  lemma AddToLast(es: set<Entry>, c: string, n: int, e: Entry)
    requires IsLastProgress(es, c, n) && e.command == c
    ensures IsLastProgress(es + {e}, c, if e.kind == Progress then Max(n, e.seqNo) else n)
  {
    assert e in es + {e};
    assert forall x :: x in es ==> x in es + {e};
  }

  lemma FlushKeepsForm(env: Env, c: string, s: State)
    requires Healthy(env) && Form(c, s)
    ensures FlushText(env, c, s).ok && Form(c, FlushText(env, c, s).s)
  {
    if s.merged.Some? && s.merged.value.text != "" {
      EventKeepsForm(env, c, s.(merged := None), TextDelta(s.merged.value.stream, s.merged.value.text));
    }
  }

  lemma ChunkKeepsForm(env: Env, c: string, s: State, ch: Chunk, draining: bool)
    requires Healthy(env) && Form(c, s)
    ensures TakeChunk(env, c, s, ch, draining).ok && Form(c, TakeChunk(env, c, s, ch, draining).s)
  {
    var e := ProgressEntry(c, ch);
    LastRecord(s.records, e);
    AddToLast(Members(s.records), c, s.lastSeq, e);
    var s1 := s.(records := s.records + [e], submitted := s.submitted + [e], lastSeq := Max(s.lastSeq, ch.seqNo));
    assert Form(c, s1);
    FlushKeepsForm(env, c, s1);
  }

  lemma ObserveKeepsForm(env: Env, c: string, s: State, t: EventType, recent: bool)
    requires Healthy(env) && Form(c, s)
    ensures Observe(env, c, s, t, recent).ok && Form(c, Observe(env, c, s, t, recent).s)
  {
    if s.context.Some? && t.UsageUpdate? && t.used.Some? {
      EventKeepsForm(env, c, s.(context := Some(s.context.value.(used := t.used.value))), CompactionFinished(true));
    }
  }

  lemma TakeKeepsForm(env: Env, c: string, s: State, i: Input, draining: bool)
    requires Healthy(env) && Form(c, s)
    ensures Take(env, c, s, i, draining).ok && Form(c, Take(env, c, s, i, draining).s)
  {
    match i
    case Output(ch) => ChunkKeepsForm(env, c, s, ch, draining);
    case Watchdog => EventKeepsForm(env, c, s, Warning);
    case Happened(t, recent) =>
      EventKeepsForm(env, c, s, t);
      ObserveKeepsForm(env, c, SubmitEvent(env, c, s, t).s, t, recent);
  }

  lemma {:induction false} TakeAllKeepsForm(env: Env, c: string, s: State, ins: seq<Input>, draining: bool)
    requires Healthy(env) && Form(c, s)
    ensures TakeAll(env, c, s, ins, draining).ok && Form(c, TakeAll(env, c, s, ins, draining).s)
    decreases |ins|
  {
    if ins != [] {
      TakeKeepsForm(env, c, s, ins[0], draining);
      TakeAllKeepsForm(env, c, Take(env, c, s, ins[0], draining).s, ins[1..], draining);
    }
  }

  lemma StartHasForm(env: Env, c: string, ctx: Option<Context>)
    requires Healthy(env)
    ensures Started(env, c, ctx).ok && Form(c, Started(env, c, ctx).s)
  {
    var e := EventEntry(c, 1, Lifecycle);
    LastRecord([], e);
    assert [] + [e] == [e] && EventSeqs([e]) == [1];
    assert NextSeq(0) == 1;
    assert Started(env, c, ctx).s.records == [e];
  }

  /** A terminal by its fields. */
  predicate IsTerminalOf(e: Entry, c: string, exitCode: int, lastSeqNo: int, message: string) {
    && e.command == c && e.kind == Result && e.seqNo == 1
    && e.body.ResultBody? && e.body.exitCode == exitCode && e.body.lastSeqNo == lastSeqNo && e.body.message == message
  }

  /** A whole trace: the lifecycle event first, event seqs 1 to n in log order,
      one terminal, last, whose watermark is the largest progress seq recorded. */
  ghost predicate IsTrace(rs: seq<Entry>, c: string, exitCode: int, message: string) {
    && |rs| >= 2
    && rs[0] == EventEntry(c, 1, Lifecycle)
    && (forall r :: r in rs ==> r.command == c)
    && (forall r :: r in rs[..|rs| - 1] ==> r.kind != Result)
    && Numbered(EventSeqs(rs))
    && exists n :: IsLastProgress(Members(rs), c, n) && IsTerminalOf(rs[|rs| - 1], c, exitCode, n, message)
  }

  lemma DrainKeepsForm(env: Env, c: string, s: State, tail: seq<Input>)
    requires Healthy(env) && Form(c, s)
    ensures Form(c, Drained(env, c, s, tail))
  {
    FlushKeepsForm(env, c, s);
    TakeAllKeepsForm(env, c, FlushText(env, c, s).s, tail, true);
    FlushKeepsForm(env, c, TakeAll(env, c, FlushText(env, c, s).s, tail, true).s);
  }

  lemma ResultClosesTheTrace(env: Env, c: string, s: State, exitCode: int, message: string)
    requires Healthy(env) && Form(c, s)
    ensures var d := Deliver(env, s, ResultEntry(c, exitCode, s.lastSeq, message));
            d.ok && d.s.bypassed == [] && IsTrace(d.s.records, c, exitCode, message)
  {
    var e := ResultEntry(c, exitCode, s.lastSeq, message);
    LastRecord(s.records, e);
    AddToLast(Members(s.records), c, s.lastSeq, e);
  }

  /** A turn that is not interrupted and whose sink takes every record leaves a
      whole trace, for every order of chunks, events, watchdog firings and
      inferred compactions. */
  lemma TurnLeavesATrace(env: Env, c: string, ctx: Option<Context>, ins: seq<Input>, end: Ending, gone: bool)
    requires Healthy(env) && end.Finished?
    ensures var s := RunTurn(env, c, ctx, ins, end, gone);
            && s.bypassed == []
            && IsTrace(s.records, c, end.exitCode, if end.reason != "" && end.exitCode != 0 then end.reason else end.message)
  {
    StartHasForm(env, c, ctx);
    TakeAllKeepsForm(env, c, Started(env, c, ctx).s, ins, false);
    var p := Pumped(env, c, ctx, ins).s;
    DrainKeepsForm(env, c, p, end.tail);
    ResultClosesTheTrace(env, c, Drained(env, c, p, end.tail), end.exitCode,
                         if end.reason != "" && end.exitCode != 0 then end.reason else end.message);
  }
}
