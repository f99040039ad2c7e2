/** The text of a turn: the TEXT_DELTA events say what the progress chunks say,
    in runs. */
module Coalescing {
  import opened Envelope
  import opened Sequences
  import opened Turn
  import opened Trace

  // ---------- runs of chunks ----------

  function Concat(g: seq<Chunk>): string {
    if g == [] then "" else Concat(g[..|g| - 1]) + g[|g| - 1].text
  }

  /** The chunks in runs; the open run is the last one, empty when there is none. */
  datatype Runs = Runs(closed: seq<seq<Chunk>>, open: seq<Chunk>)

  /** A chunk joins the open run unless it is of another stream or the run has
      reached the cap. */
  predicate Fits(g: seq<Chunk>, ch: Chunk) {
    g == [] || (g[0].stream == ch.stream && |Concat(g)| < 4096)
  }

  function RunsOf(chs: seq<Chunk>): Runs {
    if chs == [] then Runs([], [])
    else
      var r, ch := RunsOf(chs[..|chs| - 1]), chs[|chs| - 1];
      if Fits(r.open, ch) then Runs(r.closed, r.open + [ch]) else Runs(r.closed + [r.open], [ch])
  }

  function AllRuns(chs: seq<Chunk>): seq<seq<Chunk>> {
    var r := RunsOf(chs);
    if r.open == [] then r.closed else r.closed + [r.open]
  }

  function Flatten(gs: seq<seq<Chunk>>): seq<Chunk> {
    if gs == [] then [] else Flatten(gs[..|gs| - 1]) + gs[|gs| - 1]
  }

  /** One stream, and under the cap before its last chunk. */
  predicate IsRun(g: seq<Chunk>) {
    && g != [] && (forall i :: 0 <= i < |g| ==> g[i].stream == g[0].stream)
    && |Concat(g[..|g| - 1])| < 4096
  }

  /** Two neighbours that could not have been one run. */
  predicate Apart(g: seq<Chunk>, h: seq<Chunk>) {
    g != [] && h != [] && !Fits(g, h[0])
  }

  predicate Greedy(gs: seq<seq<Chunk>>) {
    (forall i :: 0 <= i < |gs| ==> IsRun(gs[i])) && (forall i :: 0 < i < |gs| ==> Apart(gs[i - 1], gs[i]))
  }

  /** The runs hold every chunk once, in order, each is a run, and no two
      neighbours could have been merged. */
  lemma {:induction false} RunsAreGreedy(chs: seq<Chunk>)
    ensures Flatten(AllRuns(chs)) == chs && Greedy(AllRuns(chs))
    ensures RunsOf(chs).open == [] ==> chs == []
  {
    if chs != [] {
      var init, ch := chs[..|chs| - 1], chs[|chs| - 1];
      RunsAreGreedy(init);
      var r, r' := RunsOf(init), RunsOf(chs);
      assert chs == init + [ch];
      if r.open == [] {
        assert r'.closed == [] && [ch][..0] == [] && [] + [ch] == [ch];
        assert AllRuns(chs)[..0] == [];
      } else if Fits(r.open, ch) {
        RunGrows(r.closed, r.open, ch);
      } else {
        RunCloses(r.closed + [r.open], ch);
      }
    }
  }

  lemma FlattenMore(gs: seq<seq<Chunk>>, g: seq<Chunk>)
    ensures Flatten(gs + [g]) == Flatten(gs) + g
  {
    assert (gs + [g])[..|gs + [g]| - 1] == gs;
  }

  lemma GreedyMore(gs: seq<seq<Chunk>>, g: seq<Chunk>)
    requires Greedy(gs) && IsRun(g) && (gs != [] ==> Apart(gs[|gs| - 1], g))
    ensures Greedy(gs + [g])
  {
  }

  lemma GreedyInit(gs: seq<seq<Chunk>>, g: seq<Chunk>)
    requires Greedy(gs + [g])
    ensures Greedy(gs) && IsRun(g) && (gs != [] ==> Apart(gs[|gs| - 1], g))
  {
    var all := gs + [g];
    assert forall i :: 0 <= i < |gs| ==> gs[i] == all[i];
    assert all[|gs|] == g && IsRun(all[|gs|]);
    forall i | 0 < i < |gs| ensures Apart(gs[i - 1], gs[i]) {
      assert Apart(all[i - 1], all[i]);
    }
    if gs != [] { assert Apart(all[|gs| - 1], all[|gs|]); }
  }

  lemma RunGrows(closed: seq<seq<Chunk>>, g: seq<Chunk>, ch: Chunk)
    requires Greedy(closed + [g]) && Fits(g, ch)
    ensures Greedy(closed + [g + [ch]]) && Flatten(closed + [g + [ch]]) == Flatten(closed + [g]) + [ch]
  {
    GreedyInit(closed, g);
    assert (g + [ch])[..|g + [ch]| - 1] == g;
    GreedyMore(closed, g + [ch]);
    FlattenMore(closed, g);
    FlattenMore(closed, g + [ch]);
    Assoc(Flatten(closed), g, [ch]);
  }

  lemma RunCloses(gs: seq<seq<Chunk>>, ch: Chunk)
    requires Greedy(gs) && gs != [] && !Fits(gs[|gs| - 1], ch)
    ensures Greedy(gs + [[ch]]) && Flatten(gs + [[ch]]) == Flatten(gs) + [ch]
  {
    assert [ch][..0] == [];
    GreedyMore(gs, [ch]);
    FlattenMore(gs, [ch]);
  }

  /** The text of a run. */
  function TextOf(g: seq<Chunk>): Delta {
    Delta(if g == [] then Unknown else g[0].stream, Concat(g))
  }

  function NonEmpty(m: Option<Delta>): seq<Delta> {
    if m.Some? && m.value.text != "" then [m.value] else []
  }

  /** One delta for each run with any text. */
  function TextsOf(gs: seq<seq<Chunk>>): seq<Delta> {
    if gs == [] then [] else TextsOf(gs[..|gs| - 1]) + NonEmpty(Some(TextOf(gs[|gs| - 1])))
  }

  lemma TextsOfOneMore(gs: seq<seq<Chunk>>, g: seq<Chunk>)
    ensures TextsOf(gs + [g]) == TextsOf(gs) + NonEmpty(Some(TextOf(g)))
  {
    assert (gs + [g])[..|gs + [g]| - 1] == gs;
  }

  // ---------- what each step writes ----------

  predicate Told(s: State, outs: seq<Chunk>, evs: seq<EventType>, deltas: seq<Delta>) {
    Outputs(s.records) == outs && Originals(s.records) == evs && Deltas(s.records) == deltas
  }

  lemma EventTells(env: Env, c: string, s: State, t: EventType, outs: seq<Chunk>, evs: seq<EventType>, deltas: seq<Delta>)
    requires Healthy(env) && Told(s, outs, evs, deltas)
    ensures var p := SubmitEvent(env, c, s, t);
            && p.ok && p.s.merged == s.merged && p.s.context == s.context
            && Told(p.s, outs, if Derived(t) then evs else evs + [t], if t.TextDelta? then deltas + [Delta(t.stream, t.text)] else deltas)
  {
    LastRecord(s.records, EventEntry(c, NextSeq(s.lastEventSeq), t));
  }

  lemma FlushTells(env: Env, c: string, s: State, outs: seq<Chunk>, evs: seq<EventType>, deltas: seq<Delta>)
    requires Healthy(env) && Told(s, outs, evs, deltas)
    ensures var p := FlushText(env, c, s);
            p.ok && p.s.merged == None && Told(p.s, outs, evs, deltas + NonEmpty(s.merged))
  {
    if s.merged.Some? && s.merged.value.text != "" {
      EventTells(env, c, s.(merged := None), TextDelta(s.merged.value.stream, s.merged.value.text), outs, evs, deltas);
    }
  }

  lemma ChunkTells(env: Env, c: string, s: State, ch: Chunk, draining: bool, outs: seq<Chunk>, evs: seq<EventType>, deltas: seq<Delta>)
    requires Healthy(env) && Told(s, outs, evs, deltas)
    ensures var p, full := TakeChunk(env, c, s, ch, draining), Full(s.merged, ch.stream);
            && p.ok && p.s.merged == Joined(if full then None else s.merged, ch.stream, ch.text)
            && Told(p.s, outs + [ch], evs, if full then deltas + NonEmpty(s.merged) else deltas)
  {
    LastRecord(s.records, ProgressEntry(c, ch));
    var s1 := Submit(env, s, ProgressEntry(c, ch)).s.(lastSeq := Groups.Max(s.lastSeq, ch.seqNo));
    assert Told(s1, outs + [ch], evs, deltas);
    FlushTells(env, c, s1, outs + [ch], evs, deltas);
  }

  lemma HappenedTells(env: Env, c: string, s: State, t: EventType, recent: bool, outs: seq<Chunk>, evs: seq<EventType>, deltas: seq<Delta>)
    requires Healthy(env) && Told(s, outs, evs, deltas) && !Derived(t)
    ensures var p := TakeEvent(env, c, s, t, recent);
            p.ok && p.s.merged == s.merged && Told(p.s, outs, evs + [t], deltas)
  {
    EventTells(env, c, s, t, outs, evs, deltas);
    var p := SubmitEvent(env, c, s, t);
    if Observe(env, c, p.s, t, recent).s.records != p.s.records {
      EventTells(env, c, p.s.(context := Some(p.s.context.value.(used := t.used.value))), CompactionFinished(true), outs, evs + [t], deltas);
    }
  }

  // ---------- the deltas are the runs ----------

  function Pending(g: seq<Chunk>): Option<Delta> {
    if g == [] then None else Some(TextOf(g))
  }

  /** The chunks of a phase so far: the closed runs are written, the open one is
      pending. */
  predicate Merging(s: State, outs: seq<Chunk>, evs: seq<EventType>, done: seq<Delta>, chs: seq<Chunk>) {
    s.merged == Pending(RunsOf(chs).open) && Told(s, outs, evs, done + TextsOf(RunsOf(chs).closed))
  }

  lemma PendingGrows(g: seq<Chunk>, ch: Chunk)
    ensures Full(Pending(g), ch.stream) <==> !Fits(g, ch)
    ensures Pending(g + [ch]) == Joined(Pending(g), ch.stream, ch.text)
  {
    assert (g + [ch])[..|g + [ch]| - 1] == g;
    assert Concat(g + [ch]) == Concat(g) + ch.text;
    assert "" + ch.text == ch.text;
  }

  /** A chunk more: it joins the open run, or closes it. */
  lemma RunsGrow(chs: seq<Chunk>, ch: Chunk, done: seq<Delta>)
    ensures var r, r' := RunsOf(chs), RunsOf(chs + [ch]);
            var full := Full(Pending(r.open), ch.stream);
            && Pending(r'.open) == Joined(if full then None else Pending(r.open), ch.stream, ch.text)
            && done + TextsOf(r'.closed) == done + TextsOf(r.closed) + if full then NonEmpty(Pending(r.open)) else []
  {
    var r := RunsOf(chs);
    assert (chs + [ch])[..|chs + [ch]| - 1] == chs;
    PendingGrows(r.open, ch);
    if !Fits(r.open, ch) {
      PendingGrows([], ch);
      assert [] + [ch] == [ch];
      TextsOfOneMore(r.closed, r.open);
      assert done + TextsOf(r.closed + [r.open]) == done + TextsOf(r.closed) + NonEmpty(Pending(r.open));
    }
  }

  lemma ChunkMerges(env: Env, c: string, s: State, ch: Chunk, draining: bool,
                    outs: seq<Chunk>, evs: seq<EventType>, done: seq<Delta>, chs: seq<Chunk>)
    requires Healthy(env) && Merging(s, outs, evs, done, chs)
    ensures var p := TakeChunk(env, c, s, ch, draining);
            p.ok && Merging(p.s, outs + [ch], evs, done, chs + [ch])
  {
    ChunkTells(env, c, s, ch, draining, outs, evs, done + TextsOf(RunsOf(chs).closed));
    RunsGrow(chs, ch, done);
  }

  lemma OneMerges(env: Env, c: string, s: State, i: Input, draining: bool,
                  outs: seq<Chunk>, evs: seq<EventType>, done: seq<Delta>, chs: seq<Chunk>)
    requires Healthy(env) && Genuine([i]) && Merging(s, outs, evs, done, chs)
    ensures var p := Take(env, c, s, i, draining);
            p.ok && Merging(p.s, outs + ChunkOf(i), evs + EventOf(i), done, chs + ChunkOf(i))
  {
    var written := done + TextsOf(RunsOf(chs).closed);
    assert i in [i];
    if i.Output? {
      ChunkMerges(env, c, s, i.chunk, draining, outs, evs, done, chs);
      assert ChunkOf(i) == [i.chunk] && evs + EventOf(i) == evs;
    } else {
      assert outs + ChunkOf(i) == outs && chs + ChunkOf(i) == chs;
      if i.Happened? {
        HappenedTells(env, c, s, i.event, i.recent, outs, evs, written);
        assert EventOf(i) == [i.event];
      } else {
        EventTells(env, c, s, Warning, outs, evs, written);
        assert EventOf(i) == [Warning];
      }
    }
  }

  lemma {:induction false} AllMerge(env: Env, c: string, s: State, ins: seq<Input>, draining: bool,
                                    outs: seq<Chunk>, evs: seq<EventType>, done: seq<Delta>, chs: seq<Chunk>)
    requires Healthy(env) && Genuine(ins) && Merging(s, outs, evs, done, chs)
    ensures var p := TakeAll(env, c, s, ins, draining);
            p.ok && Merging(p.s, outs + ChunksOf(ins), evs + EventsOf(ins), done, chs + ChunksOf(ins))
    decreases |ins|
  {
    if ins == [] {
      assert outs + [] == outs && evs + [] == evs && chs + [] == chs;
    } else {
      OneMerges(env, c, s, ins[0], draining, outs, evs, done, chs);
      FirstInput(ins, outs, evs);
      FirstInput(ins, chs, evs);
      AllMerge(env, c, Take(env, c, s, ins[0], draining).s, ins[1..], draining,
               outs + ChunkOf(ins[0]), evs + EventOf(ins[0]), done, chs + ChunkOf(ins[0]));
    }
  }

  lemma FirstInput(ins: seq<Input>, outs: seq<Chunk>, evs: seq<EventType>)
    requires ins != []
    ensures outs + ChunksOf(ins) == outs + ChunkOf(ins[0]) + ChunksOf(ins[1..])
    ensures evs + EventsOf(ins) == evs + EventOf(ins[0]) + EventsOf(ins[1..])
  {
    Assoc(outs, ChunkOf(ins[0]), ChunksOf(ins[1..]));
    Assoc(evs, EventOf(ins[0]), EventsOf(ins[1..]));
  }

  lemma FlushEndsThePhase(env: Env, c: string, s: State, outs: seq<Chunk>, evs: seq<EventType>, done: seq<Delta>, chs: seq<Chunk>)
    requires Healthy(env) && Merging(s, outs, evs, done, chs)
    ensures var p := FlushText(env, c, s);
            p.s.merged == None && Told(p.s, outs, evs, done + TextsOf(AllRuns(chs)))
  {
    var r := RunsOf(chs);
    FlushTells(env, c, s, outs, evs, done + TextsOf(r.closed));
    if r.open != [] {
      TextsOfOneMore(r.closed, r.open);
      Assoc(done, TextsOf(r.closed), NonEmpty(s.merged));
    }
  }

  /** On a healthy sink, an uninterrupted turn records every chunk and every
      event it received, in order, and its deltas are the runs of the chunks that
      came before the runtime was done and of those drained after. */
  lemma DeltasAreTheRuns(env: Env, c: string, ctx: Option<Context>, ins: seq<Input>, end: Ending, gone: bool)
    requires Healthy(env) && end.Finished? && Genuine(ins) && Genuine(end.tail)
    ensures var rs := RunTurn(env, c, ctx, ins, end, gone).records;
            && Outputs(rs) == ChunksOf(ins) + ChunksOf(end.tail)
            && Originals(rs) == [Lifecycle] + EventsOf(ins) + EventsOf(end.tail)
            && Deltas(rs) == TextsOf(AllRuns(ChunksOf(ins))) + TextsOf(AllRuns(ChunksOf(end.tail)))
  {
    StartTells(env, c, ctx);
    PhaseTells(env, c, Started(env, c, ctx).s, ins, false, [], [Lifecycle], []);
    var o, v, d := ChunksOf(ins), [Lifecycle] + EventsOf(ins), TextsOf(AllRuns(ChunksOf(ins)));
    assert [] + o == o && [] + d == d;
    var s1 := Pumped(env, c, ctx, ins).s;
    PhaseTells(env, c, FlushText(env, c, s1).s, end.tail, true, o, v, d);
    ResultTells(env, c, Drained(env, c, s1, end.tail), end);
  }

  lemma StartTells(env: Env, c: string, ctx: Option<Context>)
    requires Healthy(env)
    ensures var p := Started(env, c, ctx); p.ok && p.s.merged == None && Told(p.s, [], [Lifecycle], [])
  {
    EventTells(env, c, Fresh(ctx), Lifecycle, [], [], []);
    assert [] + [Lifecycle] == [Lifecycle];
  }

  lemma ResultTells(env: Env, c: string, s: State, end: Ending)
    requires Healthy(env) && end.Finished?
    ensures var d := Deliver(env, s, RealResult(c, s, end));
            d.ok && Told(d.s, Outputs(s.records), Originals(s.records), Deltas(s.records))
  {
    LastRecord(s.records, RealResult(c, s, end));
  }

  lemma PhaseTells(env: Env, c: string, s: State, ins: seq<Input>, draining: bool, outs: seq<Chunk>, evs: seq<EventType>, done: seq<Delta>)
    requires Healthy(env) && Genuine(ins) && s.merged == None && Told(s, outs, evs, done)
    ensures var p := TakeAll(env, c, s, ins, draining); var f := FlushText(env, c, p.s);
            && p.ok && f.s.merged == None
            && Told(f.s, outs + ChunksOf(ins), evs + EventsOf(ins), done + TextsOf(AllRuns(ChunksOf(ins))))
  {
    assert done + TextsOf([]) == done;
    AllMerge(env, c, s, ins, draining, outs, evs, done, []);
    assert [] + ChunksOf(ins) == ChunksOf(ins);
    FlushEndsThePhase(env, c, TakeAll(env, c, s, ins, draining).s, outs + ChunksOf(ins), evs + EventsOf(ins), done, ChunksOf(ins));
  }

  // ---------- nothing lost, nothing repeated ----------

  function Flat(stream: Stream, text: string): seq<(Stream, char)> {
    seq(|text|, i requires 0 <= i < |text| => (stream, text[i]))
  }

  function FlatDeltas(ds: seq<Delta>): seq<(Stream, char)> {
    if ds == [] then [] else FlatDeltas(ds[..|ds| - 1]) + Flat(ds[|ds| - 1].stream, ds[|ds| - 1].text)
  }

  function FlatChunks(chs: seq<Chunk>): seq<(Stream, char)> {
    if chs == [] then [] else FlatChunks(chs[..|chs| - 1]) + Flat(chs[|chs| - 1].stream, chs[|chs| - 1].text)
  }

  lemma FlatDeltasMore(ds: seq<Delta>, d: Delta)
    ensures FlatDeltas(ds + [d]) == FlatDeltas(ds) + Flat(d.stream, d.text)
  {
    assert (ds + [d])[..|ds + [d]| - 1] == ds;
  }

  lemma {:induction false} FlatDeltasJoin(ds: seq<Delta>, es: seq<Delta>)
    ensures FlatDeltas(ds + es) == FlatDeltas(ds) + FlatDeltas(es)
  {
    if es == [] {
      assert ds + es == ds;
    } else {
      var init, e := es[..|es| - 1], es[|es| - 1];
      FlatDeltasJoin(ds, init);
      assert es == init + [e];
      Assoc(ds, init, [e]);
      FlatDeltasMore(ds + init, e);
      Assoc(FlatDeltas(ds), FlatDeltas(init), Flat(e.stream, e.text));
    }
  }

  lemma FlatChunksMore(a: seq<Chunk>, ch: Chunk)
    ensures FlatChunks(a + [ch]) == FlatChunks(a) + Flat(ch.stream, ch.text)
  {
    assert (a + [ch])[..|a + [ch]| - 1] == a;
  }

  lemma {:induction false} FlatChunksJoin(a: seq<Chunk>, b: seq<Chunk>)
    ensures FlatChunks(a + b) == FlatChunks(a) + FlatChunks(b)
  {
    if b == [] {
      assert a + b == a;
    } else {
      var init, e := b[..|b| - 1], b[|b| - 1];
      FlatChunksJoin(a, init);
      assert b == init + [e];
      Assoc(a, init, [e]);
      FlatChunksMore(a + init, e);
      Assoc(FlatChunks(a), FlatChunks(init), Flat(e.stream, e.text));
    }
  }

  lemma {:induction false} RunFlattens(g: seq<Chunk>, stream: Stream)
    requires forall i :: 0 <= i < |g| ==> g[i].stream == stream
    ensures FlatChunks(g) == Flat(stream, Concat(g))
  {
    if g != [] {
      RunFlattens(g[..|g| - 1], stream);
      assert Flat(stream, Concat(g)) == Flat(stream, Concat(g[..|g| - 1])) + Flat(stream, g[|g| - 1].text);
    }
  }

  lemma RunSays(g: seq<Chunk>)
    requires IsRun(g)
    ensures FlatDeltas(NonEmpty(Some(TextOf(g)))) == FlatChunks(g)
  {
    RunFlattens(g, g[0].stream);
    var d := TextOf(g);
    assert [d][..0] == [] && [] + Flat(d.stream, d.text) == Flat(d.stream, d.text);
  }

  lemma {:induction false} RunsSay(gs: seq<seq<Chunk>>)
    requires forall i :: 0 <= i < |gs| ==> IsRun(gs[i])
    ensures FlatDeltas(TextsOf(gs)) == FlatChunks(Flatten(gs))
  {
    if gs != [] {
      var init, g := gs[..|gs| - 1], gs[|gs| - 1];
      RunsSay(init);
      RunSays(g);
      FlatChunksJoin(Flatten(init), g);
      FlatDeltasJoin(TextsOf(init), NonEmpty(Some(TextOf(g))));
    }
  }

  /** Character by character, with its stream, the deltas repeat the progress
      records: nothing is lost or doubled at a flush. */
  lemma TextIsKept(env: Env, c: string, ctx: Option<Context>, ins: seq<Input>, end: Ending, gone: bool)
    requires Healthy(env) && end.Finished? && Genuine(ins) && Genuine(end.tail)
    ensures var rs := RunTurn(env, c, ctx, ins, end, gone).records;
            FlatDeltas(Deltas(rs)) == FlatChunks(Outputs(rs))
  {
    DeltasAreTheRuns(env, c, ctx, ins, end, gone);
    var a, b := ChunksOf(ins), ChunksOf(end.tail);
    RunsAreGreedy(a);
    RunsAreGreedy(b);
    RunsSay(AllRuns(a));
    RunsSay(AllRuns(b));
    FlatChunksJoin(a, b);
    FlatDeltasJoin(TextsOf(AllRuns(a)), TextsOf(AllRuns(b)));
  }
}
