/** A turn whose sink is the outbox: what a whole turn leaves in the log and the
    buffer, while the uploader flushes and evicts beside it. */
module Handover {
  import opened Envelope
  import opened Groups
  import opened Outbox
  import opened Retention
  import opened Recovery
  import opened Sequences
  import opened Progress
  import opened Turn
  import opened Trace
  import opened Endings

  // ---------- an outbox as a sink ----------

  /** What happens around the k-th append: first the uploader's own writes and
      evictions, then the append with its weather. */
  datatype Around = Around(others: seq<Move>, w: Weather)

  /** No append but the turn's, and no crash. */
  predicate Beside(ms: seq<Move>) {
    forall m :: m in ms ==> m.Push? || m.Shrink?
  }

  /** The outbox, with its history, after these appends. */
  ghost function TrackAt(size: Sizer, t: Track, around: nat -> Around, es: seq<Entry>): (end: Track)
    requires Faithful(t)
    ensures Faithful(end)
    decreases |es|
  {
    if es == [] then t
    else
      var n := |es| - 1;
      var now := After(size, TrackAt(size, t, around, es[..n]), around(n).others);
      MoveKeepsFaith(size, now, Put(es[n], around(n).w));
      Moved(size, now, Put(es[n], around(n).w))
  }

  /** An open outbox from now on. */
  function Since(b: Box): Track {
    Track(b, b.buffered, [], [])
  }

  /** What the last of these appends tells the turn. */
  ghost function LastFate(size: Sizer, b: Box, around: nat -> Around, es: seq<Entry>): Fate
    requires !b.closed && es != []
  {
    var n := |es| - 1;
    FreshIsFaithful(b);
    var now := After(size, TrackAt(size, Since(b), around, es[..n]), around(n).others).box;
    FateOf(now, AppendBox(size, now, es[n], around(n).w))
  }

  /** The sink of this environment is that outbox. */
  ghost predicate OnOutbox(env: Env, size: Sizer, b: Box, around: nat -> Around)
    requires !b.closed
  {
    forall es :: es != [] ==> env.sink(es) == LastFate(size, b, around, es)
  }

  ghost function OutboxEnv(size: Sizer, b: Box, around: nat -> Around, bypass: nat -> bool): (env: Env)
    requires !b.closed
    ensures OnOutbox(env, size, b, around)
  {
    Env(es => if es == [] then Took else LastFate(size, b, around, es), bypass)
  }

  // ---------- a sink that keeps what it refuses ----------

  ghost predicate KeepsAll(env: Env) {
    forall es :: es != [] ==> env.sink(es) != Refused(false)
  }

  predicate AllRecorded(s: State) {
    s.records == s.submitted
  }

  lemma SubmitRecords(env: Env, s: State, e: Entry)
    requires KeepsAll(env) && AllRecorded(s)
    ensures AllRecorded(Submit(env, s, e).s)
  {
    assert s.submitted + [e] != [];
  }

  lemma FlushRecords(env: Env, c: string, s: State)
    requires KeepsAll(env) && AllRecorded(s)
    ensures AllRecorded(FlushText(env, c, s).s)
  {
  }

  lemma TakeRecords(env: Env, c: string, s: State, i: Input, draining: bool)
    requires KeepsAll(env) && AllRecorded(s)
    ensures AllRecorded(Take(env, c, s, i, draining).s)
  {
    match i
    case Output(ch) =>
      SubmitRecords(env, s, ProgressEntry(c, ch));
      var p := Submit(env, s, ProgressEntry(c, ch));
      FlushRecords(env, c, p.s.(lastSeq := Max(p.s.lastSeq, ch.seqNo)));
    case Happened(t, recent) =>
    case Watchdog =>
  }

  lemma {:induction false} TakeAllRecords(env: Env, c: string, s: State, ins: seq<Input>, draining: bool)
    requires KeepsAll(env) && AllRecorded(s)
    ensures AllRecorded(TakeAll(env, c, s, ins, draining).s)
    decreases |ins|
  {
    if ins != [] {
      TakeRecords(env, c, s, ins[0], draining);
      TakeAllRecords(env, c, Take(env, c, s, ins[0], draining).s, ins[1..], draining);
    }
  }

  lemma DeliverRecords(env: Env, s: State, e: Entry)
    requires KeepsAll(env) && AllRecorded(s)
    ensures AllRecorded(Deliver(env, s, e).s)
  {
    SubmitRecords(env, s, e);
  }

  lemma DrainRecords(env: Env, c: string, s: State, tail: seq<Input>)
    requires KeepsAll(env) && AllRecorded(s)
    ensures AllRecorded(Drained(env, c, s, tail))
  {
    FlushRecords(env, c, s);
    TakeAllRecords(env, c, FlushText(env, c, s).s, tail, true);
    FlushRecords(env, c, TakeAll(env, c, FlushText(env, c, s).s, tail, true).s);
  }

  /** Such a turn records exactly what it submits. */
  lemma TurnRecordsAll(env: Env, c: string, ctx: Option<Context>, ins: seq<Input>, end: Ending, gone: bool)
    requires KeepsAll(env)
    ensures AllRecorded(RunTurn(env, c, ctx, ins, end, gone))
  {
    SubmitRecords(env, Fresh(ctx).(lastEventSeq := 1), EventEntry(c, 1, Lifecycle));
    TakeAllRecords(env, c, Started(env, c, ctx).s, ins, false);
    var p := Pumped(env, c, ctx, ins);
    if p.ok && end.Finished? { DrainRecords(env, c, p.s, end.tail); }
    var b := Before(env, c, ctx, ins, end);
    if !(p.ok && end.Interrupted?) {
      var e := TerminalOf(env, c, ctx, ins, end);
      DeliverRecords(env, b, e);
      DeliverRecords(env, Deliver(env, b, e).s, e);
    }
  }

  lemma OpenOutboxKeepsAll(env: Env, size: Sizer, b: Box, around: nat -> Around)
    requires !b.closed && OnOutbox(env, size, b, around)
    ensures KeepsAll(env)
  {
    forall es | es != [] ensures env.sink(es) != Refused(false) {
      FreshIsFaithful(b);
      var n := |es| - 1;
      assert !After(size, TrackAt(size, Since(b), around, es[..n]), around(n).others).box.closed;
    }
  }

  // ---------- what the outbox holds of the turn ----------

  predicate IsEndOf<T(==)>(a: seq<T>, b: seq<T>) {
    |a| <= |b| && a == b[|b| - |a|..]
  }

  lemma EndOfMore<T>(a: seq<T>, b: seq<T>, c: seq<T>)
    requires IsEndOf(a, b)
    ensures IsEndOf(a + c, b + c)
  {
    assert (b + c)[|b| - |a|..] == b[|b| - |a|..] + c;
  }

  lemma EndOfEnd<T>(a: seq<T>, b: seq<T>, c: seq<T>)
    requires IsEndOf(a, b) && IsEndOf(b, c)
    ensures IsEndOf(a, c)
  {
    assert c[|c| - |b|..][|b| - |a|..] == c[|c| - |a|..];
  }

  /** Moving a directory aside is the one thing that shortens the history. */
  predicate MayRename(m: Move) {
    match m
    case Put(_, w) => w.renames
    case Push(w) => w.renames
    case _ => false
  }

  ghost predicate NoRename(around: nat -> Around) {
    forall k :: !around(k).w.renames && forall m :: m in around(k).others ==> !MayRename(m)
  }

  lemma FlushedHistory(t: Track, w: Weather)
    requires Faithful(t)
    ensures IsEndOf(Flushed(t, w).accepted, t.accepted)
    ensures !w.renames ==> Flushed(t, w).accepted == t.accepted
  {
  }

  lemma BesideHistory(size: Sizer, t: Track, m: Move)
    requires Faithful(t) && (m.Push? || m.Shrink?)
    ensures IsEndOf(Moved(size, t, m).accepted, t.accepted)
    ensures !MayRename(m) ==> Moved(size, t, m).accepted == t.accepted
  {
    if m.Push? { FlushedHistory(t, m.fw); }
  }

  lemma {:induction false} OthersHistory(size: Sizer, t: Track, ms: seq<Move>)
    requires Faithful(t) && Beside(ms)
    ensures IsEndOf(After(size, t, ms).accepted, t.accepted)
    ensures (forall m :: m in ms ==> !MayRename(m)) ==> After(size, t, ms).accepted == t.accepted
    decreases |ms|
  {
    if ms != [] {
      MoveKeepsFaith(size, t, ms[0]);
      BesideHistory(size, t, ms[0]);
      OthersHistory(size, Moved(size, t, ms[0]), ms[1..]);
      EndOfEnd(After(size, t, ms).accepted, Moved(size, t, ms[0]).accepted, t.accepted);
    }
  }

  lemma PutHistory(size: Sizer, t: Track, e: Entry, w: Weather)
    requires Faithful(t)
    ensures IsEndOf(Moved(size, t, Put(e, w)).accepted, t.accepted + [e])
    ensures !w.renames ==> Moved(size, t, Put(e, w)).accepted == t.accepted + [e]
  {
    AcceptKeepsFaith(size, t, e);
    FlushedHistory(t.(box := Buffering(size, t.box, e), accepted := t.accepted + [e]), w);
  }

  /** One append more, after what went on beside it. */
  lemma HistoryGrows<T>(first: seq<T>, es: seq<T>, before: seq<T>, now: seq<T>, then': seq<T>)
    requires es != [] && IsEndOf(before, first + es[..|es| - 1]) && IsEndOf(now, before) && IsEndOf(then', now + [es[|es| - 1]])
    ensures IsEndOf(then', first + es)
    ensures before == first + es[..|es| - 1] && now == before && then' == now + [es[|es| - 1]] ==> then' == first + es
  {
    var n := |es| - 1;
    EndOfEnd(now, before, first + es[..n]);
    EndOfMore(now, first + es[..n], [es[n]]);
    assert first + es == first + es[..n] + [es[n]];
    EndOfEnd(then', now + [es[n]], first + es);
  }

  lemma {:induction false} TurnHistory(size: Sizer, t: Track, around: nat -> Around, es: seq<Entry>)
    requires Faithful(t) && forall k :: Beside(around(k).others)
    ensures IsEndOf(TrackAt(size, t, around, es).accepted, t.accepted + es)
    ensures NoRename(around) ==> TrackAt(size, t, around, es).accepted == t.accepted + es
    decreases |es|
  {
    if es == [] {
      assert t.accepted + es == t.accepted;
    } else {
      var n := |es| - 1;
      var before := TrackAt(size, t, around, es[..n]);
      TurnHistory(size, t, around, es[..n]);
      OthersHistory(size, before, around(n).others);
      var now := After(size, before, around(n).others);
      PutHistory(size, now, es[n], around(n).w);
      HistoryGrows(t.accepted, es, before.accepted, now.accepted, TrackAt(size, t, around, es).accepted);
    }
  }

  /** The outbox holds these records in order: once later duplicates are deleted,
      what was written, with the buffer behind it, is these records, and the log
      is the end of what was written. */
  ghost predicate HoldsInOrder(t: Track, all: seq<Entry>) {
    && t.accepted == all
    && Copies(all, t.written, t.pos) && FirstSeen(t.pos) == Range(0, Front(t.pos))
    && |all| - |t.box.buffered| <= Front(t.pos)
    && IsEndOf(t.box.buffered, all)
    && EndsAlike(t.box.recs, GoodAll(t.written))
  }

  lemma TrackHolds(size: Sizer, t: Track)
    requires Faithful(t)
    ensures HoldsInOrder(t, t.accepted)
  {
    WritesRecover(size, t, []);
  }

  /** A turn on an open outbox, through every write fault, the uploader's writes
      and evictions beside it. What the turn records is what it submitted, and
      the outbox holds what was buffered before and the turn's records, in order;
      only a write that moves the directory aside takes the front of that away. */
  lemma TurnIsInTheOutbox(env: Env, size: Sizer, b: Box, around: nat -> Around, c: string, ctx: Option<Context>,
                          ins: seq<Input>, end: Ending, gone: bool)
    requires !b.closed && OnOutbox(env, size, b, around) && forall k :: Beside(around(k).others)
    ensures Faithful(Since(b))
    ensures var s := RunTurn(env, c, ctx, ins, end, gone);
            var t, all := TrackAt(size, Since(b), around, s.submitted), b.buffered + s.records;
            && s.records == s.submitted
            && IsEndOf(t.accepted, all) && HoldsInOrder(t, t.accepted)
            && (NoRename(around) ==> HoldsInOrder(t, all))
  {
    FreshIsFaithful(b);
    OpenOutboxKeepsAll(env, size, b, around);
    TurnRecordsAll(env, c, ctx, ins, end, gone);
    var s := RunTurn(env, c, ctx, ins, end, gone);
    TurnHistory(size, Since(b), around, s.submitted);
    TrackHolds(size, TrackAt(size, Since(b), around, s.submitted));
  }

  // ---------- on a disk without faults ----------

  predicate CalmMove(m: Move) {
    m.Push? && m.fw.write.Wrote?
  }

  /** Every write succeeds, and nothing is evicted meanwhile. */
  ghost predicate CalmAround(a: Around) {
    a.w.write.Wrote? && forall m :: m in a.others ==> CalmMove(m)
  }

  lemma CalmPush(size: Sizer, t: Track, m: Move)
    requires Faithful(t) && t.box.open && CalmMove(m)
    ensures var t' := Moved(size, t, m); Whole(t'.box) == Whole(t.box) && t'.box.open
  {
    MovesAreTheOutbox(size, t, Entry("", Unspecified, 0, EventBody(Lifecycle)), m.fw);
    var r := FlushBox(t.box, m.fw).box;
    assert t.box.buffered != [] ==> r.recs == Whole(t.box) && r.buffered == [];
  }

  lemma {:induction false} CalmOthers(size: Sizer, t: Track, ms: seq<Move>)
    requires Faithful(t) && t.box.open && forall m :: m in ms ==> CalmMove(m)
    ensures var t' := After(size, t, ms); Whole(t'.box) == Whole(t.box) && t'.box.open
    decreases |ms|
  {
    if ms != [] {
      MoveKeepsFaith(size, t, ms[0]);
      CalmPush(size, t, ms[0]);
      CalmOthers(size, Moved(size, t, ms[0]), ms[1..]);
    }
  }

  lemma CalmPut(size: Sizer, t: Track, a: Around, e: Entry)
    requires Faithful(t) && t.box.open && CalmAround(a)
    ensures var now := After(size, t, a.others); var t' := Moved(size, now, Put(e, a.w));
            && Whole(t'.box) == Whole(t.box) + [Good(e)] && t'.box.open
            && FateOf(now.box, AppendBox(size, now.box, e, a.w)) == Took
  {
    CalmOthers(size, t, a.others);
    var now := After(size, t, a.others);
    MovesAreTheOutbox(size, now, e, a.w);
    SoundAppend(size, now.box, e, a.w);
  }

  lemma LogGrows(first: seq<Payload>, es: seq<Entry>)
    requires es != []
    ensures first + GoodAll(es) == first + GoodAll(es[..|es| - 1]) + [Good(es[|es| - 1])]
  {
    assert GoodAll(es) == GoodAll(es[..|es| - 1]) + [Good(es[|es| - 1])];
    Assoc(first, GoodAll(es[..|es| - 1]), [Good(es[|es| - 1])]);
  }

  lemma {:induction false} CalmTrack(size: Sizer, t: Track, around: nat -> Around, es: seq<Entry>)
    requires Faithful(t) && t.box.open && forall k :: CalmAround(around(k))
    ensures var t' := TrackAt(size, t, around, es); Whole(t'.box) == Whole(t.box) + GoodAll(es) && t'.box.open
    decreases |es|
  {
    if es == [] {
      assert GoodAll(es) == [] && Whole(t.box) + [] == Whole(t.box);
    } else {
      var n := |es| - 1;
      CalmTrack(size, t, around, es[..n]);
      CalmPut(size, TrackAt(size, t, around, es[..n]), around(n), es[n]);
      LogGrows(Whole(t.box), es);
    }
  }

  lemma CalmOutboxIsHealthy(env: Env, size: Sizer, b: Box, around: nat -> Around)
    requires !b.closed && b.open && OnOutbox(env, size, b, around) && forall k :: CalmAround(around(k))
    ensures Healthy(env)
  {
    forall es | es != [] ensures env.sink(es).Took? {
      var n := |es| - 1;
      FreshIsFaithful(b);
      CalmTrack(size, Since(b), around, es[..n]);
      CalmPut(size, TrackAt(size, Since(b), around, es[..n]), around(n), es[n]);
    }
  }

  /** A turn that is not interrupted, on an open outbox whose writes succeed: the
      outbox then holds what it held and, behind it, a whole trace. */
  lemma TurnIsAppended(env: Env, size: Sizer, b: Box, around: nat -> Around, c: string, ctx: Option<Context>,
                       ins: seq<Input>, end: Ending, gone: bool)
    requires !b.closed && b.open && OnOutbox(env, size, b, around) && forall k :: CalmAround(around(k))
    requires end.Finished?
    ensures Faithful(Since(b))
    ensures var s := RunTurn(env, c, ctx, ins, end, gone);
            && IsTrace(s.records, c, end.exitCode, if end.reason != "" && end.exitCode != 0 then end.reason else end.message)
            && Whole(TrackAt(size, Since(b), around, s.submitted).box) == Whole(b) + GoodAll(s.records)
  {
    FreshIsFaithful(b);
    CalmOutboxIsHealthy(env, size, b, around);
    TurnLeavesATrace(env, c, ctx, ins, end, gone);
    OpenOutboxKeepsAll(env, size, b, around);
    TurnRecordsAll(env, c, ctx, ins, end, gone);
    CalmTrack(size, Since(b), around, RunTurn(env, c, ctx, ins, end, gone).submitted);
  }
}
