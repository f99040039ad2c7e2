/** The cursor over whole runs: in which order records are uploaded, that no
    settled prefix is uploaded twice, and how many settled bytes the log keeps. */
module Pace {
  import opened Envelope
  import opened Outbox
  import opened Shards
  import opened Retention
  import opened Fold
  import opened Protocol
  import opened Safety

  // ---------- upload order ----------

  /** `cleared` is what lies below the cursor, and the cursor has only passed
      what was uploaded. */
  ghost predicate OrderInv(w: World) {
    && (forall i :: i in w.cleared ==> i < w.up.readFrom)
    && (forall i :: w.box.first <= i < w.up.readFrom ==> i in w.cleared)
    && (w.up.readFrom > 0 ==> w.up.readFrom <= w.sent + 1)
    && w.sent <= w.box.Last()
    && (w.flight.Some? && w.flight.value != [] ==> w.flight.value[|w.flight.value| - 1].index <= w.sent)
  }

  lemma WriteKeepsOrder(w: World, b: Box, moved: bool)
    requires OrderInv(w) && Grows(w.box, b, moved)
    ensures !Recorded(w, b, moved).stale ==> OrderInv(Recorded(w, b, moved))
  {
  }

  lemma FetchedKeepsOrder(w: World, r: ReadOut)
    requires OrderInv(w) && Grows(w.box, r.box, r.moved) && w.flight.None?
    requires r.records.Some? && r.records.value != [] ==> InFlight(r.box, w.up.readFrom, r.records.value)
    ensures !Fetched(w, r).stale ==> OrderInv(Fetched(w, r))
  {
    WriteKeepsOrder(w, r.box, r.moved);
    if r.records.Some? && r.records.value != [] {
      FlightIndices(r.box, w.up.readFrom, r.records.value);
    }
  }

  lemma AnsweredKeepsOrder(w: World, f: Folded, start: nat, n: nat, fates: Fates, settled: set<nat>, cleared: set<nat>, tally: Tally)
    requires OrderInv(w) && w.flight.Some? && FoldMoves(w.box, w.up.readFrom, start, n, f.box, f.up.readFrom)
    requires forall i :: i in cleared <==> start <= i < start + n
    requires n > 0 ==> start + n - 1 <= w.sent
    ensures OrderInv(Answered(w, f, fates, settled, cleared, tally))
  {
  }

  lemma ClearedIsAnInterval(rs: seq<Record>, resp: Response)
    requires rs != [] && forall k :: 0 <= k < |rs| ==> rs[k].index == rs[0].index + k
    ensures forall i :: i in ClearedIndices(rs, resp) <==> rs[0].index <= i < rs[0].index + SettledCount(rs, resp)
  {
    forall i: nat | rs[0].index <= i < rs[0].index + SettledCount(rs, resp) ensures i in ClearedIndices(rs, resp) {
      assert rs[i - rs[0].index].index == i;
    }
  }

  lemma ReplyKeepsOrder(size: Sizer, limits: Limits, w: World, resp: Response, store: set<Entry>, io: TruncateWeather)
    requires Inv(w) && OrderInv(w) && Enabled(w, Reply(resp, store, io)) && !w.stale
    ensures OrderInv(AfterReply(size, limits, w, resp, store, io))
  {
    var rs := w.flight.value;
    var n, start := SettledCount(rs, resp), rs[0].index;
    FoldFacts(size, limits, w.box, w.up, rs, resp, io);
    FlightIndices(w.box, w.up.readFrom, rs);
    ClearedIsAnInterval(rs, resp);
    AnsweredKeepsOrder(w, FoldUp(size, limits, w.box, w.up, rs, resp, io), start, n, Told(w.fates, resp, store),
      SettledIndices(rs, resp), ClearedIndices(rs, resp), Tallied(size, limits, w.box, w.up, rs, resp, io, w.tally));
  }

  lemma StepKeepsOrder(size: Sizer, limits: Limits, w: World, s: Step)
    requires Inv(w) && Enabled(w, s) && (!w.stale ==> OrderInv(w))
    ensures !Apply(size, limits, w, s).stale ==> OrderInv(Apply(size, limits, w, s))
  {
    match s
    case Append(e, ww) =>
      AppendGrows(size, w.box, e, ww);
      if !w.stale { WriteKeepsOrder(w, AppendBox(size, w.box, e, ww).box, AppendBox(size, w.box, e, ww).moved); }
    case Flush(ww) =>
      FlushGrows(w.box, ww);
      if !w.stale { WriteKeepsOrder(w, PublicFlushBox(w.box, ww).box, PublicFlushBox(w.box, ww).moved); }
    case Look(io) =>
      var r := ReadBox(size, w.box, limits.entries, limits.bytes, 0, io);
      ReadGrows(size, limits, w.box, 0, io);
      if !w.stale { WriteKeepsOrder(w, r.box, r.moved); }
    case Read(io) =>
      ReadFetches(size, limits, w.box, w.up.readFrom, io);
      if !w.stale { FetchedKeepsOrder(w, ReadBox(size, w.box, limits.entries, limits.bytes, w.up.readFrom, io)); }
    case Reply(resp, store, io) => if !w.stale { ReplyKeepsOrder(size, limits, w, resp, store, io); }
    case NoReply(_) =>
    case Cap(over, io) => if !w.stale { CapKeepsOrder(w, over, io); }
    case Restart(tear, io) =>
  }

  lemma CapKeepsOrder(w: World, over: bool, io: TruncateWeather)
    requires OrderInv(w)
    ensures OrderInv(AfterCap(w, over, io))
  {
  }

  lemma {:induction false} RunKeepsOrder(size: Sizer, limits: Limits, w: World, steps: seq<Step>)
    requires Inv(w) && (!w.stale ==> OrderInv(w)) && Legal(size, limits, w, steps) && AllSafe(size, limits, w, steps)
    ensures !Run(size, limits, w, steps).stale ==> OrderInv(Run(size, limits, w, steps))
    decreases |steps|
  {
    if steps != [] {
      StepKeeps(size, limits, w, steps[0]);
      StepKeepsOrder(size, limits, w, steps[0]);
      RunKeepsOrder(size, limits, Apply(size, limits, w, steps[0]), steps[1..]);
    }
  }

  /** The batch starts at the least live index that no reply has cleared, repeats
      nothing cleared, and skips nothing: between the highest index uploaded
      before and the batch there is no live record. */
  ghost predicate InOrder(w: World, rs: seq<Record>) {
    && rs != [] && w.box.first <= rs[0].index
    && (forall i :: w.box.first <= i < rs[0].index ==> i in w.cleared)
    && (forall k :: 0 <= k < |rs| ==> rs[k].index == rs[0].index + k && rs[k].index !in w.cleared)
    && (rs[0].index <= w.sent + 1 || rs[0].index == w.box.first)
  }

  lemma BatchIsInOrder(w: World, b: Box, rs: seq<Record>)
    requires OrderInv(w) && Grows(w.box, b, false) && InFlight(b, w.up.readFrom, rs)
    requires w.up.readFrom <= w.box.Last() + 1
    ensures InOrder(w, rs)
  {
    FlightIndices(b, w.up.readFrom, rs);
  }

  /** The batch that a read for upload yields is in order. */
  ghost predicate ReadsInOrder(size: Sizer, limits: Limits, w: World, io: ReadWeather)
    requires 1 <= w.box.first
  {
    var r := ReadBox(size, w.box, limits.entries, limits.bytes, w.up.readFrom, io);
    r.records.Some? && r.records.value != [] ==> InOrder(w, r.records.value)
  }

  lemma ReadIsInOrder(size: Sizer, limits: Limits, w: World, io: ReadWeather)
    requires Inv(w) && OrderInv(w) && !w.stale
    ensures ReadsInOrder(size, limits, w, io)
  {
    var r := ReadBox(size, w.box, limits.entries, limits.bytes, w.up.readFrom, io);
    ReadFetches(size, limits, w.box, w.up.readFrom, io);
    if r.records.Some? && r.records.value != [] { BatchIsInOrder(w, r.box, r.records.value); }
  }

  /** Every batch a run reads is in order, unless the log was reset under the
      uploader that reads it. */
  lemma UploadOrder(size: Sizer, limits: Limits, start: World, steps: seq<Step>, io: ReadWeather)
    requires Initial(start) && Legal(size, limits, start, steps) && AllSafe(size, limits, start, steps)
    ensures var w := Run(size, limits, start, steps); !w.stale ==> ReadsInOrder(size, limits, w, io)
  {
    RunKeeps(size, limits, start, steps);
    RunKeepsOrder(size, limits, start, steps);
    var w := Run(size, limits, start, steps);
    if !w.stale { ReadIsInOrder(size, limits, w, io); }
  }

  /** The cursor passes a record of the batch exactly if the reply settles it and
      every one before it; so it never passes an event above the standing ack's
      event watermark, unless the reply rejects it or its command's terminal. */
  lemma CursorPasses(size: Sizer, limits: Limits, b: Box, u: Up, rs: seq<Record>, resp: Response, io: TruncateWeather, k: nat)
    requires InFlight(b, u.readFrom, rs) && u.readFrom <= b.Last() + 1 && k < |rs|
    ensures var passed := rs[k].index < FoldUp(size, limits, b, u, rs, resp, io).up.readFrom;
            && (passed <==> forall j :: 0 <= j <= k ==> Settles(resp, rs[j]))
            && (passed && rs[k].entry.Some? ==>
                  var e := rs[k].entry.value;
                  || (exists j :: 0 <= j < |resp.rejected| && resp.rejected[j].command == e.command
                        && (resp.rejected[j].kind == Result || (resp.rejected[j].kind == e.kind && resp.rejected[j].seqNo == e.seqNo)))
                  || exists j: nat :: Stands(resp.acks, e.command, j)
                       && match e.kind
                          case Progress => e.seqNo <= resp.acks[j].lastProgress
                          case Event => e.seqNo <= resp.acks[j].lastEvent
                          case Result => resp.acks[j].resultAcked
                          case Unspecified => false)
  {
    FoldFacts(size, limits, b, u, rs, resp, io);
    BehindThePrefix(b, u.readFrom, rs, SettledCount(rs, resp), FoldUp(size, limits, b, u, rs, resp, io).box,
                    FoldUp(size, limits, b, u, rs, resp, io).up.readFrom, k);
    PrefixIsAllSettled(rs, resp, k);
    SettledIsWhatTheReplySays(resp, rs[k]);
  }

  lemma PrefixIsAllSettled(rs: seq<Record>, resp: Response, k: nat)
    requires k < |rs|
    ensures k < SettledCount(rs, resp) <==> forall j :: 0 <= j <= k ==> Settles(resp, rs[j])
  {
    var n := SettledCount(rs, resp);
    if n <= k { assert !Settles(resp, rs[n]); }
  }

  lemma PrefixReaches(rs: seq<Record>, resp: Response, k: nat)
    requires k < |rs| && Settles(resp, rs[k])
    ensures SettledCount(rs, resp) <= k <==> exists j :: 0 <= j < k && !Settles(resp, rs[j])
  {
    var n := SettledCount(rs, resp);
    if n <= k { assert !Settles(resp, rs[n]); }
  }

  lemma BehindThePrefix(b: Box, from: nat, rs: seq<Record>, n: nat, b': Box, from': nat, k: nat)
    requires InFlight(b, from, rs) && from <= b.Last() + 1 && k < |rs| && FoldMoves(b, from, rs[0].index, n, b', from')
    ensures rs[k].index >= from' <==> n <= k
    ensures n <= k ==> StillThere(b', rs[k])
  {
    FlightIndices(b, from, rs);
  }

  predicate StillThere(b: Box, r: Record) {
    b.first <= r.index < b.first + |b.recs| && r == RecordOf(r.index, b.recs[r.index - b.first])
  }

  /** A record that a reply settles is still in front of the cursor, and so will
      be uploaded again, exactly if the reply left one before it unsettled; it is
      then still in the log. */
  lemma SettledIsSentAgain(size: Sizer, limits: Limits, b: Box, u: Up, rs: seq<Record>, resp: Response, io: TruncateWeather, k: nat)
    requires InFlight(b, u.readFrom, rs) && u.readFrom <= b.Last() + 1 && k < |rs| && Settles(resp, rs[k])
    ensures var f, i := FoldUp(size, limits, b, u, rs, resp, io), rs[k].index;
            && (i >= f.up.readFrom <==> exists j :: 0 <= j < k && !Settles(resp, rs[j]))
            && (i >= f.up.readFrom ==> StillThere(f.box, rs[k]))
  {
    var f := FoldUp(size, limits, b, u, rs, resp, io);
    FoldFacts(size, limits, b, u, rs, resp, io);
    PrefixReaches(rs, resp, k);
    BehindThePrefix(b, u.readFrom, rs, SettledCount(rs, resp), f.box, f.up.readFrom, k);
  }

  // ---------- the settled prefix ----------

  /** The live records below the cursor. */
  function Behind(b: Box, from: nat): seq<Record> {
    var n := if from <= b.first then 0 else from - b.first;
    Listing(b.recs, b.first)[..if n <= |b.recs| then n else |b.recs|]
  }

  /** How many settled bytes the log keeps. */
  function KeptBytes(size: Sizer, b: Box, u: Up): nat {
    SettledBytes(size, Behind(b, u.readFrom))
  }

  ghost predicate BytesInv(size: Sizer, limits: Limits, b: Box, u: Up, t: Tally) {
    var kept := KeptBytes(size, b, u);
    && kept <= u.settledSinceEvict + t.missed
    && (!t.late ==> u.settledSinceEvict + t.missed < limits.truncateAt)
    && (t.late ==> u.settledSinceEvict + t.missed >= limits.truncateAt)
    && (t.capFree ==> kept == u.settledSinceEvict + t.missed)
  }

  ghost predicate BytesOk(size: Sizer, limits: Limits, w: World) {
    !w.stale ==> BytesInv(size, limits, w.box, w.up, w.tally)
  }

  lemma {:induction false} SettledBytesOfSum(size: Sizer, a: seq<Record>, b: seq<Record>)
    ensures SettledBytes(size, a + b) == SettledBytes(size, a) + SettledBytes(size, b)
  {
    if b == [] {
      assert a + b == a;
    } else {
      SettledBytesOfSum(size, a, b[..|b| - 1]);
      assert (a + b)[..|a + b| - 1] == a + b[..|b| - 1];
    }
  }

  lemma GrowthKeepsBehind(b: Box, b': Box, from: nat)
    requires b'.first == b.first && b.recs <= b'.recs && from <= b.first + |b.recs|
    ensures Behind(b', from) == Behind(b, from)
  {
  }

  lemma FlightExtendsBehind(b: Box, from: nat, rs: seq<Record>, n: nat)
    requires InFlight(b, from, rs) && from <= b.Last() + 1 && n <= |rs|
    ensures Behind(b, rs[0].index + n) == Behind(b, from) + rs[..n]
  {
  }

  /** What the fold does to the log and the accumulator. */
  lemma FoldAccumulates(size: Sizer, limits: Limits, b: Box, u: Up, rs: seq<Record>, resp: Response, io: TruncateWeather)
    requires InFlight(b, u.readFrom, rs) && u.readFrom <= b.Last() + 1
    ensures var f, n := FoldUp(size, limits, b, u, rs, resp, io), SettledCount(rs, resp);
            && (n == 0 ==> f == Folded(b, u))
            && (n > 0 ==> if Purges(size, limits, b, u, rs, resp, io)
                          then f.up.settledSinceEvict == 0 && f.box.first == f.up.readFrom
                          else f.box.first == b.first && f.box.recs == b.recs
                               && f.up.settledSinceEvict == Accumulated(size, u, rs[..n], resp))
  {
    FlightIndices(b, u.readFrom, rs);
  }

  /** How the settled bytes in the log change: an eviction takes them all, any
      other fold adds its settled prefix. */
  lemma FoldMovesBytes(size: Sizer, limits: Limits, b: Box, u: Up, rs: seq<Record>, resp: Response, io: TruncateWeather)
    requires InFlight(b, u.readFrom, rs) && u.readFrom <= b.Last() + 1
    ensures var f, n := FoldUp(size, limits, b, u, rs, resp, io), SettledCount(rs, resp);
            KeptBytes(size, f.box, f.up) == if Purges(size, limits, b, u, rs, resp, io) then 0
                                            else KeptBytes(size, b, u) + SettledBytes(size, rs[..n])
  {
    var f, n := FoldUp(size, limits, b, u, rs, resp, io), SettledCount(rs, resp);
    FoldAccumulates(size, limits, b, u, rs, resp, io);
    FoldCursor(size, limits, b, u, rs, resp, io);
    if n == 0 {
      assert rs[..n] == [];
    } else if Purges(size, limits, b, u, rs, resp, io) {
      assert Behind(f.box, f.up.readFrom) == [];
    } else {
      PrefixAddsBytes(size, b, u.readFrom, rs, n);
      assert Behind(f.box, f.up.readFrom) == Behind(b, rs[0].index + n);
    }
  }

  lemma PrefixAddsBytes(size: Sizer, b: Box, from: nat, rs: seq<Record>, n: nat)
    requires InFlight(b, from, rs) && from <= b.Last() + 1 && n <= |rs|
    ensures SettledBytes(size, Behind(b, rs[0].index + n)) == SettledBytes(size, Behind(b, from)) + SettledBytes(size, rs[..n])
  {
    FlightExtendsBehind(b, from, rs, n);
    SettledBytesOfSum(size, Behind(b, from), rs[..n]);
  }

  lemma PurgesMeans(size: Sizer, limits: Limits, b: Box, u: Up, rs: seq<Record>, resp: Response, io: TruncateWeather)
    requires SettledCount(rs, resp) > 0
    ensures var settled := rs[..SettledCount(rs, resp)];
            Purges(size, limits, b, u, rs, resp, io)
            <==> Due(size, limits, u, settled, resp) && EvictBox(b, settled[|settled| - 1].index, io).ok
  {
  }

  /** One fold in numbers. */
  lemma BoundInNumbers(bound: int, before: nat, bytes: nat, byTerminal: bool, failed: bool, kept: int, settled: int)
    requires var due := byTerminal || before + bytes >= bound;
             && kept == (if due && !failed then 0 else before + bytes)
             && settled == if due && !failed then 0 else if byTerminal then before else before + bytes
    requires before < bound
    ensures kept != settled <==> byTerminal && failed && bytes > 0
    ensures kept >= bound <==> (byTerminal || before + bytes >= bound) && failed && before + bytes >= bound
  {
  }

  /** From an exact accumulator under the backstop, one fold. The accumulator is
      wrong afterwards exactly if an eviction due by a terminal failed and the
      settled prefix has bytes; the log keeps the backstop's bytes or more exactly
      if a due eviction failed and the prefix takes the accumulator there. */
  lemma WhenTheBoundFails(size: Sizer, limits: Limits, b: Box, u: Up, rs: seq<Record>, resp: Response, io: TruncateWeather)
    requires InFlight(b, u.readFrom, rs) && u.readFrom <= b.Last() + 1 && SettledCount(rs, resp) > 0
    requires KeptBytes(size, b, u) == u.settledSinceEvict < limits.truncateAt
    ensures var f, settled := FoldUp(size, limits, b, u, rs, resp, io), rs[..SettledCount(rs, resp)];
            var kept, failed := KeptBytes(size, f.box, f.up), !EvictBox(b, settled[|settled| - 1].index, io).ok;
            && (kept != f.up.settledSinceEvict <==> DueByTerminal(settled, resp) && failed && SettledBytes(size, settled) > 0)
            && (kept >= limits.truncateAt <==>
                  Due(size, limits, u, settled, resp) && failed
                  && u.settledSinceEvict + SettledBytes(size, settled) >= limits.truncateAt)
  {
    var f, settled := FoldUp(size, limits, b, u, rs, resp, io), rs[..SettledCount(rs, resp)];
    FoldAccumulates(size, limits, b, u, rs, resp, io);
    FoldMovesBytes(size, limits, b, u, rs, resp, io);
    PurgesMeans(size, limits, b, u, rs, resp, io);
    BoundInNumbers(limits.truncateAt, u.settledSinceEvict, SettledBytes(size, settled), DueByTerminal(settled, resp),
                   !EvictBox(b, settled[|settled| - 1].index, io).ok, KeptBytes(size, f.box, f.up), f.up.settledSinceEvict);
  }

  lemma FoldKeepsBytes(size: Sizer, limits: Limits, b: Box, u: Up, rs: seq<Record>, resp: Response, io: TruncateWeather, t: Tally)
    requires InFlight(b, u.readFrom, rs) && u.readFrom <= b.Last() + 1
    requires BytesInv(size, limits, b, u, t) && 0 < limits.truncateAt
    ensures var f := FoldUp(size, limits, b, u, rs, resp, io);
            BytesInv(size, limits, f.box, f.up, Tallied(size, limits, b, u, rs, resp, io, t))
  {
    FoldAccumulates(size, limits, b, u, rs, resp, io);
    FoldMovesBytes(size, limits, b, u, rs, resp, io);
    assert SettledCount(rs, resp) == 0 ==> rs[..0] == [];
  }

  lemma FoldCursor(size: Sizer, limits: Limits, b: Box, u: Up, rs: seq<Record>, resp: Response, io: TruncateWeather)
    requires InFlight(b, u.readFrom, rs) && u.readFrom <= b.Last() + 1
    ensures var n := SettledCount(rs, resp);
            FoldUp(size, limits, b, u, rs, resp, io).up.readFrom == if n == 0 then u.readFrom else rs[0].index + n
  {
    FoldFacts(size, limits, b, u, rs, resp, io);
  }

  lemma WriteKeepsBytes(size: Sizer, limits: Limits, w: World, b: Box, moved: bool)
    requires Inv(w) && Grows(w.box, b, moved) && BytesOk(size, limits, w)
    ensures BytesOk(size, limits, Recorded(w, b, moved))
  {
    if !moved && !w.stale { GrowthKeepsBehind(w.box, b, w.up.readFrom); }
  }

  lemma CapKeepsBytes(size: Sizer, limits: Limits, w: World, over: bool, io: TruncateWeather)
    requires Inv(w) && BytesOk(size, limits, w)
    ensures BytesOk(size, limits, AfterCap(w, over, io))
  {
    var b := CapBox(w.box, over, io);
    if b.first != w.box.first {
      assert Behind(b, w.up.readFrom) == [];
    } else {
      assert Behind(b, w.up.readFrom) == Behind(w.box, w.up.readFrom);
    }
  }

  lemma StepKeepsBytes(size: Sizer, limits: Limits, w: World, s: Step)
    requires Inv(w) && Enabled(w, s) && 0 < limits.truncateAt && BytesOk(size, limits, w)
    ensures BytesOk(size, limits, Apply(size, limits, w, s))
  {
    match s
    case Append(e, ww) =>
      AppendGrows(size, w.box, e, ww);
      WriteKeepsBytes(size, limits, w, AppendBox(size, w.box, e, ww).box, AppendBox(size, w.box, e, ww).moved);
    case Flush(ww) =>
      FlushGrows(w.box, ww);
      WriteKeepsBytes(size, limits, w, PublicFlushBox(w.box, ww).box, PublicFlushBox(w.box, ww).moved);
    case Look(io) =>
      var r := ReadBox(size, w.box, limits.entries, limits.bytes, 0, io);
      ReadGrows(size, limits, w.box, 0, io);
      WriteKeepsBytes(size, limits, w, r.box, r.moved);
    case Read(io) =>
      var r := ReadBox(size, w.box, limits.entries, limits.bytes, w.up.readFrom, io);
      ReadGrows(size, limits, w.box, w.up.readFrom, io);
      WriteKeepsBytes(size, limits, w, r.box, r.moved);
    case Reply(resp, store, io) =>
      if !w.stale { FoldKeepsBytes(size, limits, w.box, w.up, w.flight.value, resp, io, w.tally); }
    case NoReply(_) =>
    case Cap(over, io) => CapKeepsBytes(size, limits, w, over, io);
    case Restart(tear, io) =>
      assert Behind(AfterRestart(w, tear, io).box, 0) == [];
  }

  lemma {:induction false} RunKeepsBytes(size: Sizer, limits: Limits, w: World, steps: seq<Step>)
    requires Inv(w) && Legal(size, limits, w, steps) && AllSafe(size, limits, w, steps)
    requires 0 < limits.truncateAt && BytesOk(size, limits, w)
    ensures BytesOk(size, limits, Run(size, limits, w, steps))
    decreases |steps|
  {
    if steps != [] {
      StepKeeps(size, limits, w, steps[0]);
      StepKeepsBytes(size, limits, w, steps[0]);
      RunKeepsBytes(size, limits, Apply(size, limits, w, steps[0]), steps[1..]);
    }
  }

  /** In every reachable world whose log was not reset under its uploader. Since
      the last eviction that succeeded: with no cap drop the accumulator is short
      of the settled bytes in the log by exactly the prefixes whose eviction was
      due by a terminal and failed, and these bytes are under the backstop exactly
      if no fold left as many; with a cap drop they are at most that. */
  lemma SettledPrefixBound(size: Sizer, limits: Limits, start: World, steps: seq<Step>)
    requires Initial(start) && Legal(size, limits, start, steps) && AllSafe(size, limits, start, steps)
    requires 0 < limits.truncateAt
    ensures var w := Run(size, limits, start, steps);
            var kept := KeptBytes(size, w.box, w.up);
            !w.stale ==>
              && kept <= w.up.settledSinceEvict + w.tally.missed
              && (!w.tally.late ==> kept < limits.truncateAt)
              && (w.tally.capFree ==>
                    && kept == w.up.settledSinceEvict + w.tally.missed
                    && (kept == w.up.settledSinceEvict <==> w.tally.missed == 0)
                    && (kept < limits.truncateAt <==> !w.tally.late))
  {
    RunKeepsBytes(size, limits, start, steps);
  }

  /** An eviction that is due succeeds. */
  ghost predicate EvictionWorks(size: Sizer, limits: Limits, w: World, s: Step) {
    match s
    case Reply(resp, _, io) =>
      w.flight.Some? ==>
        var rs := w.flight.value; var n := SettledCount(rs, resp);
        n > 0 && Due(size, limits, w.up, rs[..n], resp) ==> EvictBox(w.box, rs[n - 1].index, io).ok
    case _ => true
  }

  ghost predicate EvictionsWork(size: Sizer, limits: Limits, w: World, steps: seq<Step>)
    requires Legal(size, limits, w, steps)
    decreases |steps|
  {
    steps != [] ==> EvictionWorks(size, limits, w, steps[0]) && EvictionsWork(size, limits, Apply(size, limits, w, steps[0]), steps[1..])
  }

  lemma FoldMissesNothing(size: Sizer, limits: Limits, b: Box, u: Up, rs: seq<Record>, resp: Response, io: TruncateWeather, t: Tally)
    requires t.missed == 0 && !t.late
    requires var n := SettledCount(rs, resp);
             n > 0 && Due(size, limits, u, rs[..n], resp) ==> EvictBox(b, rs[n - 1].index, io).ok
    ensures var t' := Tallied(size, limits, b, u, rs, resp, io, t); t'.missed == 0 && !t'.late
  {
  }

  lemma NothingMissed(size: Sizer, limits: Limits, w: World, s: Step)
    requires 1 <= w.box.first && Enabled(w, s) && EvictionWorks(size, limits, w, s)
    requires w.tally.missed == 0 && !w.tally.late
    ensures var t := Apply(size, limits, w, s).tally; t.missed == 0 && !t.late
  {
    match s
    case Reply(resp, store, io) => FoldMissesNothing(size, limits, w.box, w.up, w.flight.value, resp, io, w.tally);
    case Append(_, _) =>
    case Flush(_) =>
    case Look(_) =>
    case Read(_) =>
    case NoReply(_) =>
    case Cap(_, _) =>
    case Restart(_, _) =>
  }

  lemma {:induction false} RunMissesNothing(size: Sizer, limits: Limits, w: World, steps: seq<Step>)
    requires Legal(size, limits, w, steps) && EvictionsWork(size, limits, w, steps) && w.tally.missed == 0 && !w.tally.late
    ensures var t := Run(size, limits, w, steps).tally; t.missed == 0 && !t.late
    decreases |steps|
  {
    if steps != [] {
      NothingMissed(size, limits, w, steps[0]);
      RunMissesNothing(size, limits, Apply(size, limits, w, steps[0]), steps[1..]);
    }
  }

  /** In a run whose due evictions all succeed the settled bytes in the log stay
      under the backstop, and no cap drop since the last of them makes them the
      accumulator. */
  lemma WorkingEvictionsBound(size: Sizer, limits: Limits, start: World, steps: seq<Step>)
    requires Initial(start) && Legal(size, limits, start, steps) && AllSafe(size, limits, start, steps)
    requires 0 < limits.truncateAt && EvictionsWork(size, limits, start, steps)
    ensures var w := Run(size, limits, start, steps);
            var kept := KeptBytes(size, w.box, w.up);
            !w.stale ==>
              && kept < limits.truncateAt && kept <= w.up.settledSinceEvict
              && (w.tally.capFree ==> kept == w.up.settledSinceEvict)
  {
    SettledPrefixBound(size, limits, start, steps);
    RunMissesNothing(size, limits, start, steps);
  }
}
