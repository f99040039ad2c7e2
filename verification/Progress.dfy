/** Progress of the uploader: when a rejected terminal frees its group, and when
    the shutdown drain empties the log. */
module Progress {
  import opened Envelope
  import opened Outbox
  import opened Shards
  import opened Sequences
  import opened Retention
  import opened Fold
  import opened Safety
  import opened Pace
  import Protocol
  import opened Uploader

  /** Nothing stands in the way of an eviction. */
  predicate Evicts(b: Box, io: TruncateWeather) {
    !b.closed && (b.open || io.opens) && io.ranges && io.truncates
  }

  // ---------- the rejected terminal ----------

  /** A reply rejects the terminal at position `k` of the batch. After the fold
      the terminal and everything before it is gone exactly when the reply
      settles every batch record in front of it. */
  lemma RejectedTerminalFrees(size: Sizer, limits: Limits, b: Box, u: Up, rs: seq<Record>, resp: Response, io: TruncateWeather, k: nat)
    requires InFlight(b, u.readFrom, rs) && u.readFrom <= b.Last() + 1 && Evicts(b, io)
    requires k < |rs| && IsTerminal(rs[k]) && RejectsTerminal(resp, rs[k].entry.value.command)
    ensures var f := FoldUp(size, limits, b, u, rs, resp, io);
            && (f.box.first > rs[k].index <==> forall j :: 0 <= j < k ==> Settles(resp, rs[j]))
            && (f.box.first > rs[k].index ==> f.up.readFrom > rs[k].index && f.box.recs == b.recs[f.box.first - b.first..])
  {
    var n, f := SettledCount(rs, resp), FoldUp(size, limits, b, u, rs, resp, io);
    PrefixReaches(rs, resp, k);
    FoldFacts(size, limits, b, u, rs, resp, io);
    if n > k {
      RejectionPurges(size, limits, b, u, rs, resp, io);
      FoldAccumulates(size, limits, b, u, rs, resp, io);
    }
    FreedExactly(b, u.readFrom, rs, n, f.box, f.up.readFrom, k);
  }

  lemma RejectionPurges(size: Sizer, limits: Limits, b: Box, u: Up, rs: seq<Record>, resp: Response, io: TruncateWeather)
    requires SettledCount(rs, resp) > 0 && RejectsSomeTerminal(resp) && Evicts(b, io)
    ensures Protocol.Purges(size, limits, b, u, rs, resp, io)
  {
  }

  lemma FreedExactly(b: Box, from: nat, rs: seq<Record>, n: nat, b': Box, from': nat, k: nat)
    requires InFlight(b, from, rs) && from <= b.Last() + 1 && k < |rs| && FoldMoves(b, from, rs[0].index, n, b', from')
    requires n > k ==> b'.first == from'
    ensures b'.first > rs[k].index <==> n > k
    ensures n > k ==> from' > rs[k].index && b'.recs == b.recs[b'.first - b.first..]
  {
    FlightIndices(b, from, rs);
  }

  /** In particular, when the log up to the terminal holds only its command's
      records and torn ones, the group goes, whatever the acks say. */
  lemma RejectedTerminalFreesItsGroup(size: Sizer, limits: Limits, b: Box, u: Up, rs: seq<Record>, resp: Response, io: TruncateWeather, k: nat)
    requires InFlight(b, u.readFrom, rs) && u.readFrom <= b.Last() + 1 && Evicts(b, io)
    requires k < |rs| && IsTerminal(rs[k]) && RejectsTerminal(resp, rs[k].entry.value.command)
    requires forall j :: 0 <= j < k && rs[j].entry.Some? ==> rs[j].entry.value.command == rs[k].entry.value.command
    ensures FoldUp(size, limits, b, u, rs, resp, io).box.first > rs[k].index
  {
    RejectedTerminalFrees(size, limits, b, u, rs, resp, io, k);
  }

  // ---------- the drain ----------

  /** Everything held, in append order. */
  function Whole(b: Box): seq<Payload> {
    b.recs + GoodAll(b.buffered)
  }

  /** An append whose write succeeds puts the entry last. */
  lemma SoundAppend(size: Sizer, b: Box, e: Entry, w: Weather)
    requires !b.closed && b.open && w.write.Wrote?
    ensures var r := AppendBox(size, b, e, w);
            && r.ok && r.box.open && r.box.first == b.first && !r.box.closed && |b.recs| <= |r.box.recs|
            && Whole(r.box) == Whole(b) + [Good(e)]
  {
    assert GoodAll(b.buffered + [e]) == GoodAll(b.buffered) + [Good(e)];
  }

  /** A row of such appends puts the entries last, in order. */
  lemma {:induction false} SoundAppendEach(size: Sizer, b: Box, es: seq<Entry>, w: nat -> Weather, k: nat)
    requires !b.closed && b.open && forall i :: w(i).write.Wrote?
    ensures var r := AppendEach(size, b, es, w, k);
            r.ok && r.box.open && !r.box.closed && Whole(r.box) == Whole(b) + GoodAll(es) && r.box.first == b.first
    decreases |es|
  {
    if es == [] {
      assert GoodAll(es) == [] && Whole(b) + [] == Whole(b);
    } else {
      assert w(k).write.Wrote?;
      SoundAppend(size, b, es[0], w(k));
      SoundAppendEach(size, AppendBox(size, b, es[0], w(k)).box, es[1..], w, k + 1);
      assert GoodAll(es) == [Good(es[0])] + GoodAll(es[1..]);
      Assoc(Whole(b), [Good(es[0])], GoodAll(es[1..]));
    }
  }

  function Top(a: int, b: int): int {
    if a < b then b else a
  }

  /** How many records the cursor still has in front of it. */
  function Ahead(b: Box, u: Up): int {
    b.first + |Whole(b)| - Top(b.first, u.readFrom)
  }

  predicate EndsInTerminal(b: Box) {
    Whole(b) != [] &&
      var last := Whole(b)[|Whole(b)| - 1];
      last.Good? && last.entry.kind == Result
  }

  /** A disk without faults. */
  predicate Fair(io: CycleWeather) {
    && io.read.opens && io.read.flush.write.Wrote? && io.read.ranges && io.read.bad == 0
    && io.evict.opens && io.evict.ranges && io.evict.truncates
  }

  /** A manager that settles every entry it is sent. */
  ghost predicate SettlesAll(send: Transport) {
    forall es :: send(es).Some? && forall e :: e in es ==> SettlesEntry(send(es).value, e)
  }

  lemma {:induction false} EntriesAreIn(rs: seq<Record>)
    ensures forall r :: r in rs && r.entry.Some? ==> r.entry.value in Entries(rs)
  {
    if rs != [] {
      EntriesAreIn(rs[..|rs| - 1]);
      assert rs == rs[..|rs| - 1] + [rs[|rs| - 1]];
    }
  }

  lemma AllSettled(send: Transport, rs: seq<Record>)
    requires SettlesAll(send)
    ensures SettledCount(rs, send(Entries(rs)).value) == |rs|
  {
    EntriesAreIn(rs);
    forall i | 0 <= i < |rs| ensures Settles(send(Entries(rs)).value, rs[i]) { assert rs[i] in rs; }
  }

  /** What a faultless read does: the buffer is in the log, and the batch is not
      empty while the cursor is in front of a record. */
  lemma FairRead(size: Sizer, limits: Limits, b: Box, u: Up, io: ReadWeather)
    requires 1 <= b.first && !b.closed && 1 <= limits.entries
    requires io.opens && io.flush.write.Wrote? && io.ranges && io.bad == 0
    ensures var r := ReadBox(size, b, limits.entries, limits.bytes, u.readFrom, io);
            && r.box.recs == Whole(b) && r.box.buffered == [] && r.box.first == b.first && r.box.open && !r.box.closed
            && r.records.Some?
            && (r.records.value == [] <==> StartIndex(r.box, u.readFrom) == b.first + |Whole(b)|)
            && (r.records.value != [] ==> InFlight(r.box, u.readFrom, r.records.value))
  {
    var f := FlushBox(b.(open := true), io.flush);
    assert f.ok && f.box.recs == Whole(b);
    var start := StartIndex(f.box, u.readFrom);
    ScanFailsOnlyAtBad(size, f.box.recs[start - f.box.first..], start, limits.entries, limits.bytes, false, 0);
    ScanFillsTheCap(size, f.box.recs[start - f.box.first..], start, limits.entries, limits.bytes, false, 0);
    ReadFetches(size, limits, b, u.readFrom, io);
  }

  /** A full reply to a batch moves the cursor behind it; when the batch holds a
      terminal the log loses everything up to its end. */
  lemma FullReply(size: Sizer, limits: Limits, b: Box, u: Up, rs: seq<Record>, resp: Response, io: TruncateWeather)
    requires InFlight(b, u.readFrom, rs) && u.readFrom <= b.Last() + 1
    requires SettledCount(rs, resp) == |rs| && Evicts(b, io)
    ensures var f, next := FoldUp(size, limits, b, u, rs, resp, io), rs[0].index + |rs|;
            && f.up.readFrom == next && f.box.first + |f.box.recs| == b.first + |b.recs|
            && b.first <= f.box.first <= next && f.box.recs == b.recs[f.box.first - b.first..]
            && f.box.buffered == b.buffered && f.box.closed == b.closed
            && (IsTerminal(rs[|rs| - 1]) ==> f.box.first == next)
  {
    FoldFacts(size, limits, b, u, rs, resp, io);
    FoldAccumulates(size, limits, b, u, rs, resp, io);
    assert rs[..|rs|] == rs;
  }

  /** One cycle against a settling manager: the log is empty afterwards, or the
      cursor has moved and the terminal is still in front of it. */
  ghost predicate Advances(b: Box, u: Up, b': Box, u': Up) {
    && !b'.closed && 1 <= b'.first && b'.buffered == []
    && (b'.recs == [] || (EndsInTerminal(b') && 0 < Ahead(b', u') < Ahead(b, u)))
  }

  lemma AnswerAdvances(size: Sizer, limits: Limits, b: Box, r: Box, u: Up, rs: seq<Record>, resp: Response, io: CycleWeather)
    requires 1 <= b.first == r.first && r.recs == Whole(b) && r.buffered == [] && r.open && !r.closed && Fair(io)
    requires EndsInTerminal(b) && Ahead(b, u) > 0 && InFlight(r, u.readFrom, rs) && SettledCount(rs, resp) == |rs|
    ensures var f := FoldUp(size, limits, r, u, rs, resp, io.evict);
            Advances(b, u, CapBox(f.box, io.over, io.cap), f.up)
  {
    var f := FoldUp(size, limits, r, u, rs, resp, io.evict);
    assert Whole(r) == r.recs;
    FullReply(size, limits, r, u, rs, resp, io.evict);
    FoldLeavesTerminal(r, u, rs, f.box, f.up);
    CapAdvances(b, u, f.box, f.up, io.over, io.cap);
  }

  lemma CycleAdvances(size: Sizer, limits: Limits, b: Box, u: Up, send: Transport, io: CycleWeather)
    requires 1 <= b.first && !b.closed && 1 <= limits.entries && Fair(io) && SettlesAll(send)
    requires EndsInTerminal(b) && Ahead(b, u) > 0
    ensures var f := CycleUp(size, limits, b, u, send, io); Advances(b, u, f.box, f.up)
  {
    var r := ReadBox(size, b, limits.entries, limits.bytes, u.readFrom, io.read);
    FairRead(size, limits, b, u, io.read);
    var rs := r.records.value;
    AllSettled(send, rs);
    AnswerAdvances(size, limits, b, r.box, u, rs, send(Entries(rs)).value, io);
  }

  lemma FoldLeavesTerminal(b: Box, u: Up, rs: seq<Record>, b': Box, u': Up)
    requires InFlight(b, u.readFrom, rs) && u.readFrom <= b.Last() + 1 && EndsInTerminal(b) && b.buffered == []
    requires u'.readFrom == rs[0].index + |rs| && b'.first + |b'.recs| == b.first + |b.recs|
    requires b.first <= b'.first <= u'.readFrom && b'.recs == b.recs[b'.first - b.first..] && b'.buffered == []
    requires IsTerminal(rs[|rs| - 1]) ==> b'.first == u'.readFrom
    ensures b'.recs == [] || (EndsInTerminal(b') && 0 < Ahead(b', u') < Ahead(b, u))
  {
    FlightIndices(b, u.readFrom, rs);
    assert Whole(b) == b.recs && Whole(b') == b'.recs;
  }

  lemma CapAdvances(b: Box, u: Up, b': Box, u': Up, over: bool, io: TruncateWeather)
    requires Advances(b, u, b', u')
    ensures Advances(b, u, CapBox(b', over, io), u')
  {
  }

  /** While something is held and the probe succeeds, the drain makes a cycle. */
  lemma DrainCycles(size: Sizer, limits: Limits, b: Box, u: Up, rounds: nat, send: nat -> Transport,
                    io: nat -> CycleWeather, probe: nat -> (bool, bool), k: nat)
    requires 1 <= b.first && !b.closed && k < rounds && probe(k) == (true, true) && !b.Empty()
    ensures var f := CycleUp(size, limits, b.(open := true), u, send(k), io(k));
            && 1 <= f.box.first
            && Drained(size, limits, b, u, rounds, send, io, probe, k) == Drained(size, limits, f.box, f.up, rounds, send, io, probe, k + 1)
  {
    CycleKeepsFirst(size, limits, b.(open := true), u, send(k), io(k));
  }

  lemma {:induction false} DrainAdvances(size: Sizer, limits: Limits, b: Box, u: Up, rounds: nat, send: nat -> Transport,
                                         io: nat -> CycleWeather, probe: nat -> (bool, bool), k: nat)
    requires 1 <= b.first && !b.closed && 1 <= limits.entries && k <= rounds
    requires forall i :: Fair(io(i)) && SettlesAll(send(i)) && probe(i) == (true, true)
    requires b.Empty() || (EndsInTerminal(b) && 0 < Ahead(b, u) <= rounds - k)
    ensures var d := Drained(size, limits, b, u, rounds, send, io, probe, k);
            d.0.0.Empty() && d.1 <= k + (if b.Empty() then 0 else Ahead(b, u))
    decreases rounds - k
  {
    if !b.Empty() {
      var p := b.(open := true);
      assert Fair(io(k)) && SettlesAll(send(k)) && probe(k) == (true, true);
      assert Whole(p) == Whole(b);
      DrainCycles(size, limits, b, u, rounds, send, io, probe, k);
      CycleAdvances(size, limits, p, u, send(k), io(k));
      var f := CycleUp(size, limits, p, u, send(k), io(k));
      DrainAdvances(size, limits, f.box, f.up, rounds, send, io, probe, k + 1);
    }
  }

  /** A log whose records are all behind the cursor stays as it is. */
  lemma {:induction false} DrainIsStuck(size: Sizer, limits: Limits, b: Box, u: Up, rounds: nat, send: nat -> Transport,
                                        io: nat -> CycleWeather, probe: nat -> (bool, bool), k: nat)
    requires 1 <= b.first && k <= rounds && b.recs != [] && b.buffered == [] && u.readFrom == b.Last() + 1
    ensures !Drained(size, limits, b, u, rounds, send, io, probe, k).0.0.Empty()
    decreases rounds - k
  {
    var p := Probed(b, probe(k));
    var idle := p.closed || !p.open || !probe(k).1;
    if !idle && k < rounds {
      var f := CycleUp(size, limits, p, u, send(k), io(k));
      DrainIsStuck(size, limits, f.box, f.up, rounds, send, io, probe, k + 1);
    }
  }

  /** Shutdown. Against a manager that settles what it is sent and a disk without
      faults, and when the last record held is a terminal, the drain empties the
      outbox, in no more cycles than there are records, exactly when it was empty
      or the cursor still had a record in front of it. */
  lemma DrainEmpties(size: Sizer, limits: Limits, b: Box, u: Up, rounds: nat, send: nat -> Transport,
                     io: nat -> CycleWeather, probe: nat -> (bool, bool))
    requires 1 <= b.first && !b.closed && 1 <= limits.entries
    requires forall i :: Fair(io(i)) && SettlesAll(send(i)) && probe(i) == (true, true)
    requires b.Empty() || EndsInTerminal(b)
    requires u.readFrom <= b.Last() + 1 && |Whole(b)| <= rounds
    ensures var d := Drained(size, limits, b, u, rounds, send, io, probe, 0);
            && (d.0.0.Empty() <==> b.Empty() || Ahead(b, u) > 0)
            && (d.0.0.Empty() ==> d.1 <= |Whole(b)|)
  {
    if b.Empty() || Ahead(b, u) > 0 {
      DrainAdvances(size, limits, b, u, rounds, send, io, probe, 0);
    } else {
      DrainIsStuck(size, limits, b, u, rounds, send, io, probe, 0);
    }
  }
}
