/** The uploader of one agent's outbox, step by step on its fields. */
module Uploader {
  import opened Envelope
  import opened Outbox
  import opened Shards
  import opened Groups
  import opened Fold
  import opened Retention
  import opened Sequences

  const AGENT_STOPPED := "agent stopped before the turn reported a result"

  /** One round of the turn-start barrier: nothing blocks it, or something does
      and every dead command it saw has got its terminal, or the outbox failed. */
  datatype Round = Passed(box: Box) | Blocked(box: Box) | Faulted(box: Box)

  datatype RoundWeather = RoundWeather(scan: ReadWeather, appends: nat -> Weather)

  ghost function RoundOn(size: Sizer, limits: Limits, b: Box, command: string, io: RoundWeather): Round
    requires 1 <= b.first
  {
    var r := ReadBox(size, b, limits.entries, limits.bytes, 0, io.scan);
    if r.records.None? then Faulted(r.box)
    else if !BlockedFor(r.records.value, command) then Passed(r.box)
    else
      var dead := Orphans(r.records.value, Some(command));
      var a := AppendEach(size, r.box, Terminals(dead, AGENT_STOPPED), io.appends, 0);
      if a.ok then Blocked(a.box) else Faulted(a.box)
  }

  /** The reply settles the first n records of the batch and not the next. */
  ghost predicate StopsAt(records: seq<Record>, resp: Response, n: nat) {
    && n <= |records| && (forall k :: 0 <= k < n ==> Settles(resp, records[k]))
    && (n < |records| ==> !Settles(resp, records[n]))
  }

  /** The cursor behind the n-th record, never moving back. */
  function Behind(records: seq<Record>, n: nat, from: nat): nat
    requires n <= |records|
  {
    if n > 0 && records[n - 1].index > 0 && records[n - 1].index + 1 > from then records[n - 1].index + 1 else from
  }

  class Uploader {
    const ob: Outbox
    const limits: Limits
    var readFrom: nat
    var settledSinceEvict: int

    function Cursor(): Up
      reads this
    {
      Up(readFrom, settledSinceEvict)
    }

    ghost predicate Valid()
      reads this, ob
    {
      ob.Valid()
    }

    constructor (ob: Outbox, limits: Limits)
      ensures this.ob == ob && this.limits == limits && Cursor() == Up(0, 0)
    {
      this.ob, this.limits := ob, limits;
      readFrom, settledSinceEvict := 0, 0;
    }

    method SetReadFrom(index: nat)
      modifies this`readFrom
      ensures readFrom == if index > old(readFrom) then index else old(readFrom)
    {
      if index > readFrom { readFrom := index; }
    }

    method AddSettledBytes(n: nat) returns (due: bool)
      modifies this`settledSinceEvict
      ensures settledSinceEvict == old(settledSinceEvict) + n
      ensures due <==> settledSinceEvict >= limits.truncateAt
    {
      settledSinceEvict := settledSinceEvict + n;
      return settledSinceEvict >= limits.truncateAt;
    }

    static method AckLookup(list: seq<Ack>) returns (acks: map<string, Ack>)
      ensures AckTable(acks, list)
    {
      acks := map[];
      for i := 0 to |list|
        invariant AckTable(acks, list[..i])
      {
        assert list[..i + 1][..i] == list[..i];
        acks := acks[list[i].command := list[i]];
      }
      assert list[..|list|] == list;
    }

    static method RejectionLookup(list: seq<Rejection>) returns (rejected: map<string, string>, terminals: set<string>)
      ensures RejectedTable(rejected, list) && TerminalTable(terminals, list)
    {
      rejected, terminals := map[], {};
      for i := 0 to |list|
        invariant RejectedTable(rejected, list[..i]) && TerminalTable(terminals, list[..i])
      {
        var r := list[i];
        TablesGrow(rejected, terminals, list, i);
        rejected := rejected[RejectionKey(r.command, r.kind, r.seqNo) := r.reason];
        if r.kind == Result { terminals := terminals + {r.command}; }
      }
      assert list[..|list|] == list;
    }

    static method Tables(resp: Response)
      returns (acks: map<string, Ack>, rejected: map<string, string>, terminals: set<string>)
      ensures forall r :: RecordSettled(r, acks, rejected, terminals) <==> Settles(resp, r)
      ensures terminals != {} <==> RejectsSomeTerminal(resp)
    {
      acks := AckLookup(resp.acks);
      rejected, terminals := RejectionLookup(resp.rejected);
      forall r ensures RecordSettled(r, acks, rejected, terminals) <==> Settles(resp, r) {
        TablesDecideSettlement(r, resp, acks, rejected, terminals);
      }
      SomeTerminal(terminals, resp);
    }

    /** The walk up to the first unsettled record. */
    static method SettledPrefix(size: Sizer, records: seq<Record>, resp: Response)
      returns (boundary: nat, settledBytes: nat, terminalSettled: bool, terminalRejectedSeen: bool)
      ensures var n := SettledCount(records, resp);
              && boundary == (if n == 0 then 0 else records[n - 1].index)
              && settledBytes == SettledBytes(size, records[..n])
              && (terminalSettled <==> HasTerminal(records[..n]))
              && (terminalRejectedSeen <==> RejectsSomeTerminal(resp))
    {
      var acks, rejected, terminals := Tables(resp);
      boundary, settledBytes, terminalSettled := 0, 0, false;
      ghost var n := SettledCount(records, resp);
      var i := 0;
      while i < |records|
        invariant 0 <= i <= n
        invariant boundary == if i == 0 then 0 else records[i - 1].index
        invariant settledBytes == SettledBytes(size, records[..i])
        invariant terminalSettled <==> HasTerminal(records[..i])
      {
        var r := records[i];
        if !RecordSettled(r, acks, rejected, terminals) { break; }
        PrefixGrows(size, records, i);
        boundary := r.index;
        if r.entry.Some? {
          settledBytes := settledBytes + size(r.entry.value);
          if r.entry.value.kind == Result { terminalSettled := true; }
        }
        i := i + 1;
      }
      assert i == n;
      terminalRejectedSeen := terminals != {};
    }

    /** The fold: boundary, eviction policy, cursor. */
    method DoFold(records: seq<Record>, resp: Response, io: TruncateWeather)
      requires Valid()
      modifies this, ob
      ensures Valid()
      ensures var f := FoldUp(ob.size, limits, old(ob.View()), old(Cursor()), records, resp, io);
              ob.View() == f.box && Cursor() == f.up
      ensures exists n: nat :: StopsAt(records, resp, n) && readFrom == Behind(records, n, old(readFrom))
    {
      assert StopsAt(records, resp, SettledCount(records, resp));
      var boundary, settledBytes, terminalSettled, terminalRejectedSeen := SettledPrefix(ob.size, records, resp);
      if boundary > 0 {
        var due := terminalSettled || terminalRejectedSeen;
        if !due { due := AddSettledBytes(settledBytes); }
        if due {
          var ok := ob.EvictThrough(boundary, io);
          if ok { settledSinceEvict := 0; }
        }
        SetReadFrom(boundary + 1);
      }
      assert readFrom == Behind(records, SettledCount(records, resp), old(readFrom));
    }

    /** At most one request: read from the cursor, send, fold, enforce the cap. */
    method UploadCycle(send: Transport, io: CycleWeather)
      requires Valid()
      modifies this, ob
      ensures Valid()
      ensures var f := CycleUp(ob.size, limits, old(ob.View()), old(Cursor()), send, io);
              ob.View() == f.box && Cursor() == f.up
    {
      var records := ob.ReadRecords(limits.entries, limits.bytes, readFrom, io.read);
      if records.None? || |records.value| == 0 { return; }
      var entries := [];
      for i := 0 to |records.value|
        invariant entries == Entries(records.value[..i])
      {
        assert records.value[..i + 1][..i] == records.value[..i];
        if records.value[i].entry.Some? { entries := entries + [records.value[i].entry.value]; }
      }
      assert records.value[..|records.value|] == records.value;
      var reply := send(entries);
      if reply.None? { return; }
      DoFold(records.value, reply.value, io.evict);
      ob.EnforceCap(io.over, io.cap);
    }

    // ---------- the barrier and the self-check ----------

    static method AbsorbAll(groups: map<string, Group>, ghost done: seq<Record>, records: seq<Record>, except: Option<string>)
      returns (r: map<string, Group>)
      requires groups == GroupsOf(done, except)
      ensures r == GroupsOf(done + records, except)
    {
      r := groups;
      assert done + [] == done;
      for i := 0 to |records|
        invariant r == GroupsOf(done + records[..i], except)
      {
        assert records[..i + 1] == records[..i] + [records[i]];
        Assoc(done, records[..i], [records[i]]);
        GroupsOfMore(done + records[..i], records[i], except);
        match records[i].entry {
          case None =>
          case Some(e) => if Some(e.command) != except { r := Absorb(r, e); }
        }
      }
      assert records[..|records|] == records;
    }

    /** The barrier's single-shard scan; None is a read error. */
    method BlockingFor(command: string, io: ReadWeather) returns (blocked: bool, orphans: Option<seq<Orphan>>)
      requires Valid()
      modifies ob
      ensures Valid()
      ensures var r := ReadBox(ob.size, old(ob.View()), limits.entries, limits.bytes, 0, io);
              && ob.View() == r.box
              && (orphans.Some? <==> r.records.Some?)
              && (orphans.Some? ==>
                    && (blocked <==> BlockedFor(r.records.value, command))
                    && orphans.value == Orphans(r.records.value, Some(command)))
    {
      var records := ob.ReadRecords(limits.entries, limits.bytes, 0, io);
      if records.None? { return false, None; }
      ghost var now := ob.View();
      var others := AbsorbAll(map[], [], records.value, Some(command));
      assert [] + records.value == records.value;
      forall c ensures c in others <==> Holds(EntrySet(records.value), c) && c != command {
        GroupsMeaning(records.value, Some(command), c);
      }
      blocked := others != map[];
      assert blocked ==> exists c :: c in others;
      var os := CollectOrphans(others);
      OrphansAreThese(os, records.value, Some(command));
      orphans := Some(os);
    }

    method AppendTerminals(orphans: seq<Orphan>, message: string, w: nat -> Weather) returns (ok: bool)
      requires Valid()
      modifies ob
      ensures Valid()
      ensures var r := AppendEach(ob.size, old(ob.View()), Terminals(orphans, message), w, 0);
              ob.View() == r.box && ok == r.ok
    {
      ghost var es := Terminals(orphans, message);
      ghost var whole := AppendEach(ob.size, ob.View(), es, w, 0);
      var i := 0;
      while i < |orphans|
        invariant Valid() && 0 <= i <= |orphans|
        invariant AppendEach(ob.size, ob.View(), es[i..], w, i) == whole
      {
        assert es[i..][0] == SyntheticTerminal(orphans[i], message) && es[i..][1..] == es[i + 1..];
        ok := ob.Append(SyntheticTerminal(orphans[i], message), w(i));
        if !ok { return; }
        i := i + 1;
      }
      ok := true;
    }

    /** One round of the turn-start barrier: scan, and give each dead command
        its terminal. None is an outbox fault. */
    method BarrierRound(command: string, io: RoundWeather) returns (blocked: Option<bool>)
      requires Valid()
      modifies ob
      ensures Valid()
      ensures var r := RoundOn(ob.size, limits, old(ob.View()), command, io);
              && ob.View() == r.box
              && blocked == match r { case Passed(_) => Some(false) case Blocked(_) => Some(true) case Faulted(_) => None }
    {
      var b, orphans := BlockingFor(command, io.scan);
      if orphans.None? { return None; }
      if !b { return Some(false); }
      var ok := AppendTerminals(orphans.value, AGENT_STOPPED, io.appends);
      return if ok then Some(true) else None;
    }

    method ReadShard(from: nat, io: ReadWeather) returns (records: Option<seq<Record>>)
      requires Valid() && 1 <= limits.entries
      modifies ob
      ensures Valid()
      ensures records.Some? ==> ReadGives(old(ob.View()), from, ob.View(), records.value)
    {
      ReadDelivers(ob.size, limits, ob.View(), from, io);
      records := ob.ReadRecords(limits.entries, limits.bytes, from, io);
    }

    /** One shard of the full scan: read behind `from` and absorb. */
    method NextShard(groups: map<string, Group>, from: nat, io: ReadWeather, ghost start: Box, ghost done: seq<Record>)
      returns (more: Option<bool>, groups': map<string, Group>, from': nat, ghost done': seq<Record>)
      requires Valid() && 1 <= limits.entries && Scanned(start, ob.View(), done, from) && groups == GroupsOf(done, None)
      modifies ob
      ensures Valid()
      ensures more.Some? ==> 0 < from' && Scanned(start, ob.View(), done', from') && groups' == GroupsOf(done', None)
      ensures more == Some(true) ==> from' > from && (from > 0 ==> ob.recs == old(ob.recs) && ob.first == old(ob.first))
      ensures more == Some(false) ==> from' == ob.first + |ob.recs|
    {
      ghost var before := ob.View();
      var records := ReadShard(from, io);
      if records.None? { return None, map[], 0, []; }
      ShardAdvances(start, before, done, from, ob.View(), records.value);
      groups' := AbsorbAll(groups, done, records.value, None);
      done' := done + records.value;
      more := Some(|records.value| > 0);
      from' := if |records.value| > 0 then records.value[|records.value| - 1].index + 1 else ob.first + |ob.recs|;
    }

    /** The full scan, shard after shard. Its answer is the single pass over the
        whole log. */
    method OrphanGroups(io: nat -> ReadWeather) returns (orphans: Option<seq<Orphan>>)
      requires Valid() && 1 <= limits.entries
      modifies ob
      ensures Valid()
      ensures orphans.Some? ==>
                && WrittenThrough(old(ob.View()), ob.View())
                && ListsOrphans(orphans.value, GroupsOf(Listing(ob.recs, ob.first), None))
    {
      ghost var start, done := ob.View(), [];
      var groups: map<string, Group> := map[];
      var from: nat, k: nat := 0, 0;
      while true
        invariant Valid() && Scanned(start, ob.View(), done, from) && groups == GroupsOf(done, None)
        decreases from == 0, ob.first + |ob.recs| - from
      {
        var more;
        more, groups, from, done := NextShard(groups, from, io(k), start, done);
        if more.None? { return None; }
        if !more.value { break; }
        assert more == Some(true);
        k := k + 1;
      }
      assert done == Listing(ob.recs, ob.first);
      var os := CollectOrphans(groups);
      orphans := Some(os);
    }

    /** The self-check: on success the log holds what it held and one terminal
        for every command that had none, all of it written through. So after one
        no command is open, and where none is open and the buffer is empty the
        log stays as it is, record for record: a second call adds nothing. */
    method SynthesizeInterruptedTerminals(message: string, io: nat -> ReadWeather, w: nat -> Weather, flush: Weather)
      returns (ok: bool)
      requires Valid() && 1 <= limits.entries
      modifies ob
      ensures Valid()
      ensures ok ==>
                && ob.buffered == [] && old(ob.recs) <= ob.recs && ob.first == old(ob.first)
                && Terminated(Stored(old(ob.View())), LogEntries(ob.recs), message)
                && NoneOpen(Stored(ob.View()))
      ensures ok && old(ob.buffered) == [] && NoneOpen(Stored(old(ob.View()))) ==> ob.recs == old(ob.recs)
    {
      var orphans := OrphanGroups(io);
      if orphans.None? { return false; }
      ghost var quiet := old(ob.buffered) == [] && NoneOpen(Stored(old(ob.View())));
      if quiet { NoneOpenNoOrphans(orphans.value, ob.View()); }
      ghost var scanned := ob.View();
      ok := AppendTerminals(orphans.value, message, w);
      if !ok { return; }
      ghost var es := Terminals(orphans.value, message);
      AppendEachKeepsEntries(ob.size, scanned, es, w, 0);
      FlushKeepsEntries(ob.View(), flush);
      ok := ob.Flush(flush);
      if ok {
        SynthesisEnds(scanned, orphans.value, message, ob.View());
      }
    }

    /** The shutdown drain: until the log is empty or the context ends after
        `rounds` cycles. */
    method Drain(rounds: nat, send: nat -> Transport, io: nat -> CycleWeather, probe: nat -> (bool, bool))
      returns (cycles: nat)
      requires Valid()
      modifies this, ob
      ensures Valid()
      ensures cycles <= rounds
      ensures (ob.View(), Cursor()) == Drained(ob.size, limits, old(ob.View()), old(Cursor()), rounds, send, io, probe, 0).0
      ensures cycles == Drained(ob.size, limits, old(ob.View()), old(Cursor()), rounds, send, io, probe, 0).1
    {
      ghost var whole := Drained(ob.size, limits, ob.View(), Cursor(), rounds, send, io, probe, 0);
      cycles := 0;
      while true
        invariant Valid() && cycles <= rounds
        invariant Drained(ob.size, limits, ob.View(), Cursor(), rounds, send, io, probe, cycles) == whole
        decreases rounds - cycles
      {
        var empty := ob.Empty(probe(cycles).0, probe(cycles).1);
        if empty != Some(false) || cycles == rounds { return; }
        UploadCycle(send(cycles), io(cycles));
        cycles := cycles + 1;
      }
    }
  }

  ghost function Probed(b: Box, probe: (bool, bool)): Box {
    b.(open := b.open || (!b.closed && probe.0))
  }

  /** Drain as a value: the final state and the number of cycles. */
  ghost function Drained(size: Sizer, limits: Limits, b: Box, u: Up, rounds: nat, send: nat -> Transport,
                         io: nat -> CycleWeather, probe: nat -> (bool, bool), k: nat): ((Box, Up), nat)
    requires 1 <= b.first && k <= rounds
    decreases rounds - k
  {
    var p := Probed(b, probe(k));
    var idle := p.closed || !p.open || (if p.buffered == [] then !probe(k).1 || p.recs == [] else false);
    if idle || k == rounds then ((p, u), k)
    else
      var f := CycleUp(size, limits, p, u, send(k), io(k));
      CycleKeepsFirst(size, limits, p, u, send(k), io(k));
      Drained(size, limits, f.box, f.up, rounds, send, io, probe, k + 1)
  }

  lemma FoldKeepsFirst(size: Sizer, limits: Limits, b: Box, u: Up, rs: seq<Record>, resp: Response, io: TruncateWeather)
    requires 1 <= b.first
    ensures 1 <= FoldUp(size, limits, b, u, rs, resp, io).box.first
  {
  }

  lemma CycleKeepsFirst(size: Sizer, limits: Limits, b: Box, u: Up, send: Transport, io: CycleWeather)
    requires 1 <= b.first
    ensures 1 <= CycleUp(size, limits, b, u, send, io).box.first
  {
    var r := ReadBox(size, b, limits.entries, limits.bytes, u.readFrom, io.read);
    if r.records.Some? && r.records.value != [] {
      var reply := send(Entries(r.records.value));
      if reply.Some? {
        FoldKeepsFirst(size, limits, r.box, u, r.records.value, reply.value, io.evict);
      }
    }
  }

  /** The log after a flush: the same entries, more of them written through. */
  ghost predicate WrittenThrough(start: Box, b: Box) {
    && Stored(b) == Stored(start) && start.recs <= b.recs && b.first == start.first
    && (start.buffered == [] ==> b.recs == start.recs)
    && b.buffered == [] && b.open && !b.closed
  }

  /** What a full scan has read when its cursor is at `from`. */
  ghost predicate Scanned(start: Box, b: Box, done: seq<Record>, from: nat) {
    if from == 0 then done == [] && b == start
    else
      && WrittenThrough(start, b) && b.first <= from == b.first + |done| <= b.first + |b.recs|
      && done == Listing(b.recs, b.first)[..|done|]
  }

  /** A successful read, as far as scanning the log is concerned. */
  ghost predicate ReadGives(b: Box, from: nat, r: Box, rs: seq<Record>)
    requires 1 <= r.first
  {
    var at := StartIndex(r, from) - r.first;
    && WrittenThrough(b, r) && (b.buffered == [] ==> r.recs == b.recs)
    && at + |rs| <= |r.recs| && rs == Listing(r.recs, r.first)[at..at + |rs|]
    && (rs == [] ==> at == |r.recs|)
  }

  lemma ReadDelivers(size: Sizer, limits: Limits, b: Box, from: nat, io: ReadWeather)
    requires 1 <= b.first && 1 <= limits.entries
    ensures var r := ReadBox(size, b, limits.entries, limits.bytes, from, io);
            r.records.Some? ==> 1 <= r.box.first && ReadGives(b, from, r.box, r.records.value)
  {
    ReadKeepsEntries(size, b, limits.entries, limits.bytes, from, io);
    ReadIsNext(size, b, limits.entries, limits.bytes, from, io);
  }

  lemma ShardAdvances(start: Box, b: Box, done: seq<Record>, from: nat, r: Box, rs: seq<Record>)
    requires 1 <= b.first && 1 <= r.first && Scanned(start, b, done, from) && ReadGives(b, from, r, rs)
    ensures var next := if rs == [] then r.first + |r.recs| else rs[|rs| - 1].index + 1;
            && 0 < next && Scanned(start, r, done + rs, next)
            && (from > 0 ==> r.recs == b.recs && r.first == b.first)
            && (rs != [] ==> next > from)
  {
    var at := StartIndex(r, from) - r.first;
    ScanStandsAt(start, b, done, from, r, rs);
    JoinRuns(Listing(r.recs, r.first), at, done, rs);
    ThroughAndThrough(start, b, r, from);
  }

  /** The shard starts where the scan stands. */
  lemma ScanStandsAt(start: Box, b: Box, done: seq<Record>, from: nat, r: Box, rs: seq<Record>)
    requires 1 <= b.first && 1 <= r.first && Scanned(start, b, done, from) && ReadGives(b, from, r, rs)
    ensures var at := StartIndex(r, from) - r.first;
            && at == |done| && at + |rs| <= |r.recs|
            && done == Listing(r.recs, r.first)[..at] && rs == Listing(r.recs, r.first)[at..at + |rs|]
            && (from > 0 ==> from == r.first + at)
  {
  }

  lemma JoinRuns(listing: seq<Record>, at: nat, done: seq<Record>, rs: seq<Record>)
    requires at + |rs| <= |listing| && done == listing[..at] && rs == listing[at..at + |rs|]
    ensures done + rs == listing[..at + |rs|] && (rs != [] ==> rs[|rs| - 1] == listing[at + |rs| - 1])
  {
  }

  lemma ThroughAndThrough(start: Box, b: Box, r: Box, from: nat)
    requires WrittenThrough(b, r) && (b.buffered == [] ==> r.recs == b.recs)
    requires if from == 0 then b == start else WrittenThrough(start, b)
    ensures WrittenThrough(start, r) && (from > 0 ==> r.recs == b.recs && r.first == b.first)
  {
  }

  /** Every command held has its terminal. */
  ghost predicate NoneOpen(es: set<Entry>) {
    forall c :: Holds(es, c) ==> HoldsKind(es, c, Result)
  }

  lemma NoneOpenNoOrphans(os: seq<Orphan>, b: Box)
    requires b.buffered == [] && NoneOpen(Stored(b)) && ListsOrphans(os, GroupsOf(Listing(b.recs, b.first), None))
    ensures os == []
  {
    assert Stored(b) == LogEntries(b.recs);
    if os != [] {
      ListingEntries(b.recs, b.first);
      ListedOrphans(os, Listing(b.recs, b.first), None, os[0]);
    }
  }

  /** The terminals appended for a scan: one for each orphan, by its fields. */
  lemma TerminalsAreForOrphans(os: seq<Orphan>, rs: seq<Record>, except: Option<string>, message: string)
    requires ListsOrphans(os, GroupsOf(rs, except))
    ensures forall e :: e in Terminals(os, message) <==>
              exists o :: IsOrphan(EntrySet(rs), o) && Some(o.command) != except && IsSynthetic(e, o.command, o.lastProgress, message)
  {
    forall o ensures o in os <==> IsOrphan(EntrySet(rs), o) && Some(o.command) != except { ListedOrphans(os, rs, except, o); }
    var es := Terminals(os, message);
    forall e, o | o in os && IsSynthetic(e, o.command, o.lastProgress, message) ensures e in es {
      var i :| 0 <= i < |os| && os[i] == o;
      assert es[i] == e;
    }
    forall e | e in es ensures exists o :: o in os && IsSynthetic(e, o.command, o.lastProgress, message) {
      var i :| 0 <= i < |es| && es[i] == e;
      assert os[i] in os && IsSynthetic(e, os[i].command, os[i].lastProgress, message);
    }
  }

  lemma LogTerminals(b: Box, found: seq<Orphan>, message: string)
    requires b.buffered == [] && ListsOrphans(found, GroupsOf(Listing(b.recs, b.first), None))
    ensures forall e :: e in Terminals(found, message) <==>
              exists o :: IsOrphan(Stored(b), o) && IsSynthetic(e, o.command, o.lastProgress, message)
  {
    assert Stored(b) == LogEntries(b.recs);
    ListingEntries(b.recs, b.first);
    TerminalsAreForOrphans(found, Listing(b.recs, b.first), None, message);
  }

  lemma AddedTerminate(before: set<Entry>, es: seq<Entry>, message: string)
    requires forall e :: e in es <==> exists o :: IsOrphan(before, o) && IsSynthetic(e, o.command, o.lastProgress, message)
    ensures Terminated(before, before + Members(es), message)
  {
  }

  lemma SynthesisEnds(scanned: Box, os: seq<Orphan>, message: string, b: Box)
    requires scanned.buffered == [] && ListsOrphans(os, GroupsOf(Listing(scanned.recs, scanned.first), None))
    requires b.buffered == [] && Stored(b) == Stored(scanned) + Members(Terminals(os, message))
    ensures LogEntries(b.recs) == Stored(b) && Terminated(Stored(scanned), Stored(b), message) && NoneOpen(Stored(b))
  {
    LogTerminals(scanned, os, message);
    AddedTerminate(Stored(scanned), Terminals(os, message), message);
    SynthesisIsComplete(Stored(scanned), Stored(b), message);
  }

  /** What a round of the barrier comes to. It fails if its scan or an append
      fails, and passes if the scan shows no other command; else the outbox holds
      what it held and, for each other command of the scan without a terminal, one
      that says the turn failed and covers exactly the progress scanned. */
  lemma RoundOutcome(size: Sizer, limits: Limits, b: Box, command: string, io: RoundWeather)
    requires 1 <= b.first
    ensures var scan, r := ReadBox(size, b, limits.entries, limits.bytes, 0, io.scan), RoundOn(size, limits, b, command, io);
            && (scan.records.None? ==> r == Faulted(scan.box))
            && (r.Passed? <==> scan.records.Some? && forall e :: e in EntrySet(scan.records.value) ==> e.command == command)
            && (r.Passed? ==> r.box == scan.box)
            && (r.Blocked? ==>
                  forall e :: e in Stored(r.box) <==>
                    || e in Stored(b)
                    || exists o :: IsOrphan(EntrySet(scan.records.value), o) && o.command != command
                         && IsSynthetic(e, o.command, o.lastProgress, "agent stopped before the turn reported a result"))
            && (scan.records.Some? && r.Faulted? ==>
                  !AppendEach(size, scan.box, Terminals(Orphans(scan.records.value, Some(command)), AGENT_STOPPED), io.appends, 0).ok)
            && (r.Blocked? ==>
                  AppendEach(size, scan.box, Terminals(Orphans(scan.records.value, Some(command)), AGENT_STOPPED), io.appends, 0).ok)
  {
    var scan := ReadBox(size, b, limits.entries, limits.bytes, 0, io.scan);
    ReadKeepsEntries(size, b, limits.entries, limits.bytes, 0, io.scan);
    if scan.records.Some? {
      var rs := scan.records.value;
      BlockedByAnEntry(rs, command);
      var es := Terminals(Orphans(rs, Some(command)), AGENT_STOPPED);
      AppendEachKeepsEntries(size, scan.box, es, io.appends, 0);
      TerminalsAreForOrphans(Orphans(rs, Some(command)), rs, Some(command), AGENT_STOPPED);
    }
  }

  lemma BlockedByAnEntry(rs: seq<Record>, command: string)
    ensures BlockedFor(rs, command) <==> exists e :: e in EntrySet(rs) && e.command != command
  {
    if e :| e in EntrySet(rs) && e.command != command {
      assert Holds(EntrySet(rs), e.command);
    }
  }

  lemma PrefixGrows(size: Sizer, rs: seq<Record>, i: nat)
    requires i < |rs|
    ensures SettledBytes(size, rs[..i + 1]) ==
              SettledBytes(size, rs[..i]) + match rs[i].entry case None => 0 case Some(e) => size(e)
    ensures HasTerminal(rs[..i + 1]) <==> HasTerminal(rs[..i]) || IsTerminal(rs[i])
  {
    assert rs[..i + 1][..i] == rs[..i] && rs[..i + 1][i] == rs[i];
    if HasTerminal(rs[..i]) {
      var k :| 0 <= k < i && IsTerminal(rs[..i][k]);
      assert IsTerminal(rs[..i + 1][k]);
    }
    if HasTerminal(rs[..i + 1]) {
      var k :| 0 <= k < i + 1 && IsTerminal(rs[..i + 1][k]);
      assert k < i ==> IsTerminal(rs[..i][k]);
    }
  }

  lemma TablesGrow(rejected: map<string, string>, terminals: set<string>, list: seq<Rejection>, i: nat)
    requires i < |list| && RejectedTable(rejected, list[..i]) && TerminalTable(terminals, list[..i])
    ensures var r := list[i];
            && RejectedTable(rejected[RejectionKey(r.command, r.kind, r.seqNo) := r.reason], list[..i + 1])
            && TerminalTable(if r.kind == Result then terminals + {r.command} else terminals, list[..i + 1])
  {
    var r := list[i];
    assert list[..i + 1] == list[..i] + [r];
    RejectedTableGrows(rejected, list[..i], r);
    if r.kind == Result {
      TerminalTableGrows(terminals, list[..i], r);
    } else {
      TerminalTableSkips(terminals, list[..i], r);
    }
  }

  lemma RejectedTableGrows(rejected: map<string, string>, list: seq<Rejection>, r: Rejection)
    requires RejectedTable(rejected, list)
    ensures RejectedTable(rejected[RejectionKey(r.command, r.kind, r.seqNo) := r.reason], list + [r])
  {
    var key := RejectionKey(r.command, r.kind, r.seqNo);
    var longer := list + [r];
    assert longer[|list|] == r;
    forall k | k in rejected
      ensures exists j :: 0 <= j < |longer| && RejectionKey(longer[j].command, longer[j].kind, longer[j].seqNo) == k
    {
      var j :| 0 <= j < |list| && RejectionKey(list[j].command, list[j].kind, list[j].seqNo) == k;
      assert longer[j] == list[j];
    }
  }

  lemma TerminalTableGrows(terminals: set<string>, list: seq<Rejection>, r: Rejection)
    requires TerminalTable(terminals, list) && r.kind == Result
    ensures TerminalTable(terminals + {r.command}, list + [r])
  {
    var longer := list + [r];
    assert longer[|list|] == r;
    forall c | c in terminals
      ensures exists j :: 0 <= j < |longer| && longer[j].kind == Result && longer[j].command == c
    {
      var j :| 0 <= j < |list| && list[j].kind == Result && list[j].command == c;
      assert longer[j] == list[j];
    }
  }

  lemma TerminalTableSkips(terminals: set<string>, list: seq<Rejection>, r: Rejection)
    requires TerminalTable(terminals, list) && r.kind != Result
    ensures TerminalTable(terminals, list + [r])
  {
    var longer := list + [r];
    forall c | c in terminals
      ensures exists j :: 0 <= j < |longer| && longer[j].kind == Result && longer[j].command == c
    {
      var j :| 0 <= j < |list| && list[j].kind == Result && list[j].command == c;
      assert longer[j] == list[j];
    }
  }

  lemma SomeTerminal(terminals: set<string>, resp: Response)
    requires TerminalTable(terminals, resp.rejected)
    ensures terminals != {} <==> RejectsSomeTerminal(resp)
  {
    if terminals != {} { var c :| c in terminals; }
    if RejectsSomeTerminal(resp) {
      var j :| 0 <= j < |resp.rejected| && resp.rejected[j].kind == Result;
      assert resp.rejected[j].command in terminals;
    }
  }
}
