/** When the turn-start barrier's wait ends: rounds of the barrier and cycles of
    the uploader, in turn. */
module Release {
  import opened Envelope
  import opened Outbox
  import opened Shards
  import opened Groups
  import opened Retention
  import opened Fold
  import opened Safety
  import opened Uploader
  import opened Progress
  import opened Recovery
  import opened Isolation
  import Text
  import Pace
  import Protocol

  // ---------- the wait ----------

  /** What comes in during one beat: a round, then a cycle. */
  datatype Beat = Beat(round: RoundWeather, send: Transport, io: CycleWeather)

  /** A wait over; a wait that an outbox fault ended; or one that goes on, with
      what the last round left. */
  datatype Wait = Clear | Failed(box: Box) | StillBlocked(f: Folded)

  lemma RoundKeepsFirst(size: Sizer, limits: Limits, b: Box, c: string, io: RoundWeather)
    requires 1 <= b.first
    ensures 1 <= RoundOn(size, limits, b, c, io).box.first
  {
    var r := ReadBox(size, b, limits.entries, limits.bytes, 0, io.scan);
    ReadAdds(size, limits, b, io.scan);
    if r.records.Some? {
      AppendEachAdds(size, r.box, Terminals(Orphans(r.records.value, Some(c)), AGENT_STOPPED), io.appends, 0);
    }
  }

  /** Where the wait of the barrier for `c` stands after k cycles. */
  ghost function WaitFor(size: Sizer, limits: Limits, b: Box, u: Up, c: string, env: nat -> Beat, at: nat, k: nat): Wait
    requires 1 <= b.first
    decreases k
  {
    RoundKeepsFirst(size, limits, b, c, env(at).round);
    match RoundOn(size, limits, b, c, env(at).round)
    case Passed(_) => Clear
    case Faulted(box) => Failed(box)
    case Blocked(box) =>
      if k == 0 then StillBlocked(Folded(box, u))
      else
        CycleKeepsFirst(size, limits, box, u, env(at).send, env(at).io);
        var f := CycleUp(size, limits, box, u, env(at).send, env(at).io);
        WaitFor(size, limits, f.box, f.up, c, env, at + 1, k - 1)
  }

  lemma OneBeat(size: Sizer, limits: Limits, b: Box, u: Up, c: string, env: nat -> Beat, at: nat, k: nat, r: Box, f: Folded)
    requires 1 <= b.first && 1 <= r.first && 0 < k
    requires RoundOn(size, limits, b, c, env(at).round) == Blocked(r) && f == CycleUp(size, limits, r, u, env(at).send, env(at).io)
    ensures 1 <= f.box.first
    ensures WaitFor(size, limits, b, u, c, env, at, k) == WaitFor(size, limits, f.box, f.up, c, env, at + 1, k - 1)
  {
    CycleKeepsFirst(size, limits, r, u, env(at).send, env(at).io);
  }

  // ---------- a log of one command ----------

  predicate IsEnd(p: Payload) {
    p.Good? && p.entry.kind == Result
  }

  predicate AllOf(ps: seq<Payload>, d: string) {
    forall j :: 0 <= j < |ps| ==> ps[j].Good? && ps[j].entry.command == d
  }

  /** An open outbox of readable records of one command. */
  predicate Held(b: Box, d: string) {
    1 <= b.first && !b.closed && AllOf(Whole(b), d)
  }

  predicate EndFrom(ps: seq<Payload>, p: int) {
    exists j :: 0 <= p <= j < |ps| && IsEnd(ps[j])
  }

  /** No terminal lies within the caps of one read from the front. */
  ghost predicate FrontOpen(size: Sizer, limits: Limits, ps: seq<Payload>) {
    forall j: nat :: j < |ps| && Within(size, ps, j, limits.entries, limits.bytes, false) ==> !IsEnd(ps[j])
  }

  /** How many records lie behind the cursor. */
  function Seen(b: Box, u: Up): nat {
    Top(b.first, u.readFrom) - b.first
  }

  /** The barrier can be freed: it will add a terminal itself; or one lies in
      front of the cursor; or the bytes there reach the backstop. */
  ghost predicate CanFree(size: Sizer, limits: Limits, b: Box, u: Up) {
    CanFreeAt(size, limits, Whole(b), Seen(b, u), u.settledSinceEvict)
  }

  ghost predicate CanFreeAt(size: Sizer, limits: Limits, ps: seq<Payload>, p: nat, settled: int) {
    || FrontOpen(size, limits, ps)
    || EndFrom(ps, p)
    || (p < |ps| && settled + Bytes(size, ps[p..]) >= limits.truncateAt)
  }

  /** The barrier of another command finds such an outbox blocked, and lists its
      command exactly if the front is open. */
  lemma RoundFinds(size: Sizer, limits: Limits, r: Box, rs: seq<Record>, c: string, d: string)
    requires AllOf(r.recs, d) && c != d && 1 <= limits.entries && r.recs != []
    requires |rs| <= |r.recs| && rs == Listing(r.recs, r.first)[..|rs|]
    requires forall j: nat :: j < |r.recs| ==> (j < |rs| <==> Within(size, r.recs, j, limits.entries, limits.bytes, false))
    ensures BlockedFor(rs, c)
    ensures var os := Orphans(rs, Some(c));
            if FrontOpen(size, limits, r.recs) then |os| == 1 && os[0].command == d else os == []
  {
    var os := Orphans(rs, Some(c));
    FrontEntries(size, limits, r.recs, r.first, rs);
    assert InFront(size, limits, r.recs, 0, d);
    assert r.recs[0].entry in EntrySet(rs);
    assert Holds(EntrySet(rs), d);
    ListsExactly(os, rs, c, d);
    OnlyOneIsListed(os, rs, c, d);
    assert HoldsKind(EntrySet(rs), d, Result) <==> !FrontOpen(size, limits, r.recs) by {
      if j: nat :| j < |r.recs| && Within(size, r.recs, j, limits.entries, limits.bytes, false) && IsEnd(r.recs[j]) {
        assert InFront(size, limits, r.recs, j, d);
      }
      if HoldsKind(EntrySet(rs), d, Result) {
        var e :| e in EntrySet(rs) && e.command == d && e.kind == Result;
        var j: nat :| j < |r.recs| && InFront(size, limits, r.recs, j, e.command) && r.recs[j] == Good(e);
        assert IsEnd(r.recs[j]);
      }
    }
  }

  lemma OnlyOneIsListed(os: seq<Orphan>, rs: seq<Record>, c: string, d: string)
    requires ListsOrphans(os, GroupsOf(rs, Some(c))) && OnlyOf(EntrySet(rs), d)
    ensures |os| <= 1 && (Lists(os, d) <==> |os| == 1) && (|os| == 1 ==> os[0].command == d)
  {
    forall i | 0 <= i < |os| ensures os[i].command == d { ListedOrphans(os, rs, Some(c), os[i]); }
    if |os| > 1 { Text.LessTotal(os[0].command, os[1].command); }
  }

  /** One round on such an outbox that does not fail to read it. */
  lemma RoundReads(size: Sizer, limits: Limits, b: Box, c: string, d: string, io: RoundWeather)
    requires 1 <= b.first && c != d && 1 <= limits.entries
    requires var r := ReadBox(size, b, limits.entries, limits.bytes, 0, io.scan);
             r.records.Some? && r.box.recs != [] && AllOf(r.box.recs, d)
    ensures var r := ReadBox(size, b, limits.entries, limits.bytes, 0, io.scan);
            var os := Orphans(r.records.value, Some(c));
            && BlockedFor(r.records.value, c)
            && if FrontOpen(size, limits, r.box.recs) then |os| == 1 && os[0].command == d else os == []
  {
    FrontRead(size, limits, b, io.scan);
    var r := ReadBox(size, b, limits.entries, limits.bytes, 0, io.scan);
    RoundFinds(size, limits, r.box, r.records.value, c, d);
  }

  // ---------- a group whose terminal is last ----------

  /** What the outbox holds is of one command, and its terminal is last. */
  ghost predicate EndedGroup(b: Box, d: string) {
    && 1 <= b.first && NoTorn(b) && OnlyOf(Stored(b), d) && EndsInTerminal(b)
  }

  lemma WholeIsStored(b: Box)
    ensures LogEntries(Whole(b)) == Stored(b)
  {
    LogEntriesOfSum(b.recs, GoodAll(b.buffered));
    LogEntriesOfBatch(b.buffered);
  }

  lemma GroupIsEnded(ps: seq<Payload>, d: string)
    requires ps != [] && ps[|ps| - 1].Good? && ps[|ps| - 1].entry.kind == Result && OnlyOf(LogEntries(ps), d)
    ensures Ended(ps, d)
  {
    var last := |ps| - 1;
    assert ps[last] in ps && ps[last].entry in LogEntries(ps);
    forall i | 0 <= i < |ps| && ps[i].Good? && ps[i].entry.command == d ensures EndsAt(ps, i) {
      assert i <= last && ps[last].entry.command == ps[i].entry.command;
    }
  }

  lemma EndedLogListsNobody(recs: seq<Payload>, first: nat, c: string, d: string, os: seq<Orphan>)
    requires Ended(recs, d) && OnlyOf(LogEntries(recs), d) && ListsOrphans(os, GroupsOf(Listing(recs, first), Some(c)))
    ensures os == []
  {
    EndedIsNotListed(recs, first, c, os, d);
    if os != [] {
      ListingEntries(recs, first);
      ListedOrphans(os, Listing(recs, first), Some(c), os[0]);
    }
  }

  lemma ReadKeepsOnly(size: Sizer, limits: Limits, b: Box, d: string, io: ReadWeather)
    requires 1 <= b.first && OnlyOf(Stored(b), d)
    ensures var r := ReadBox(size, b, limits.entries, limits.bytes, 0, io);
            r.records.Some? ==> r.box.buffered == [] && OnlyOf(LogEntries(r.box.recs), d)
  {
    ReadKeepsEntries(size, b, limits.entries, limits.bytes, 0, io);
    var r := ReadBox(size, b, limits.entries, limits.bytes, 0, io);
    assert r.records.Some? ==> LogEntries(r.box.recs) == Stored(r.box);
  }

  lemma ReadKeepsTheGroup(size: Sizer, limits: Limits, b: Box, d: string, io: ReadWeather)
    requires EndedGroup(b, d)
    ensures var r := ReadBox(size, b, limits.entries, limits.bytes, 0, io);
            r.records.Some? ==> Ended(r.box.recs, d) && OnlyOf(LogEntries(r.box.recs), d)
  {
    WholeIsStored(b);
    GroupIsEnded(Whole(b), d);
    ReadKeepsEnded(size, limits, b, io, d);
    ReadKeepsOnly(size, limits, b, d, io);
    var r := ReadBox(size, b, limits.entries, limits.bytes, 0, io);
    if r.records.Some? { NothingBuffered(r.box); }
  }

  lemma NothingBuffered(b: Box)
    requires b.buffered == []
    ensures Whole(b) == b.recs
  {
  }

  /** A round whose scan sees the whole log adds nothing to such a group. */
  lemma EndedGroupIsIdle(size: Sizer, limits: Limits, b: Box, c: string, d: string, io: ReadWeather)
    requires EndedGroup(b, d)
    requires var r := ReadBox(size, b, limits.entries, limits.bytes, 0, io);
             r.records.Some? ==> r.records.value == Listing(r.box.recs, r.box.first)
    ensures var r := ReadBox(size, b, limits.entries, limits.bytes, 0, io);
            r.records.Some? ==> Orphans(r.records.value, Some(c)) == []
  {
    var r := ReadBox(size, b, limits.entries, limits.bytes, 0, io);
    ReadKeepsTheGroup(size, limits, b, d, io);
    if r.records.Some? { EndedLogListsNobody(r.box.recs, r.box.first, c, d, Orphans(r.records.value, Some(c))); }
  }

  // ---------- everything behind the cursor ----------

  /** Another command's terminal in front, all behind the cursor, nothing
      buffered. */
  ghost predicate Jammed(size: Sizer, limits: Limits, b: Box, u: Up, d: string) {
    && 1 <= b.first && b.recs != [] && b.buffered == [] && AllOf(b.recs, d)
    && !FrontOpen(size, limits, b.recs) && u.readFrom == b.Last() + 1
  }

  predicate SameLog(b: Box, b': Box) {
    b'.recs == b.recs && b'.first == b.first && b'.buffered == b.buffered
  }

  /** A disk that lets a round read. */
  predicate Readable(b: Box, io: ReadWeather) {
    !b.closed && io.opens && io.ranges && io.bad == 0
  }

  lemma JammedRead(size: Sizer, limits: Limits, b: Box, io: ReadWeather)
    requires 1 <= b.first && b.buffered == []
    ensures var r := ReadBox(size, b, limits.entries, limits.bytes, 0, io);
            SameLog(b, r.box) && r.box.closed == b.closed && (Readable(b, io) ==> r.records.Some?)
  {
    if Readable(b, io) {
      var start := StartIndex(b, 0);
      ScanFailsOnlyAtBad(size, b.recs[start - b.first..], start, limits.entries, limits.bytes, false, 0);
    }
  }

  lemma NothingToAppend(size: Sizer, b: Box, w: nat -> Weather)
    ensures AppendEach(size, b, Terminals([], AGENT_STOPPED), w, 0) == Written(b, true, false)
  {
    assert Terminals([], AGENT_STOPPED) == [];
  }

  lemma JammedRound(size: Sizer, limits: Limits, b: Box, u: Up, c: string, d: string, io: RoundWeather)
    requires Jammed(size, limits, b, u, d) && c != d && 1 <= limits.entries
    ensures var r := RoundOn(size, limits, b, c, io);
            !r.Passed? && SameLog(b, r.box) && r.box.closed == b.closed && (Readable(b, io.scan) ==> r.Blocked?)
  {
    var r := ReadBox(size, b, limits.entries, limits.bytes, 0, io.scan);
    JammedRead(size, limits, b, io.scan);
    if r.records.Some? {
      RoundReads(size, limits, b, c, d, io);
      NothingToAppend(size, r.box, io.appends);
    }
  }

  /** A cycle that finds the log behind its cursor leaves it, for any manager and
      any disk. */
  lemma JammedCycle(size: Sizer, limits: Limits, b: Box, u: Up, send: Transport, io: CycleWeather)
    requires 1 <= b.first && b.recs != [] && b.buffered == [] && u.readFrom == b.Last() + 1
    ensures var f := CycleUp(size, limits, b, u, send, io);
            f.up == u && SameLog(b, f.box) && f.box.closed == b.closed
  {
    ReadKeepsEntries(size, b, limits.entries, limits.bytes, u.readFrom, io.read);
    ReadIsNext(size, b, limits.entries, limits.bytes, u.readFrom, io.read);
  }

  /** The wait stands where it stood, or a read has failed. */
  predicate StaysJammed(b: Box, u: Up, w: Wait) {
    match w
    case Clear => false
    case Failed(box) => SameLog(b, box)
    case StillBlocked(f) => SameLog(b, f.box) && f.up == u
  }

  lemma JammedBeat(size: Sizer, limits: Limits, b: Box, u: Up, c: string, d: string, env: nat -> Beat, at: nat, k: nat)
    returns (f: Folded)
    requires Jammed(size, limits, b, u, d) && c != d && 1 <= limits.entries && 0 < k
    ensures Jammed(size, limits, f.box, f.up, d) && f.up == u && SameLog(b, f.box) && f.box.closed == b.closed
    ensures var w := WaitFor(size, limits, b, u, c, env, at, k);
            || w == WaitFor(size, limits, f.box, f.up, c, env, at + 1, k - 1)
            || (w.Failed? && SameLog(b, w.box) && !Readable(b, env(at).round.scan))
  {
    f := Folded(b, u);
    JammedRound(size, limits, b, u, c, d, env(at).round);
    var r := RoundOn(size, limits, b, c, env(at).round);
    if r.Blocked? {
      JammedCycle(size, limits, r.box, u, env(at).send, env(at).io);
      f := CycleUp(size, limits, r.box, u, env(at).send, env(at).io);
      OneBeat(size, limits, b, u, c, env, at, k, r.box, f);
    }
  }

  lemma JammedNow(size: Sizer, limits: Limits, b: Box, u: Up, c: string, d: string, env: nat -> Beat, at: nat)
    requires Jammed(size, limits, b, u, d) && c != d && 1 <= limits.entries
    ensures var w := WaitFor(size, limits, b, u, c, env, at, 0);
            StaysJammed(b, u, w) && (Readable(b, env(at).round.scan) ==> w.StillBlocked?)
  {
    JammedRound(size, limits, b, u, c, d, env(at).round);
  }

  ghost predicate AllReadable(b: Box, env: nat -> Beat, at: nat, k: nat)
    decreases k
  {
    Readable(b, env(at).round.scan) && (k > 0 ==> AllReadable(b, env, at + 1, k - 1))
  }

  lemma StaysStuck(size: Sizer, limits: Limits, b: Box, u: Up, c: string, env: nat -> Beat, at: nat, k: nat, f: Folded)
    requires 1 <= b.first && 1 <= f.box.first && 0 < k
    requires f.up == u && SameLog(b, f.box) && f.box.closed == b.closed
    requires AllReadable(b, env, at + 1, k - 1) == AllReadable(f.box, env, at + 1, k - 1)
    requires var w := WaitFor(size, limits, b, u, c, env, at, k);
            || w == WaitFor(size, limits, f.box, f.up, c, env, at + 1, k - 1)
            || (w.Failed? && SameLog(b, w.box) && !Readable(b, env(at).round.scan))
    requires var w := WaitFor(size, limits, f.box, f.up, c, env, at + 1, k - 1);
            StaysJammed(f.box, f.up, w) && (AllReadable(f.box, env, at + 1, k - 1) ==> w.StillBlocked?)
    ensures var w := WaitFor(size, limits, b, u, c, env, at, k);
            StaysJammed(b, u, w) && (AllReadable(b, env, at, k) ==> w.StillBlocked?)
  {
  }

  /** However long it waits, and whatever the manager and the disk do: no round
      passes and nothing moves. A round whose read fails ends the wait with the
      error, and as long as none does it goes on. */
  lemma {:induction false} StuckForever(size: Sizer, limits: Limits, b: Box, u: Up, c: string, d: string, env: nat -> Beat, at: nat, k: nat)
    requires Jammed(size, limits, b, u, d) && c != d && 1 <= limits.entries
    ensures var w := WaitFor(size, limits, b, u, c, env, at, k);
            StaysJammed(b, u, w) && (AllReadable(b, env, at, k) ==> w.StillBlocked?)
    decreases k
  {
    if k == 0 {
      JammedNow(size, limits, b, u, c, d, env, at);
    } else {
      var f := JammedBeat(size, limits, b, u, c, d, env, at, k);
      StuckForever(size, limits, f.box, f.up, c, d, env, at + 1, k - 1);
      ReadableAlike(b, f.box, env, at + 1, k - 1);
      StaysStuck(size, limits, b, u, c, env, at, k, f);
    }
  }

  lemma {:induction false} ReadableAlike(b: Box, b': Box, env: nat -> Beat, at: nat, k: nat)
    requires b.closed == b'.closed
    ensures AllReadable(b, env, at, k) == AllReadable(b', env, at, k)
    decreases k
  {
    if k > 0 { ReadableAlike(b, b', env, at + 1, k - 1); }
  }

  /** The error's own remedy: the failed turn's terminal, once it is in the
      outbox, is a record in front of the cursor. It says that the turn failed
      before it did anything. */
  lemma FaultPutsARecordAhead(size: Sizer, b: Box, u: Up, c: string, w: Weather)
    requires !b.closed && u.readFrom <= b.Last() + 1
    ensures var r := AppendBox(size, b, FaultTerminal(c), w);
            !r.moved ==>
              && EndsInTerminal(r.box) && Ahead(r.box, u) > 0
              && var e := Whole(r.box)[|Whole(r.box)| - 1].entry;
                 && e.command == c && e.seqNo == 1
                 && e.body.ResultBody? && e.body.exitCode == -1 && e.body.lastSeqNo == 0
                 && e.body.message == "outbox barrier failed before the turn"
  {
    var b' := Buffering(size, b, FaultTerminal(c));
    FlushKeepsEntries(b', w);
    if b'.bufferedBytes >= FLUSH_THRESHOLD && FlushBox(b', w).ok { BurstIsWritten(b', b'.buffered, w); }
  }

  // ---------- a settling manager and a sound disk ----------

  ghost predicate SoundBeat(t: Beat) {
    && t.round.scan.opens && t.round.scan.flush.write.Wrote? && t.round.scan.ranges && t.round.scan.bad == 0
    && (forall i :: t.round.appends(i).write.Wrote?)
    && Fair(t.io) && SettlesAll(t.send)
  }

  ghost predicate SoundWorld(env: nat -> Beat) {
    forall i :: SoundBeat(env(i))
  }

  lemma SoundAppends(size: Sizer, b: Box, os: seq<Orphan>, w: nat -> Weather, d: string)
    requires !b.closed && b.open && w(0).write.Wrote? && |os| == 1 && os[0].command == d
    ensures var r := AppendEach(size, b, Terminals(os, AGENT_STOPPED), w, 0);
            && r.ok && r.box.first == b.first && !r.box.closed && |b.recs| <= |r.box.recs|
            && exists p :: IsEnd(p) && p.entry.command == d && Whole(r.box) == Whole(b) + [p]
  {
    var es := Terminals(os, AGENT_STOPPED);
    SoundAppend(size, b, es[0], w(0));
    assert es[1..] == [] && IsEnd(Good(es[0]));
  }

  /** The log after a round: one terminal more if its front was open. */
  ghost predicate Rounded(size: Sizer, limits: Limits, ps: seq<Payload>, ps': seq<Payload>, d: string) {
    if FrontOpen(size, limits, ps) then exists p :: IsEnd(p) && p.entry.command == d && ps' == ps + [p]
    else ps' == ps
  }

  lemma SoundRound(size: Sizer, limits: Limits, b: Box, c: string, d: string, t: Beat)
    requires Held(b, d) && c != d && 1 <= limits.entries && SoundBeat(t)
    ensures var r := RoundOn(size, limits, b, c, t.round);
            if Whole(b) == [] then r.Passed?
            else
              && r.Blocked? && r.box.first == b.first && !r.box.closed && |b.recs| <= |r.box.recs|
              && Rounded(size, limits, Whole(b), Whole(r.box), d)
  {
    FairRead(size, limits, b, Up(0, 0), t.round.scan);
    var r := ReadBox(size, b, limits.entries, limits.bytes, 0, t.round.scan);
    assert Whole(r.box) == r.box.recs;
    if Whole(b) != [] {
      RoundReads(size, limits, b, c, d, t.round);
      var os := Orphans(r.records.value, Some(c));
      if FrontOpen(size, limits, r.box.recs) { SoundAppends(size, r.box, os, t.round.appends, d); }
    }
  }

  /** What a cycle that reads n records makes of the log `ps` with p records
      behind the cursor: an eviction takes the batch and what lies before it, or
      the cursor passes it, or the cap drops all. */
  ghost predicate Cycled(size: Sizer, limits: Limits, ps: seq<Payload>, p: nat, u: Up, f: Folded, n: nat, calm: bool)
    requires 0 < n && p + n <= |ps|
  {
    var batch := ps[p..p + n];
    && 1 <= f.box.first && !f.box.closed && f.box.buffered == [] && f.up.readFrom <= f.box.Last() + 1
    && (|| (!calm && f.box.recs == [])
        || (&& (!calm || EndFrom(batch, 0) || u.settledSinceEvict + Bytes(size, batch) >= limits.truncateAt)
            && f.box.recs == ps[p + n..] && Seen(f.box, f.up) == 0)
        || (&& !EndFrom(batch, 0) && f.box.recs == ps && Seen(f.box, f.up) == p + n
            && f.up.settledSinceEvict == u.settledSinceEvict + Bytes(size, batch) < limits.truncateAt))
  }

  lemma {:induction false} BytesOfSum(size: Sizer, a: seq<Payload>, b: seq<Payload>)
    ensures Bytes(size, a + b) == Bytes(size, a) + Bytes(size, b)
  {
    if a == [] {
      assert a + b == b;
    } else {
      BytesOfSum(size, a[1..], b);
      assert (a + b)[1..] == a[1..] + b;
    }
  }

  lemma {:induction false} BatchBytes(size: Sizer, batch: seq<Payload>, d: string, rs: seq<Record>, first: nat)
    requires AllOf(batch, d) && |rs| == |batch| && forall k :: 0 <= k < |rs| ==> rs[k] == RecordOf(first + k, batch[k])
    ensures SettledBytes(size, rs) == Bytes(size, batch)
  {
    if rs != [] {
      var n := |rs| - 1;
      BatchBytes(size, batch[..n], d, rs[..n], first);
      BytesOfSum(size, batch[..n], [batch[n]]);
      assert batch == batch[..n] + [batch[n]];
    }
  }

  lemma BatchEnds(batch: seq<Payload>, rs: seq<Record>, first: nat)
    requires |rs| == |batch| && forall k :: 0 <= k < |rs| ==> rs[k] == RecordOf(first + k, batch[k])
    ensures HasTerminal(rs) <==> EndFrom(batch, 0)
  {
    if i :| 0 <= i < |rs| && IsTerminal(rs[i]) { assert IsEnd(batch[i]); }
    if j :| 0 <= j < |rs| && IsEnd(batch[j]) { assert IsTerminal(rs[j]); }
  }

  /** The log and the cursor after the fold of a full reply to n records. */
  ghost predicate Folds(ps: seq<Payload>, first: nat, p: nat, n: nat, f: Folded, due: bool) {
    && f.up.readFrom == first + p + n && f.box.first + |f.box.recs| == first + |ps|
    && first <= f.box.first && f.box.recs == ps[f.box.first - first..]
    && f.box.buffered == [] && !f.box.closed
    && f.box.first == if due then f.up.readFrom else first
  }

  /** The batch is the run of the log that starts at the cursor. */
  predicate NextRun(r: Box, u: Up, rs: seq<Record>) {
    && 1 <= r.first && u.readFrom <= r.Last() + 1 && rs != [] && Seen(r, u) + |rs| <= |r.recs|
    && rs == Listing(r.recs, r.first)[Seen(r, u)..Seen(r, u) + |rs|]
  }

  lemma RunIsInFlight(r: Box, u: Up, rs: seq<Record>)
    requires NextRun(r, u, rs)
    ensures InFlight(r, u.readFrom, rs)
  {
    assert StartIndex(r, u.readFrom) - r.first == Seen(r, u);
    NextIsInFlight(r, u.readFrom, rs);
  }

  lemma RunStarts(r: Box, u: Up, rs: seq<Record>)
    requires NextRun(r, u, rs)
    ensures rs[0].index == r.first + Seen(r, u)
  {
  }

  lemma PurgesWhenDue(size: Sizer, limits: Limits, r: Box, u: Up, rs: seq<Record>, resp: Response, io: TruncateWeather)
    requires rs != [] && SettledCount(rs, resp) == |rs| && Evicts(r, io)
    ensures Protocol.Purges(size, limits, r, u, rs, resp, io) <==> Due(size, limits, u, rs, resp)
    ensures Accumulated(size, u, rs[..|rs|], resp) == Accumulated(size, u, rs, resp)
  {
    assert rs[..|rs|] == rs;
  }

  lemma FullFold(size: Sizer, limits: Limits, r: Box, u: Up, rs: seq<Record>, resp: Response, io: TruncateWeather) returns (f: Folded)
    requires NextRun(r, u, rs) && SettledCount(rs, resp) == |rs| && Evicts(r, io) && r.buffered == []
    ensures f == FoldUp(size, limits, r, u, rs, resp, io)
    ensures var due := Due(size, limits, u, rs, resp);
            Folds(r.recs, r.first, Seen(r, u), |rs|, f, due) && (!due ==> f.up.settledSinceEvict == Accumulated(size, u, rs, resp))
  {
    f := FoldUp(size, limits, r, u, rs, resp, io);
    RunStarts(r, u, rs);
    RunIsInFlight(r, u, rs);
    PurgesWhenDue(size, limits, r, u, rs, resp, io);
    Pace.FoldAccumulates(size, limits, r, u, rs, resp, io);
    FullReply(size, limits, r, u, rs, resp, io);
  }

  /** What the batch says of the log. */
  ghost predicate BatchIs(size: Sizer, rs: seq<Record>, batch: seq<Payload>) {
    (HasTerminal(rs) <==> EndFrom(batch, 0)) && SettledBytes(size, rs) == Bytes(size, batch)
  }

  lemma BatchFacts(size: Sizer, batch: seq<Payload>, d: string, rs: seq<Record>, first: nat)
    requires AllOf(batch, d) && |rs| == |batch| && forall k :: 0 <= k < |rs| ==> rs[k] == RecordOf(first + k, batch[k])
    ensures BatchIs(size, rs, batch)
  {
    BatchBytes(size, batch, d, rs, first);
    BatchEnds(batch, rs, first);
  }

  lemma RunBatch(size: Sizer, r: Box, u: Up, rs: seq<Record>, d: string)
    requires NextRun(r, u, rs) && AllOf(r.recs, d)
    ensures BatchIs(size, rs, r.recs[Seen(r, u)..Seen(r, u) + |rs|])
  {
    BatchFacts(size, r.recs[Seen(r, u)..Seen(r, u) + |rs|], d, rs, r.first + Seen(r, u));
  }

  /** When the fold of such a batch is due, and what it adds up when it is not. */
  lemma DueFor(size: Sizer, limits: Limits, u: Up, rs: seq<Record>, resp: Response, batch: seq<Payload>)
    requires BatchIs(size, rs, batch)
    ensures var bytes := u.settledSinceEvict + Bytes(size, batch);
            && (Due(size, limits, u, rs, resp) <==> EndFrom(batch, 0) || RejectsSomeTerminal(resp) || bytes >= limits.truncateAt)
            && (!Due(size, limits, u, rs, resp) ==> Accumulated(size, u, rs, resp) == bytes)
  {
  }

  lemma FoldCycles(size: Sizer, limits: Limits, ps: seq<Payload>, first: nat, p: nat, n: nat, u: Up,
                   f: Folded, due: bool, bytes: int, ends: bool, calm: bool)
    requires 1 <= first && 0 < n && p + n <= |ps| && Folds(ps, first, p, n, f, due)
    requires bytes == u.settledSinceEvict + Bytes(size, ps[p..p + n]) && (ends <==> EndFrom(ps[p..p + n], 0))
    requires due && calm ==> ends || bytes >= limits.truncateAt
    requires !due ==> !ends && f.up.settledSinceEvict == bytes < limits.truncateAt
    ensures Cycled(size, limits, ps, p, u, f, n, calm)
  {
  }

  /** No cap drop, and a manager that rejects a terminal only if it was sent one. */
  ghost predicate Calm(t: Beat) {
    !t.io.over && RejectsWhatItGot(t.send)
  }

  ghost predicate AlwaysCalm(env: nat -> Beat) {
    forall i :: Calm(env(i))
  }

  ghost predicate RejectsWhatItGot(send: Transport) {
    forall es :: send(es).Some? && RejectsSomeTerminal(send(es).value) ==> SomeResult(es)
  }

  predicate SomeResult(es: seq<Entry>) {
    exists e :: e in es && e.kind == Result
  }

  lemma {:induction false} EntriesComeFrom(rs: seq<Record>)
    ensures SomeResult(Entries(rs)) ==> HasTerminal(rs)
  {
    if rs != [] {
      var n := |rs| - 1;
      EntriesComeFrom(rs[..n]);
      if i :| 0 <= i < n && IsTerminal(rs[..n][i]) { assert IsTerminal(rs[i]); }
    }
  }

  lemma CapCycles(size: Sizer, limits: Limits, ps: seq<Payload>, p: nat, u: Up, f: Folded, n: nat, over: bool, io: TruncateWeather, calm: bool)
    requires 0 < n && p + n <= |ps| && Cycled(size, limits, ps, p, u, f, n, calm) && (over ==> !calm)
    ensures Cycled(size, limits, ps, p, u, Folded(CapBox(f.box, over, io), f.up), n, calm)
  {
  }

  lemma FairRun(size: Sizer, limits: Limits, b: Box, u: Up, io: ReadWeather)
    requires 1 <= b.first && !b.closed && 1 <= limits.entries && u.readFrom <= b.Last() + 1 && Seen(b, u) < |Whole(b)|
    requires io.opens && io.flush.write.Wrote? && io.ranges && io.bad == 0
    ensures var r := ReadBox(size, b, limits.entries, limits.bytes, u.readFrom, io);
            && r.box.recs == Whole(b) && r.box.buffered == [] && r.box.first == b.first && r.box.open && !r.box.closed
            && r.records.Some? && NextRun(r.box, u, r.records.value)
  {
    FairRead(size, limits, b, u, io);
    ReadIsNext(size, b, limits.entries, limits.bytes, u.readFrom, io);
    var r := ReadBox(size, b, limits.entries, limits.bytes, u.readFrom, io);
    SliceIsRun(r.box, u, r.records.value);
  }

  lemma SliceIsRun(r: Box, u: Up, rs: seq<Record>)
    requires 1 <= r.first && u.readFrom <= r.Last() + 1 && rs != []
    requires var at := StartIndex(r, u.readFrom) - r.first;
             at + |rs| <= |r.recs| && rs == Listing(r.recs, r.first)[at..at + |rs|]
    ensures NextRun(r, u, rs)
  {
    assert StartIndex(r, u.readFrom) - r.first == Seen(r, u);
  }

  lemma CycleAnswers(size: Sizer, limits: Limits, b: Box, u: Up, send: Transport, io: CycleWeather, r: Box, rs: seq<Record>)
    requires 1 <= b.first && rs != [] && send(Entries(rs)).Some?
    requires var read := ReadBox(size, b, limits.entries, limits.bytes, u.readFrom, io.read); read.box == r && read.records == Some(rs)
    ensures var f := FoldUp(size, limits, r, u, rs, send(Entries(rs)).value, io.evict);
            CycleUp(size, limits, b, u, send, io) == Folded(CapBox(f.box, io.over, io.cap), f.up)
  {
  }

  lemma FairBatch(size: Sizer, limits: Limits, b: Box, u: Up, d: string, t: Beat) returns (r: Box, rs: seq<Record>)
    requires Held(b, d) && 1 <= limits.entries && SoundBeat(t) && u.readFrom <= b.Last() + 1 && Seen(b, u) < |Whole(b)|
    ensures r.recs == Whole(b) && r.first == b.first && r.buffered == [] && r.open && !r.closed && NextRun(r, u, rs)
    ensures var f := FoldUp(size, limits, r, u, rs, t.send(Entries(rs)).value, t.io.evict);
            CycleUp(size, limits, b, u, t.send, t.io) == Folded(CapBox(f.box, t.io.over, t.io.cap), f.up)
  {
    FairRun(size, limits, b, u, t.io.read);
    var read := ReadBox(size, b, limits.entries, limits.bytes, u.readFrom, t.io.read);
    r, rs := read.box, read.records.value;
    CycleAnswers(size, limits, b, u, t.send, t.io, r, rs);
  }

  lemma SettledCycles(size: Sizer, limits: Limits, ps: seq<Payload>, first: nat, p: nat, u: Up, rs: seq<Record>, resp: Response,
                      f: Folded, over: bool, io: TruncateWeather, calm: bool)
    requires 1 <= first && rs != [] && p + |rs| <= |ps| && BatchIs(size, rs, ps[p..p + |rs|])
    requires (calm && RejectsSomeTerminal(resp) ==> HasTerminal(rs)) && (over ==> !calm)
    requires var due := Due(size, limits, u, rs, resp);
             Folds(ps, first, p, |rs|, f, due) && (!due ==> f.up.settledSinceEvict == Accumulated(size, u, rs, resp))
    ensures Cycled(size, limits, ps, p, u, Folded(CapBox(f.box, over, io), f.up), |rs|, calm)
  {
    var batch := ps[p..p + |rs|];
    DueFor(size, limits, u, rs, resp, batch);
    FoldCycles(size, limits, ps, first, p, |rs|, u, f, Due(size, limits, u, rs, resp),
               u.settledSinceEvict + Bytes(size, batch), EndFrom(batch, 0), calm);
    CapCycles(size, limits, ps, p, u, f, |rs|, over, io, calm);
  }

  /** A batch that is settled whole, up to the cap. */
  lemma SettledAnswer(size: Sizer, limits: Limits, r: Box, u: Up, rs: seq<Record>, resp: Response, d: string, io: CycleWeather, calm: bool)
    requires NextRun(r, u, rs) && SettledCount(rs, resp) == |rs| && Evicts(r, io.evict) && r.buffered == [] && AllOf(r.recs, d)
    requires (calm && RejectsSomeTerminal(resp) ==> HasTerminal(rs)) && (io.over ==> !calm)
    ensures var f := FoldUp(size, limits, r, u, rs, resp, io.evict);
            Cycled(size, limits, r.recs, Seen(r, u), u, Folded(CapBox(f.box, io.over, io.cap), f.up), |rs|, calm)
  {
    var f := FullFold(size, limits, r, u, rs, resp, io.evict);
    RunBatch(size, r, u, rs, d);
    SettledCycles(size, limits, r.recs, r.first, Seen(r, u), u, rs, resp, f, io.over, io.cap, calm);
  }

  lemma SoundAnswer(size: Sizer, limits: Limits, r: Box, u: Up, rs: seq<Record>, d: string, t: Beat)
    requires NextRun(r, u, rs) && r.open && !r.closed && r.buffered == [] && AllOf(r.recs, d) && Fair(t.io) && SettlesAll(t.send)
    ensures var f := FoldUp(size, limits, r, u, rs, t.send(Entries(rs)).value, t.io.evict);
            Cycled(size, limits, r.recs, Seen(r, u), u, Folded(CapBox(f.box, t.io.over, t.io.cap), f.up), |rs|, Calm(t))
  {
    AllSettled(t.send, rs);
    EntriesComeFrom(rs);
    SettledAnswer(size, limits, r, u, rs, t.send(Entries(rs)).value, d, t.io, Calm(t));
  }

  lemma SoundCycle(size: Sizer, limits: Limits, b: Box, u: Up, d: string, t: Beat) returns (n: nat, f: Folded)
    requires Held(b, d) && 1 <= limits.entries && SoundBeat(t) && u.readFrom <= b.Last() + 1 && Seen(b, u) < |Whole(b)|
    ensures 0 < n && Seen(b, u) + n <= |Whole(b)|
    ensures f == CycleUp(size, limits, b, u, t.send, t.io)
    ensures Cycled(size, limits, Whole(b), Seen(b, u), u, f, n, Calm(t))
  {
    var r, rs := FairBatch(size, limits, b, u, d, t);
    SoundAnswer(size, limits, r, u, rs, d, t);
    n := |rs|;
    f := CycleUp(size, limits, b, u, t.send, t.io);
  }

  // ---------- how much is left to do ----------

  function Opens(ps: seq<Payload>): (n: nat)
    ensures n <= |ps|
  {
    if ps == [] then 0 else (if IsEnd(ps[0]) then 0 else 1) + Opens(ps[1..])
  }

  lemma {:induction false} OpensOfSum(a: seq<Payload>, b: seq<Payload>)
    ensures Opens(a + b) == Opens(a) + Opens(b)
  {
    if a == [] {
      assert a + b == b;
    } else {
      OpensOfSum(a[1..], b);
      assert (a + b)[1..] == a[1..] + b;
    }
  }

  lemma {:induction false} AllOpen(ps: seq<Payload>)
    requires !EndFrom(ps, 0)
    ensures Opens(ps) == |ps|
  {
    if ps != [] {
      assert !IsEnd(ps[0]);
      forall j | 0 <= j < |ps| - 1 ensures !IsEnd(ps[1..][j]) { assert !IsEnd(ps[j + 1]); }
      AllOpen(ps[1..]);
    }
  }

  /** Records in front of the cursor, open records in the log, and open records
      in front of the cursor. */
  function Fuel(ps: seq<Payload>, p: nat): nat
    requires p <= |ps|
  {
    |ps| - p + Opens(ps) + Opens(ps[p..])
  }

  lemma OpensAt(ps: seq<Payload>, p: nat)
    requires p <= |ps|
    ensures Opens(ps) == Opens(ps[..p]) + Opens(ps[p..])
  {
    OpensOfSum(ps[..p], ps[p..]);
    assert ps == ps[..p] + ps[p..];
  }

  /** A round may add a terminal, and only to a log that starts with an open record. */
  predicate MayAdd(ps: seq<Payload>, ps': seq<Payload>) {
    ps' == ps || (ps != [] && !IsEnd(ps[0]) && |ps'| == |ps| + 1 && ps'[..|ps|] == ps && IsEnd(ps'[|ps|]))
  }

  lemma AddedOpens(ps: seq<Payload>, ps': seq<Payload>, p: nat)
    requires MayAdd(ps, ps') && p <= |ps|
    ensures Opens(ps'[p..]) == Opens(ps[p..])
  {
    if ps' != ps {
      var x := ps'[|ps|];
      assert ps'[p..] == ps[p..] + [x];
      OpensOfSum(ps[p..], [x]);
    }
  }

  lemma PassingBurns(ps: seq<Payload>, ps': seq<Payload>, p: nat, n: nat)
    requires MayAdd(ps, ps') && 0 < n && p <= |ps| && p + n <= |ps'| && !EndFrom(ps'[p..p + n], 0)
    ensures Fuel(ps', p + n) < Fuel(ps, p)
  {
    AddedOpens(ps, ps', p);
    AddedOpens(ps, ps', 0);
    assert ps'[0..] == ps' && ps[0..] == ps;
    AllOpen(ps'[p..p + n]);
    OpensAt(ps'[p..], n);
    assert ps'[p..][..n] == ps'[p..p + n] && ps'[p..][n..] == ps'[p + n..];
  }

  lemma FewerOpens(ps: seq<Payload>, n: nat)
    requires 0 < n <= |ps|
    ensures Opens(ps[n..]) + (if IsEnd(ps[0]) then 0 else 1) <= Opens(ps)
  {
    OpensAt(ps[1..], n - 1);
    assert ps[1..][n - 1..] == ps[n..];
  }

  lemma EvictingBurns(ps: seq<Payload>, ps': seq<Payload>, p: nat, n: nat)
    requires MayAdd(ps, ps') && 0 < n && p <= |ps| && p + n <= |ps'|
    ensures Fuel(ps'[p + n..], 0) < Fuel(ps, p)
  {
    var q := ps'[p + n..];
    AddedOpens(ps, ps', p);
    AddedOpens(ps, ps', 0);
    assert ps'[0..] == ps' && ps[0..] == ps && q[0..] == q && ps'[p..][n..] == q;
    FewerOpens(ps'[p..], n);
    FewerOpens(ps', p + n);
    assert ps' != ps ==> ps'[0] == ps[0];
  }

  lemma DroppingBurns(ps: seq<Payload>, p: nat)
    requires p <= |ps| && ps != [] && (p < |ps| || !IsEnd(ps[0]))
    ensures Fuel([], 0) < Fuel(ps, p)
  {
    if p == |ps| { OpensAt(ps, 1); }
  }

  // ---------- when the wait ends ----------

  /** Such an outbox with its uploader's cursor in range. */
  predicate Ready(b: Box, u: Up, d: string) {
    Held(b, d) && u.readFrom <= b.Last() + 1
  }

  lemma RoundMayAdd(size: Sizer, limits: Limits, ps: seq<Payload>, ps': seq<Payload>, d: string)
    requires Rounded(size, limits, ps, ps', d) && ps != [] && 1 <= limits.entries && AllOf(ps, d)
    ensures MayAdd(ps, ps') && AllOf(ps', d) && (FrontOpen(size, limits, ps) ==> ps' != ps)
  {
    assert Within(size, ps, 0, limits.entries, limits.bytes, false);
  }

  lemma BytesAt(size: Sizer, ps: seq<Payload>, p: nat, n: nat)
    requires p + n <= |ps|
    ensures Bytes(size, ps[p..]) == Bytes(size, ps[p..p + n]) + Bytes(size, ps[p + n..])
  {
    BytesOfSum(size, ps[p..p + n], ps[p + n..]);
    assert ps[p..] == ps[p..p + n] + ps[p + n..];
  }

  /** The cursor passes a batch: what could free the barrier still can. */
  lemma PassingFrees(size: Sizer, limits: Limits, ps: seq<Payload>, ps': seq<Payload>, p: nat, settled: int, n: nat)
    requires MayAdd(ps, ps') && (FrontOpen(size, limits, ps) ==> ps' != ps)
    requires p <= |ps| && p + n <= |ps'| && !EndFrom(ps'[p..p + n], 0)
    requires CanFreeAt(size, limits, ps, p, settled) && settled + Bytes(size, ps'[p..p + n]) < limits.truncateAt
    ensures CanFreeAt(size, limits, ps', p + n, settled + Bytes(size, ps'[p..p + n]))
  {
    forall j | p <= j < p + n ensures !IsEnd(ps'[j]) { assert !IsEnd(ps'[p..p + n][j - p]); }
    BytesAt(size, ps', p, n);
    if ps' != ps { assert IsEnd(ps'[|ps|]); }
  }

  /** What is left after an eviction can free it. */
  lemma EvictingFrees(size: Sizer, limits: Limits, ps: seq<Payload>, settled: int)
    ensures CanFreeAt(size, limits, ps, 0, settled)
  {
  }

  lemma BeatFrees(size: Sizer, limits: Limits, ps: seq<Payload>, ps': seq<Payload>, p: nat, u: Up, f: Folded, n: nat,
                  calm: bool, d: string)
    requires ps != [] && p <= |ps| && AllOf(ps, d) && 1 <= limits.entries && Rounded(size, limits, ps, ps', d)
    requires CanFreeAt(size, limits, ps, p, u.settledSinceEvict) && 0 < n && p + n <= |ps'|
    requires Cycled(size, limits, ps', p, u, f, n, calm)
    ensures Ready(f.box, f.up, d) && CanFree(size, limits, f.box, f.up)
    ensures Fuel(Whole(f.box), Seen(f.box, f.up)) < Fuel(ps, p)
  {
    RoundMayAdd(size, limits, ps, ps', d);
    var q := Whole(f.box);
    assert q == f.box.recs;
    if q == ps'[p + n..] && Seen(f.box, f.up) == 0 {
      EvictingBurns(ps, ps', p, n);
      EvictingFrees(size, limits, q, f.up.settledSinceEvict);
    } else if q == [] {
      DroppingBurns(ps, p);
    } else {
      PassingBurns(ps, ps', p, n);
      PassingFrees(size, limits, ps, ps', p, u.settledSinceEvict, n);
    }
  }

  lemma FreeBeat(size: Sizer, limits: Limits, b: Box, u: Up, c: string, d: string, env: nat -> Beat, at: nat, k: nat) returns (f: Folded)
    requires Ready(b, u, d) && c != d && 1 <= limits.entries && SoundBeat(env(at)) && Whole(b) != [] && 0 < k
    requires CanFree(size, limits, b, u)
    ensures Ready(f.box, f.up, d) && CanFree(size, limits, f.box, f.up)
    ensures Fuel(Whole(f.box), Seen(f.box, f.up)) < Fuel(Whole(b), Seen(b, u))
    ensures WaitFor(size, limits, b, u, c, env, at, k) == WaitFor(size, limits, f.box, f.up, c, env, at + 1, k - 1)
  {
    var r, n;
    r, n, f := SoundTurn(size, limits, b, u, c, d, env, at, k);
    BeatFrees(size, limits, Whole(b), Whole(r), Seen(b, u), u, f, n, Calm(env(at)), d);
  }

  lemma ReadyRound(size: Sizer, limits: Limits, b: Box, u: Up, c: string, d: string, t: Beat) returns (r: Box)
    requires Ready(b, u, d) && c != d && 1 <= limits.entries && SoundBeat(t) && Whole(b) != []
    ensures RoundOn(size, limits, b, c, t.round) == Blocked(r) && Ready(r, u, d) && Seen(r, u) == Seen(b, u)
    ensures Rounded(size, limits, Whole(b), Whole(r), d)
    ensures |Whole(r)| == |Whole(b)| + if FrontOpen(size, limits, Whole(b)) then 1 else 0
  {
    SoundRound(size, limits, b, c, d, t);
    r := RoundOn(size, limits, b, c, t.round).box;
    RoundMayAdd(size, limits, Whole(b), Whole(r), d);
  }

  /** The round and the cycle of one beat. */
  lemma SoundTurn(size: Sizer, limits: Limits, b: Box, u: Up, c: string, d: string, env: nat -> Beat, at: nat, k: nat)
    returns (r: Box, n: nat, f: Folded)
    requires Ready(b, u, d) && c != d && 1 <= limits.entries && SoundBeat(env(at)) && Whole(b) != [] && 0 < k
    requires Seen(b, u) < |Whole(b)| || FrontOpen(size, limits, Whole(b))
    ensures Rounded(size, limits, Whole(b), Whole(r), d) && 0 < n && Seen(b, u) + n <= |Whole(r)|
    ensures Cycled(size, limits, Whole(r), Seen(b, u), u, f, n, Calm(env(at)))
    ensures WaitFor(size, limits, b, u, c, env, at, k) == WaitFor(size, limits, f.box, f.up, c, env, at + 1, k - 1)
  {
    r := ReadyRound(size, limits, b, u, c, d, env(at));
    n, f := SoundCycle(size, limits, r, u, d, env(at));
    OneBeat(size, limits, b, u, c, env, at, k, r, f);
  }

  /** The first round passes exactly if nothing is held. */
  lemma SoundNow(size: Sizer, limits: Limits, b: Box, u: Up, c: string, d: string, env: nat -> Beat, at: nat, k: nat)
    requires Held(b, d) && c != d && 1 <= limits.entries && SoundBeat(env(at))
    ensures Whole(b) == [] ==> WaitFor(size, limits, b, u, c, env, at, k) == Clear
    ensures Whole(b) != [] ==> WaitFor(size, limits, b, u, c, env, at, 0).StillBlocked?
  {
    SoundRound(size, limits, b, c, d, env(at));
  }

  /** The next k + 1 beats, one by one. */
  ghost predicate SoundFor(env: nat -> Beat, at: nat, k: nat, calm: bool)
    decreases k
  {
    && SoundBeat(env(at)) && (calm ==> Calm(env(at)))
    && (k > 0 ==> SoundFor(env, at + 1, k - 1, calm))
  }

  lemma {:induction false} SoundIsSoundFor(env: nat -> Beat, at: nat, k: nat, calm: bool)
    requires SoundWorld(env) && (calm ==> AlwaysCalm(env))
    ensures SoundFor(env, at, k, calm)
    decreases k
  {
    assert SoundBeat(env(at)) && (calm ==> Calm(env(at)));
    if k > 0 { SoundIsSoundFor(env, at + 1, k - 1, calm); }
  }

  /** Enough beats, and the barrier is clear. */
  lemma {:induction false} SoonClear(size: Sizer, limits: Limits, b: Box, u: Up, c: string, d: string, env: nat -> Beat, at: nat, k: nat)
    requires Ready(b, u, d) && c != d && 1 <= limits.entries && SoundFor(env, at, k, false)
    requires CanFree(size, limits, b, u) && Fuel(Whole(b), Seen(b, u)) <= k
    ensures WaitFor(size, limits, b, u, c, env, at, k) == Clear
    decreases k
  {
    if Whole(b) == [] {
      SoundNow(size, limits, b, u, c, d, env, at, k);
    } else {
      var f := FreeBeat(size, limits, b, u, c, d, env, at, k);
      SoonClear(size, limits, f.box, f.up, c, d, env, at + 1, k - 1);
    }
  }

  /** Where the barrier cannot be freed, a batch only moves the cursor. */
  lemma PassingStays(size: Sizer, limits: Limits, ps: seq<Payload>, p: nat, u: Up, f: Folded, n: nat)
    requires !CanFreeAt(size, limits, ps, p, u.settledSinceEvict) && 0 < n && p + n <= |ps|
    requires Cycled(size, limits, ps, p, u, f, n, true)
    ensures Whole(f.box) == ps && !CanFree(size, limits, f.box, f.up)
  {
    BytesAt(size, ps, p, n);
    var batch := ps[p..p + n];
    forall j | 0 <= j < n ensures !IsEnd(batch[j]) { assert !IsEnd(ps[p + j]); }
    assert Whole(f.box) == f.box.recs;
  }

  lemma IdleTurn(size: Sizer, limits: Limits, b: Box, u: Up, c: string, d: string, env: nat -> Beat, at: nat, k: nat) returns (f: Folded)
    requires Ready(b, u, d) && c != d && 1 <= limits.entries && SoundBeat(env(at)) && 0 < k
    requires Seen(b, u) == |Whole(b)| && !FrontOpen(size, limits, Whole(b))
    ensures Ready(f.box, f.up, d) && Whole(f.box) == Whole(b) && Seen(f.box, f.up) == Seen(b, u)
    ensures f.up == u
    ensures WaitFor(size, limits, b, u, c, env, at, k) == WaitFor(size, limits, f.box, f.up, c, env, at + 1, k - 1)
  {
    SoundRound(size, limits, b, c, d, env(at));
    var r := RoundOn(size, limits, b, c, env(at).round).box;
    FairRead(size, limits, r, u, env(at).io.read);
    f := CycleUp(size, limits, r, u, env(at).send, env(at).io);
  }

  lemma StaysBeat(size: Sizer, limits: Limits, b: Box, u: Up, c: string, d: string, env: nat -> Beat, at: nat, k: nat) returns (f: Folded)
    requires Ready(b, u, d) && c != d && 1 <= limits.entries && SoundBeat(env(at)) && 0 < k
    requires !CanFree(size, limits, b, u) && (Seen(b, u) == |Whole(b)| || Calm(env(at)))
    ensures Ready(f.box, f.up, d) && Whole(f.box) == Whole(b) && !CanFree(size, limits, f.box, f.up)
    ensures Seen(b, u) == |Whole(b)| ==> Seen(f.box, f.up) == Seen(b, u)
    ensures WaitFor(size, limits, b, u, c, env, at, k) == WaitFor(size, limits, f.box, f.up, c, env, at + 1, k - 1)
  {
    if Seen(b, u) < |Whole(b)| {
      var r, n;
      r, n, f := SoundTurn(size, limits, b, u, c, d, env, at, k);
      PassingStays(size, limits, Whole(b), Seen(b, u), u, f, n);
    } else {
      f := IdleTurn(size, limits, b, u, c, d, env, at, k);
    }
  }

  lemma {:induction false} NeverClear(size: Sizer, limits: Limits, b: Box, u: Up, c: string, d: string, env: nat -> Beat,
                                      at: nat, k: nat, calm: bool)
    requires Ready(b, u, d) && c != d && 1 <= limits.entries && SoundFor(env, at, k, calm)
    requires !CanFree(size, limits, b, u) && (Seen(b, u) == |Whole(b)| || calm)
    ensures WaitFor(size, limits, b, u, c, env, at, k).StillBlocked?
    decreases k
  {
    if k == 0 {
      SoundNow(size, limits, b, u, c, d, env, at, k);
    } else {
      var f := StaysBeat(size, limits, b, u, c, d, env, at, k);
      NeverClear(size, limits, f.box, f.up, c, d, env, at + 1, k - 1, calm);
    }
  }

  /** An open outbox of readable records of one command, against a manager that
      settles what it is sent and a disk without faults, a round and a cycle in
      turn. The barrier of another command passes, after at most three cycles per
      record, exactly if it adds a terminal itself, or a terminal lies in front of
      the cursor, or the bytes there reach the backstop. */
  lemma WaitEnds(size: Sizer, limits: Limits, b: Box, u: Up, c: string, d: string, env: nat -> Beat)
    requires Ready(b, u, d) && c != d && 1 <= limits.entries && SoundWorld(env)
    requires Seen(b, u) == |Whole(b)| || AlwaysCalm(env)
    ensures WaitFor(size, limits, b, u, c, env, 0, 3 * |Whole(b)|) == Clear <==> CanFree(size, limits, b, u)
    ensures !CanFree(size, limits, b, u) ==> forall k: nat :: WaitFor(size, limits, b, u, c, env, 0, k).StillBlocked?
  {
    if CanFree(size, limits, b, u) {
      SoundIsSoundFor(env, 0, 3 * |Whole(b)|, false);
      SoonClear(size, limits, b, u, c, d, env, 0, 3 * |Whole(b)|);
    } else {
      forall k: nat ensures WaitFor(size, limits, b, u, c, env, 0, k).StillBlocked? {
        SoundIsSoundFor(env, 0, k, AlwaysCalm(env));
        NeverClear(size, limits, b, u, c, d, env, 0, k, AlwaysCalm(env));
      }
    }
  }

  /** For a group whose terminal is last: exactly if the cursor has a record in
      front of it or no terminal lies within one read from the front; whatever
      cap drops and rejections come in between. */
  lemma WaitEndsWithTheCursor(size: Sizer, limits: Limits, b: Box, u: Up, c: string, d: string, env: nat -> Beat)
    requires Ready(b, u, d) && c != d && 1 <= limits.entries && SoundWorld(env) && EndsInTerminal(b)
    ensures WaitFor(size, limits, b, u, c, env, 0, 3 * |Whole(b)|) == Clear
            <==> Ahead(b, u) > 0 || FrontOpen(size, limits, Whole(b))
    ensures !(Ahead(b, u) > 0 || FrontOpen(size, limits, Whole(b))) ==>
              forall k: nat :: WaitFor(size, limits, b, u, c, env, 0, k).StillBlocked?
  {
    assert CanFree(size, limits, b, u) <==> Ahead(b, u) > 0 || FrontOpen(size, limits, Whole(b)) by {
      if Ahead(b, u) > 0 { assert IsEnd(Whole(b)[|Whole(b)| - 1]) && EndFrom(Whole(b), Seen(b, u)); }
    }
    if CanFree(size, limits, b, u) {
      SoundIsSoundFor(env, 0, 3 * |Whole(b)|, false);
      SoonClear(size, limits, b, u, c, d, env, 0, 3 * |Whole(b)|);
    } else {
      WaitEnds(size, limits, b, u, c, d, env);
    }
  }
}
