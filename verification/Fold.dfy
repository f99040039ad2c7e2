/** What a reply settles, and how an uploader folds it: the settled boundary,
    the eviction policy and the cursor. */
module Fold {
  import opened Envelope
  import opened Outbox

  /** The uploader's tuning: the shard caps and the settled-prefix backstop. */
  datatype Limits = Limits(entries: nat, bytes: int, truncateAt: int)

  const PRODUCTION := Limits(4096, 4 * 1024 * 1024, 64 * 1024 * 1024)

  /** The uploader's fields: the cursor, and the settled bytes not yet evicted. */
  datatype Up = Up(readFrom: nat, settledSinceEvict: int)

  // ---------- what a reply says ----------

  ghost predicate RejectsTerminal(resp: Response, command: string) {
    exists j :: 0 <= j < |resp.rejected| && resp.rejected[j].kind == Result && resp.rejected[j].command == command
  }

  ghost predicate RejectsEntry(resp: Response, e: Entry) {
    exists j :: 0 <= j < |resp.rejected| && Names(resp.rejected[j], e)
  }

  predicate Names(j: Rejection, e: Entry) {
    j.command == e.command && j.kind == e.kind && j.seqNo == e.seqNo
  }

  ghost predicate RejectsSomeTerminal(resp: Response) {
    exists j :: 0 <= j < |resp.rejected| && resp.rejected[j].kind == Result
  }

  /** The ack that counts for a command: the last one the reply lists. */
  function LastAck(acks: seq<Ack>, command: string): Option<Ack> {
    if acks == [] then None
    else if acks[|acks| - 1].command == command then Some(acks[|acks| - 1])
    else LastAck(acks[..|acks| - 1], command)
  }

  predicate Covers(a: Ack, e: Entry) {
    match e.kind
    case Progress => e.seqNo <= a.lastProgress
    case Event => e.seqNo <= a.lastEvent
    case Result => a.resultAcked
    case Unspecified => false
  }

  predicate Acked(resp: Response, e: Entry) {
    var a := LastAck(resp.acks, e.command);
    a.Some? && Covers(a.value, e)
  }

  /** The j-th ack is the one that stands for the command: none behind it is. */
  ghost predicate Stands(acks: seq<Ack>, command: string, j: nat) {
    j < |acks| && acks[j].command == command && forall k :: j < k < |acks| ==> acks[k].command != command
  }

  /** The command's standing ack has its watermark for the entry's kind at or
      over the entry. */
  ghost predicate UnderWatermark(acks: seq<Ack>, e: Entry) {
    exists j: nat ::
      && Stands(acks, e.command, j)
      && (|| (e.kind == Progress && e.seqNo <= acks[j].lastProgress)
          || (e.kind == Event && e.seqNo <= acks[j].lastEvent)
          || (e.kind == Result && acks[j].resultAcked))
  }

  lemma {:induction false} LastAckStands(acks: seq<Ack>, command: string) returns (j: nat)
    ensures LastAck(acks, command).Some? ==> Stands(acks, command, j) && LastAck(acks, command) == Some(acks[j])
    ensures LastAck(acks, command).None? ==> forall k :: 0 <= k < |acks| ==> acks[k].command != command
  {
    j := 0;
    if acks != [] {
      var n := |acks| - 1;
      if acks[n].command == command {
        j := n;
      } else {
        j := LastAckStands(acks[..n], command);
        assert forall k :: 0 <= k < n ==> acks[..n][k] == acks[k];
      }
    }
  }

  /** An entry is acked exactly if it is under its watermark. */
  lemma AckedIsUnderWatermark(resp: Response, e: Entry)
    ensures Acked(resp, e) <==> UnderWatermark(resp.acks, e)
  {
    var j := LastAckStands(resp.acks, e.command);
    if k: nat :| Stands(resp.acks, e.command, k) {
      assert k == j;
    }
  }

  /** What a reply settles, told from its two lists: poison; every entry of a
      command whose terminal it rejects; an entry it rejects by command, kind and
      seq; and an entry under the watermark of its kind. */
  lemma SettledIsWhatTheReplySays(resp: Response, r: Record)
    ensures Settles(resp, r) <==>
              || r.entry.None?
              || (exists j :: 0 <= j < |resp.rejected| && resp.rejected[j].command == r.entry.value.command
                    && (resp.rejected[j].kind == Result
                        || (resp.rejected[j].kind == r.entry.value.kind && resp.rejected[j].seqNo == r.entry.value.seqNo)))
              || UnderWatermark(resp.acks, r.entry.value)
  {
    if r.entry.Some? { AckedIsUnderWatermark(resp, r.entry.value); }
  }

  ghost predicate SettlesEntry(resp: Response, e: Entry) {
    RejectsTerminal(resp, e.command) || RejectsEntry(resp, e) || Acked(resp, e)
  }

  /** A reply settles a record that is poison, belongs to a command whose
      terminal it rejects, is rejected by name, or is under a watermark. */
  ghost predicate Settles(resp: Response, r: Record) {
    r.entry.None? || SettlesEntry(resp, r.entry.value)
  }

  /** How many leading records of the batch the reply settles. */
  ghost function SettledCount(rs: seq<Record>, resp: Response): (n: nat)
    ensures n <= |rs|
    ensures forall i :: 0 <= i < n ==> Settles(resp, rs[i])
    ensures n < |rs| ==> !Settles(resp, rs[n])
  {
    if rs == [] || !Settles(resp, rs[0]) then 0 else 1 + SettledCount(rs[1..], resp)
  }

  // ---------- the lookup tables the code builds ----------

  function RecordSettled(r: Record, acks: map<string, Ack>, rejected: map<string, string>, terminalRejected: set<string>): bool {
    match r.entry
    case None => true
    case Some(e) =>
      if e.command in terminalRejected then true
      else if RejectionKey(e.command, e.kind, e.seqNo) in rejected then true
      else if e.command !in acks then false
      else Covers(acks[e.command], e)
  }

  ghost predicate AckTable(acks: map<string, Ack>, list: seq<Ack>) {
    forall c :: (c in acks <==> LastAck(list, c).Some?) && (c in acks ==> LastAck(list, c) == Some(acks[c]))
  }

  ghost predicate RejectedTable(rejected: map<string, string>, list: seq<Rejection>) {
    forall key :: key in rejected <==>
      exists j :: 0 <= j < |list| && RejectionKey(list[j].command, list[j].kind, list[j].seqNo) == key
  }

  ghost predicate TerminalTable(terminals: set<string>, list: seq<Rejection>) {
    forall c :: c in terminals <==> exists j :: 0 <= j < |list| && list[j].kind == Result && list[j].command == c
  }

  /** Looking a record up in the tables answers what the reply itself says; the
      text key of a rejection never confuses two entries. */
  lemma TablesDecideSettlement(r: Record, resp: Response, acks: map<string, Ack>, rejected: map<string, string>, terminals: set<string>)
    requires AckTable(acks, resp.acks) && RejectedTable(rejected, resp.rejected) && TerminalTable(terminals, resp.rejected)
    ensures RecordSettled(r, acks, rejected, terminals) <==> Settles(resp, r)
  {
    if r.entry.Some? {
      var e := r.entry.value;
      forall j | 0 <= j < |resp.rejected|
        ensures var q := resp.rejected[j];
                RejectionKey(q.command, q.kind, q.seqNo) == RejectionKey(e.command, e.kind, e.seqNo) <==> Names(q, e)
      {
        RejectionKeyInjective(resp.rejected[j].command, resp.rejected[j].kind, resp.rejected[j].seqNo, e.command, e.kind, e.seqNo);
      }
    }
  }

  // ---------- the fold as a value ----------

  function SettledBytes(size: Sizer, rs: seq<Record>): nat {
    if rs == [] then 0
    else SettledBytes(size, rs[..|rs| - 1]) +
         match rs[|rs| - 1].entry case None => 0 case Some(e) => size(e)
  }

  predicate IsTerminal(r: Record) {
    r.entry.Some? && r.entry.value.kind == Result
  }

  ghost predicate HasTerminal(rs: seq<Record>) {
    exists i :: 0 <= i < |rs| && IsTerminal(rs[i])
  }

  datatype Folded = Folded(box: Box, up: Up)

  /** A settled or a rejected terminal makes the fold evict at once. */
  ghost predicate DueByTerminal(settled: seq<Record>, resp: Response) {
    HasTerminal(settled) || RejectsSomeTerminal(resp)
  }

  /** The accumulator after the fold's test: only the byte backstop's own test
      adds to it. */
  ghost function Accumulated(size: Sizer, u: Up, settled: seq<Record>, resp: Response): int {
    if DueByTerminal(settled, resp) then u.settledSinceEvict
    else u.settledSinceEvict + SettledBytes(size, settled)
  }

  ghost predicate Due(size: Sizer, limits: Limits, u: Up, settled: seq<Record>, resp: Response) {
    DueByTerminal(settled, resp) || Accumulated(size, u, settled, resp) >= limits.truncateAt
  }

  ghost function FoldUp(size: Sizer, limits: Limits, b: Box, u: Up, rs: seq<Record>, resp: Response, io: TruncateWeather): Folded {
    var n := SettledCount(rs, resp);
    var boundary := if n == 0 then 0 else rs[n - 1].index;
    if boundary == 0 then Folded(b, u)
    else
      var u' := Up(if boundary + 1 > u.readFrom then boundary + 1 else u.readFrom,
                   Accumulated(size, u, rs[..n], resp));
      if Due(size, limits, u, rs[..n], resp) then
        var ev := EvictBox(b, boundary, io);
        Folded(ev.box, if ev.ok then u'.(settledSinceEvict := 0) else u')
      else
        Folded(b, u')
  }

  // ---------- one upload cycle as a value ----------

  function Entries(rs: seq<Record>): seq<Entry> {
    if rs == [] then []
    else Entries(rs[..|rs| - 1]) + match rs[|rs| - 1].entry case None => [] case Some(e) => [e]
  }

  function Readable(rs: seq<Record>): nat {
    if rs == [] then 0 else Readable(rs[..|rs| - 1]) + if rs[|rs| - 1].entry.Some? then 1 else 0
  }

  /** The request holds the readable records of the batch, each once, in batch
      order: the entry of a readable record stands where as many stand before it
      in the request as in the batch. */
  lemma {:induction false} RequestIsTheReadableBatch(rs: seq<Record>)
    ensures |Entries(rs)| == Readable(rs)
    ensures forall k :: 0 <= k < |rs| && rs[k].entry.Some? ==>
              Readable(rs[..k]) < |Entries(rs)| && Entries(rs)[Readable(rs[..k])] == rs[k].entry.value
  {
    if rs != [] {
      var n := |rs| - 1;
      RequestIsTheReadableBatch(rs[..n]);
      forall k | 0 <= k < |rs| && rs[k].entry.Some?
        ensures Readable(rs[..k]) < |Entries(rs)| && Entries(rs)[Readable(rs[..k])] == rs[k].entry.value
      {
        if k < n { assert rs[..n][..k] == rs[..k] && rs[..n][k] == rs[k]; }
      }
    }
  }

  /** The transport: a reply to a request, or None for a failed call. */
  type Transport = seq<Entry> -> Option<Response>

  datatype CycleWeather = CycleWeather(read: ReadWeather, evict: TruncateWeather, over: bool, cap: TruncateWeather)

  ghost function CycleUp(size: Sizer, limits: Limits, b: Box, u: Up, send: Transport, io: CycleWeather): Folded
    requires 1 <= b.first
  {
    var r := ReadBox(size, b, limits.entries, limits.bytes, u.readFrom, io.read);
    if r.records.None? || r.records.value == [] then Folded(r.box, u)
    else
      var reply := send(Entries(r.records.value));
      if reply.None? then Folded(r.box, u)
      else
        var f := FoldUp(size, limits, r.box, u, r.records.value, reply.value, io.evict);
        Folded(CapBox(f.box, io.over, io.cap), f.up)
  }
}
