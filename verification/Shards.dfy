/** Reading the log in capped shards: what one read takes, and that reading
    from behind the last index until nothing is left partitions the log. */
module Shards {
  import opened Envelope
  import opened Outbox

  /** The whole log as records. */
  function Listing(recs: seq<Payload>, index: nat): (rs: seq<Record>)
    ensures |rs| == |recs|
    ensures forall j {:trigger rs[j]} :: 0 <= j < |recs| ==> rs[j] == RecordOf(index + j, recs[j])
  {
    seq(|recs|, j requires 0 <= j < |recs| => RecordOf(index + j, recs[j]))
  }

  function Bytes(size: Sizer, ps: seq<Payload>): nat {
    if ps == [] then 0 else PayloadSize(size, ps[0]) + Bytes(size, ps[1..])
  }

  /** A successful read takes a gapless run of the log that starts at its
      cursor. */
  lemma {:induction false} ScanTakesAPrefix(size: Sizer, recs: seq<Payload>, index: nat, room: nat, budget: int, some: bool, bad: nat)
    requires Scan(size, recs, index, room, budget, some, bad).Some?
    ensures var rs := Scan(size, recs, index, room, budget, some, bad).value;
            |rs| <= |recs| && |rs| <= room && rs == Listing(recs, index)[..|rs|]
    decreases |recs|
  {
    if room > 0 && recs != [] && !(some && budget < PayloadSize(size, recs[0])) {
      var left := budget - PayloadSize(size, recs[0]);
      if left > 0 {
        ScanTakesAPrefix(size, recs[1..], index + 1, room - 1, left, true, bad);
        var rest := Scan(size, recs[1..], index + 1, room - 1, left, true, bad).value;
        assert Listing(recs, index)[1..][..|rest|] == Listing(recs[1..], index + 1)[..|rest|];
      }
    }
  }

  /** A read takes exactly as much as the caps allow: its bytes stay within the
      cap unless it is a lone record, and it stops early only when the cap is
      spent or the next record would overrun it. */
  lemma {:induction false} ScanFillsTheCap(size: Sizer, recs: seq<Payload>, index: nat, room: nat, budget: int, some: bool, bad: nat)
    requires Scan(size, recs, index, room, budget, some, bad).Some?
    ensures var n := |Scan(size, recs, index, room, budget, some, bad).value|;
            && n <= |recs| && n <= room
            && (room > 0 && recs != [] && !some ==> n > 0)
            && (n > 1 || (some && n > 0) ==> Bytes(size, recs[..n]) <= budget)
            && (n < room && n < |recs| ==>
                  Bytes(size, recs[..n + 1]) > budget || (n > 0 && Bytes(size, recs[..n]) >= budget))
    decreases |recs|
  {
    if room > 0 && recs != [] && !(some && budget < PayloadSize(size, recs[0])) {
      var left := budget - PayloadSize(size, recs[0]);
      var n := |Scan(size, recs, index, room, budget, some, bad).value|;
      assert Bytes(size, recs[..1]) == PayloadSize(size, recs[0]) + Bytes(size, recs[..1][1..]);
      if left > 0 {
        ScanFillsTheCap(size, recs[1..], index + 1, room - 1, left, true, bad);
        assert recs[..n][1..] == recs[1..][..n - 1];
        if n < |recs| { assert recs[..n + 1][1..] == recs[1..][..n]; }
      }
    } else if room > 0 && recs != [] {
      assert Bytes(size, recs[..1]) == PayloadSize(size, recs[0]) + Bytes(size, recs[..1][1..]);
    }
  }

  /** A read fails only for an unreadable record of the log. */
  lemma {:induction false} ScanFailsOnlyAtBad(size: Sizer, recs: seq<Payload>, index: nat, room: nat, budget: int, some: bool, bad: nat)
    requires !(index <= bad < index + |recs|)
    ensures Scan(size, recs, index, room, budget, some, bad).Some?
    decreases |recs|
  {
    if room > 0 && recs != [] {
      ScanFailsOnlyAtBad(size, recs[1..], index + 1, room - 1, budget - PayloadSize(size, recs[0]), true, bad);
    }
  }

  /** And exactly if that record is one the read comes to: the first one, or one
      that finds room and bytes left. */
  lemma {:induction false} ScanFailsExactly(size: Sizer, recs: seq<Payload>, index: nat, room: nat, budget: int, some: bool, bad: nat)
    requires some ==> budget > 0
    ensures Scan(size, recs, index, room, budget, some, bad).None? <==>
              index <= bad < index + |recs| && bad - index < room
              && (bad == index || Bytes(size, recs[..bad - index]) < budget)
    decreases |recs|
  {
    if room > 0 && recs != [] && index != bad {
      var left := budget - PayloadSize(size, recs[0]);
      if index < bad < index + |recs| { BytesSplit(size, recs, bad - index - 1); }
      if left > 0 { ScanFailsExactly(size, recs[1..], index + 1, room - 1, left, true, bad); }
    }
  }

  /** The j-th record from the cursor is within the caps of one read. */
  predicate Within(size: Sizer, recs: seq<Payload>, j: nat, room: nat, budget: int, some: bool)
    requires j < |recs|
  {
    && j < room
    && ((j == 0 && !some) || ((j == 0 || Bytes(size, recs[..j]) < budget) && Bytes(size, recs[..j + 1]) <= budget))
  }

  /** A successful read takes exactly the records that are. */
  lemma {:induction false} ScanReaches(size: Sizer, recs: seq<Payload>, index: nat, room: nat, budget: int, some: bool, bad: nat, j: nat)
    requires Scan(size, recs, index, room, budget, some, bad).Some? && j < |recs|
    ensures j < |Scan(size, recs, index, room, budget, some, bad).value| <==> Within(size, recs, j, room, budget, some)
    decreases |recs|
  {
    BytesSplit(size, recs, j);
    BytesSplit(size, recs, 0);
    if room > 0 && !(some && budget < PayloadSize(size, recs[0])) && budget > PayloadSize(size, recs[0]) && j > 0 {
      var left := budget - PayloadSize(size, recs[0]);
      ScanReaches(size, recs[1..], index + 1, room - 1, left, true, bad, j - 1);
    }
  }

  /** A prefix of n + 1 records is the first and n more. */
  lemma BytesSplit(size: Sizer, recs: seq<Payload>, n: nat)
    requires n < |recs|
    ensures Bytes(size, recs[..n + 1]) == PayloadSize(size, recs[0]) + Bytes(size, recs[1..][..n])
    ensures n > 0 ==> Bytes(size, recs[..n]) == PayloadSize(size, recs[0]) + Bytes(size, recs[1..][..n - 1])
  {
    assert recs[..n + 1][1..] == recs[1..][..n];
    if n > 0 { assert recs[..n][1..] == recs[1..][..n - 1]; }
  }

  // ---------- reading to the end ----------

  function Take(size: Sizer, recs: seq<Payload>, index: nat, maxRecords: nat, maxBytes: int): (rs: seq<Record>)
    requires 1 <= index
    ensures Scan(size, recs, index, maxRecords, maxBytes, false, 0) == Some(rs)
    ensures |rs| <= |recs| && rs == Listing(recs, index)[..|rs|]
    ensures maxRecords > 0 && recs != [] ==> |rs| > 0
  {
    ScanFailsOnlyAtBad(size, recs, index, maxRecords, maxBytes, false, 0);
    ScanTakesAPrefix(size, recs, index, maxRecords, maxBytes, false, 0);
    ScanFillsTheCap(size, recs, index, maxRecords, maxBytes, false, 0);
    Scan(size, recs, index, maxRecords, maxBytes, false, 0).value
  }

  /** The shards of repeated reads, each from behind the last one's last index. */
  function Split(size: Sizer, recs: seq<Payload>, index: nat, maxRecords: nat, maxBytes: int): seq<seq<Record>>
    requires 1 <= index && 1 <= maxRecords
    decreases |recs|
  {
    if recs == [] then []
    else
      var shard := Take(size, recs, index, maxRecords, maxBytes);
      [shard] + Split(size, recs[|shard|..], index + |shard|, maxRecords, maxBytes)
  }

  function Flat<T>(ss: seq<seq<T>>): seq<T> {
    if ss == [] then [] else ss[0] + Flat(ss[1..])
  }

  /** Each shard is the next run of the log, holds at most `maxRecords` records,
      and stays within the byte cap unless it is a lone record. */
  ghost predicate WithinCaps(size: Sizer, recs: seq<Payload>, index: nat, shards: seq<seq<Record>>, maxRecords: nat, maxBytes: int)
    decreases |shards|
  {
    shards == [] ||
      var n := |shards[0]|;
      && 0 < n <= maxRecords && n <= |recs| && shards[0] == Listing(recs, index)[..n]
      && (n == 1 || Bytes(size, recs[..n]) <= maxBytes)
      && WithinCaps(size, recs[n..], index + n, shards[1..], maxRecords, maxBytes)
  }

  lemma ListingSplits(recs: seq<Payload>, index: nat, n: nat)
    requires n <= |recs|
    ensures Listing(recs, index) == Listing(recs, index)[..n] + Listing(recs[n..], index + n)
  {
  }

  lemma FlatOfMore<T>(s: seq<T>, ss: seq<seq<T>>)
    ensures Flat([s] + ss) == s + Flat(ss)
  {
    assert ([s] + ss)[1..] == ss;
  }

  lemma {:induction false} ShardsPartitionTheLog(size: Sizer, recs: seq<Payload>, index: nat, maxRecords: nat, maxBytes: int)
    requires 1 <= index && 1 <= maxRecords
    ensures Flat(Split(size, recs, index, maxRecords, maxBytes)) == Listing(recs, index)
    decreases |recs|
  {
    if recs != [] {
      var shard := Take(size, recs, index, maxRecords, maxBytes);
      var n := |shard|;
      var rest := Split(size, recs[n..], index + n, maxRecords, maxBytes);
      ShardsPartitionTheLog(size, recs[n..], index + n, maxRecords, maxBytes);
      ListingSplits(recs, index, n);
      FlatOfMore(shard, rest);
    }
  }

  lemma {:induction false} ShardsRespectTheCaps(size: Sizer, recs: seq<Payload>, index: nat, maxRecords: nat, maxBytes: int)
    requires 1 <= index && 1 <= maxRecords
    ensures WithinCaps(size, recs, index, Split(size, recs, index, maxRecords, maxBytes), maxRecords, maxBytes)
    decreases |recs|
  {
    if recs != [] {
      var n := |Take(size, recs, index, maxRecords, maxBytes)|;
      ScanFillsTheCap(size, recs, index, maxRecords, maxBytes, false, 0);
      ShardsRespectTheCaps(size, recs[n..], index + n, maxRecords, maxBytes);
      var shards := Split(size, recs, index, maxRecords, maxBytes);
      assert shards[1..] == Split(size, recs[n..], index + n, maxRecords, maxBytes);
    }
  }
}
