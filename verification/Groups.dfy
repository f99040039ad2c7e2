/** Command groups of the log: which commands have records but no terminal, and
    the terminal that stands in for a turn that died. */
module Groups {
  import opened Text
  import opened Envelope

  datatype Group = Group(hasTerminal: bool, lastProgress: int)

  datatype Orphan = Orphan(command: string, lastProgress: int)

  function Max(a: int, b: int): int {
    if b > a then b else a
  }

  function Absorb(groups: map<string, Group>, e: Entry): map<string, Group> {
    var g := if e.command in groups then groups[e.command] else Group(false, 0);
    groups[e.command := match e.kind
                        case Result => g.(hasTerminal := true)
                        case Progress => g.(lastProgress := Max(g.lastProgress, e.seqNo))
                        case _ => g]
  }

  /** One pass over records, leaving poison records and those of `except` out. */
  function GroupsOf(rs: seq<Record>, except: Option<string>): map<string, Group> {
    if rs == [] then map[] else AbsorbRecord(GroupsOf(rs[..|rs| - 1], except), rs[|rs| - 1], except)
  }

  function AbsorbRecord(groups: map<string, Group>, r: Record, except: Option<string>): map<string, Group> {
    match r.entry
    case None => groups
    case Some(e) => if Some(e.command) == except then groups else Absorb(groups, e)
  }

  lemma GroupsOfMore(rs: seq<Record>, r: Record, except: Option<string>)
    ensures GroupsOf(rs + [r], except) == AbsorbRecord(GroupsOf(rs, except), r, except)
  {
    assert (rs + [r])[..|rs + [r]| - 1] == rs;
  }

  // ---------- what the groups mean, as a set of entries ----------

  ghost function EntrySet(rs: seq<Record>): set<Entry> {
    set r | r in rs && r.entry.Some? :: r.entry.value
  }

  ghost predicate Holds(es: set<Entry>, command: string) {
    exists e :: e in es && e.command == command
  }

  ghost predicate HoldsKind(es: set<Entry>, command: string, kind: Kind) {
    exists e :: e in es && e.command == command && e.kind == kind
  }

  /** `n` is the largest progress seq of the command, and 0 when none is positive. */
  ghost predicate IsLastProgress(es: set<Entry>, command: string, n: int) {
    && n >= 0
    && (forall e :: e in es && e.command == command && e.kind == Progress ==> e.seqNo <= n)
    && (n > 0 ==> exists e :: e in es && e.command == command && e.kind == Progress && e.seqNo == n)
  }

  /** A command with a record and no terminal, and its progress watermark. */
  ghost predicate IsOrphan(es: set<Entry>, o: Orphan) {
    Holds(es, o.command) && !HoldsKind(es, o.command, Result) && IsLastProgress(es, o.command, o.lastProgress)
  }

  lemma {:induction false} GroupsMeaning(rs: seq<Record>, except: Option<string>, c: string)
    ensures c in GroupsOf(rs, except) <==> Holds(EntrySet(rs), c) && Some(c) != except
    ensures c in GroupsOf(rs, except) ==>
              && (GroupsOf(rs, except)[c].hasTerminal <==> HoldsKind(EntrySet(rs), c, Result))
              && IsLastProgress(EntrySet(rs), c, GroupsOf(rs, except)[c].lastProgress)
  {
    if rs != [] {
      var init, last := rs[..|rs| - 1], rs[|rs| - 1];
      assert rs == init + [last];
      GroupsMeaning(init, except, c);
      if last.entry.None? {
        assert EntrySet(rs) == EntrySet(init);
      } else {
        var e := last.entry.value;
        assert EntrySet(rs) == EntrySet(init) + {e} by {
          assert last in rs;
          assert forall r :: r in rs <==> r in init || r == last;
        }
        assert e in EntrySet(rs);
        if c in GroupsOf(rs, except) {
          var old' := GroupsOf(init, except);
          AbsorbMeaning(EntrySet(init), e, c, if c in old' then old'[c] else Group(false, 0));
        }
      }
    }
  }

  lemma AbsorbMeaning(es: set<Entry>, e: Entry, c: string, g: Group)
    requires g.hasTerminal <==> HoldsKind(es, c, Result)
    requires IsLastProgress(es, c, g.lastProgress)
    ensures HoldsKind(es + {e}, c, Result) <==> g.hasTerminal || (e.command == c && e.kind == Result)
    ensures IsLastProgress(es + {e}, c,
              if e.command == c && e.kind == Progress then Max(g.lastProgress, e.seqNo) else g.lastProgress)
  {
    assert e in es + {e};
    assert forall x :: x in es ==> x in es + {e};
  }

  // ---------- orphans in command order ----------

  predicate Ascending(os: seq<Orphan>) {
    forall i, j :: 0 <= i < j < |os| ==> Less(os[i].command, os[j].command)
  }

  function Insert(os: seq<Orphan>, o: Orphan): seq<Orphan> {
    if os == [] || Less(o.command, os[0].command) then [o] + os
    else [os[0]] + Insert(os[1..], o)
  }

  lemma {:induction false} InsertKeepsOrder(os: seq<Orphan>, o: Orphan)
    requires Ascending(os) && forall p :: p in os ==> p.command != o.command
    ensures Ascending(Insert(os, o))
    ensures forall p :: p in Insert(os, o) <==> p in os || p == o
  {
    if os == [] {
    } else if Less(o.command, os[0].command) {
      forall j | 0 <= j < |os| ensures Less(o.command, os[j].command) {
        if j > 0 { LessTransitive(o.command, os[0].command, os[j].command); }
      }
    } else {
      assert os[0] in os;
      LessTotal(o.command, os[0].command);
      var rest := os[1..];
      InsertKeepsOrder(rest, o);
      var t := Insert(rest, o);
      forall j | 0 <= j < |t| ensures Less(os[0].command, t[j].command) {
        assert t[j] in t;
        if t[j] != o {
          var k :| 0 <= k < |rest| && rest[k] == t[j];
        }
      }
      assert os == [os[0]] + rest;
    }
  }

  /** `os` lists, by command, exactly the groups without a terminal. */
  ghost predicate ListsOrphans(os: seq<Orphan>, groups: map<string, Group>) {
    && Ascending(os)
    && forall o :: o in os <==>
         o.command in groups && !groups[o.command].hasTerminal && o.lastProgress == groups[o.command].lastProgress
  }

  method CollectOrphans(groups: map<string, Group>) returns (os: seq<Orphan>)
    ensures ListsOrphans(os, groups)
  {
    os := [];
    var left := groups;
    while left != map[]
      invariant left.Keys <= groups.Keys && forall c :: c in left ==> left[c] == groups[c]
      invariant Ascending(os)
      invariant forall o :: o in os <==>
        o.command in groups && o.command !in left &&
        !groups[o.command].hasTerminal && o.lastProgress == groups[o.command].lastProgress
      decreases |left|
    {
      var id :| id in left;
      var g := left[id];
      if !g.hasTerminal {
        InsertKeepsOrder(os, Orphan(id, g.lastProgress));
        os := Insert(os, Orphan(id, g.lastProgress));
      }
      ghost var before := left;
      left := map c | c in left && c != id :: left[c];
      assert left.Keys == before.Keys - {id};
      assert |left| == |left.Keys| && |before| == |before.Keys|;
    }
  }

  lemma {:induction false} OrphanListUnique(os: seq<Orphan>, ps: seq<Orphan>)
    requires Ascending(os) && Ascending(ps) && forall o :: o in os <==> o in ps
    ensures os == ps
  {
    assert |ps| > 0 ==> ps[0] in ps;
    if os != [] {
      assert os[0] in os;
      var k :| 0 <= k < |ps| && ps[k] == os[0];
      assert ps[0] in ps;
      var m :| 0 <= m < |os| && os[m] == ps[0];
      if k > 0 && m > 0 {
        assert Less(ps[0].command, os[0].command) && Less(os[0].command, ps[0].command);
        LessTotal(ps[0].command, os[0].command);
      }
      assert os[0] == ps[0];
      forall o ensures o in os[1..] <==> o in ps[1..] {
        LessTotal(os[0].command, os[0].command);
        assert os[0] !in os[1..] && os[0] !in ps[1..];
        assert o in os <==> o == os[0] || o in os[1..];
        assert o in ps <==> o == ps[0] || o in ps[1..];
      }
      OrphanListUnique(os[1..], ps[1..]);
    }
  }

  /** The listed orphans are exactly the commands without a terminal. */
  lemma ListedOrphans(os: seq<Orphan>, rs: seq<Record>, except: Option<string>, o: Orphan)
    requires ListsOrphans(os, GroupsOf(rs, except))
    ensures o in os <==> IsOrphan(EntrySet(rs), o) && Some(o.command) != except
  {
    GroupsMeaning(rs, except, o.command);
    if IsOrphan(EntrySet(rs), o) && Some(o.command) != except {
      LastProgressUnique(EntrySet(rs), o.command, o.lastProgress, GroupsOf(rs, except)[o.command].lastProgress);
    }
  }

  /** A record of another command blocks the barrier. */
  ghost predicate BlockedFor(rs: seq<Record>, command: string) {
    exists c :: Holds(EntrySet(rs), c) && c != command
  }

  lemma {:induction false} OrphanListExists(groups: map<string, Group>)
    ensures exists os :: ListsOrphans(os, groups)
    decreases |groups|
  {
    if groups == map[] {
      assert ListsOrphans([], groups);
    } else {
      var id :| id in groups;
      var rest := map c | c in groups && c != id :: groups[c];
      assert rest.Keys == groups.Keys - {id} && |rest| == |rest.Keys| && |groups| == |groups.Keys|;
      OrphanListExists(rest);
      var os :| ListsOrphans(os, rest);
      var o := Orphan(id, groups[id].lastProgress);
      if groups[id].hasTerminal {
        assert ListsOrphans(os, groups);
      } else {
        InsertKeepsOrder(os, o);
        assert ListsOrphans(Insert(os, o), groups);
      }
    }
  }

  /** The orphans that a scan of these records lists. */
  ghost function Orphans(rs: seq<Record>, except: Option<string>): (os: seq<Orphan>)
    ensures ListsOrphans(os, GroupsOf(rs, except))
  {
    OrphanListExists(GroupsOf(rs, except));
    var os :| ListsOrphans(os, GroupsOf(rs, except));
    os
  }

  lemma OrphansAreThese(os: seq<Orphan>, rs: seq<Record>, except: Option<string>)
    requires ListsOrphans(os, GroupsOf(rs, except))
    ensures Orphans(rs, except) == os
  {
    OrphanListUnique(os, Orphans(rs, except));
  }

  lemma LastProgressUnique(es: set<Entry>, c: string, m: int, n: int)
    requires IsLastProgress(es, c, m) && IsLastProgress(es, c, n)
    ensures m == n
  {
  }

  // ---------- the synthetic terminal ----------

  function SyntheticTerminal(o: Orphan, message: string): Entry {
    Entry(o.command, Result, 1, ResultBody(-1, o.lastProgress, message))
  }

  /** The terminal of a turn that died, by its fields: a failure that covers
      exactly the progress its group holds. */
  predicate IsSynthetic(e: Entry, command: string, lastProgress: int, message: string) {
    && e.command == command && e.kind == Result && e.seqNo == 1
    && e.body.ResultBody? && e.body.exitCode == -1 && e.body.lastSeqNo == lastProgress && e.body.message == message
  }

  function Terminals(os: seq<Orphan>, message: string): (es: seq<Entry>)
    ensures |es| == |os| && forall i :: 0 <= i < |os| ==> es[i] == SyntheticTerminal(os[i], message)
  {
    seq(|os|, i requires 0 <= i < |os| => SyntheticTerminal(os[i], message))
  }

  /** `after` is `before` and one synthetic terminal for each of its orphans. */
  ghost predicate Terminated(before: set<Entry>, after: set<Entry>, message: string) {
    forall e :: e in after <==> e in before || exists o :: IsOrphan(before, o) && IsSynthetic(e, o.command, o.lastProgress, message)
  }

  /** Adding the terminals leaves no command without one. Each of them is its
      command's only one, says that the turn failed and why, and has exactly its
      group's largest progress seq for a watermark. */
  lemma SynthesisIsComplete(before: set<Entry>, after: set<Entry>, message: string)
    requires Terminated(before, after, message)
    ensures forall c :: Holds(after, c) ==> HoldsKind(after, c, Result)
    ensures forall t :: t in after - before ==>
              && t.kind == Result && t.seqNo == 1 && t.body.ResultBody? && t.body.exitCode == -1 && t.body.message == message
              && IsLastProgress(after, t.command, t.body.lastSeqNo)
    ensures forall t, e :: t in after - before && e in after && e.command == t.command && e.kind == Result ==> e == t
  {
    forall c | Holds(after, c) ensures HoldsKind(after, c, Result) {
      var e :| e in after && e.command == c;
      if e in before && !HoldsKind(before, c, Result) {
        var n := LastProgressExists(before, c);
        var o := Orphan(c, n);
        assert IsOrphan(before, o);
        assert IsSynthetic(SyntheticTerminal(o, message), c, n, message);
        assert SyntheticTerminal(o, message) in after;
      }
    }
    forall t | t in after - before
      ensures t.kind == Result && t.seqNo == 1 && t.body.ResultBody? && t.body.exitCode == -1 && t.body.message == message
              && IsLastProgress(after, t.command, t.body.lastSeqNo)
    {
      var o :| IsOrphan(before, o) && IsSynthetic(t, o.command, o.lastProgress, message);
      AddedCoversAll(before, after, message, o);
    }
    forall t, e | t in after - before && e in after && e.command == t.command && e.kind == Result ensures e == t {
      var p :| IsOrphan(before, p) && IsSynthetic(t, p.command, p.lastProgress, message);
      if e !in before {
        var o :| IsOrphan(before, o) && IsSynthetic(e, o.command, o.lastProgress, message);
        LastProgressUnique(before, p.command, o.lastProgress, p.lastProgress);
      }
    }
  }

  /** The added terminals leave every group's progress as it was. */
  lemma AddedCoversAll(before: set<Entry>, after: set<Entry>, message: string, o: Orphan)
    requires Terminated(before, after, message) && IsOrphan(before, o)
    ensures IsLastProgress(after, o.command, o.lastProgress)
  {
    assert forall e :: e in before ==> e in after;
  }

  lemma LastProgressExists(es: set<Entry>, c: string) returns (n: int)
    ensures IsLastProgress(es, c, n)
    decreases |es|
  {
    if es == {} { return 0; }
    var e :| e in es;
    n := LastProgressExists(es - {e}, c);
    assert es == (es - {e}) + {e};
    AbsorbMeaning(es - {e}, e, c, Group(HoldsKind(es - {e}, c, Result), n));
    if e.command == c && e.kind == Progress { n := Max(n, e.seqNo); }
  }

  /** A second synthesis finds nothing to add. */
  lemma SynthesisIsIdempotent(before: set<Entry>, after: set<Entry>, again: set<Entry>, message: string, message': string)
    requires Terminated(before, after, message) && Terminated(after, again, message')
    ensures again == after
  {
    SynthesisIsComplete(before, after, message);
  }
}
