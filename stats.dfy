/**
 * The dashboard tallies: how many of an owner's PNRs are in each composite
 * status, counted as `allPNRs.filter(p => p.status === st).length`.
 */
module Stats {
  import opened Records

  datatype Stats = Stats(pending: nat, approved: nat, declined: nat, partially: nat)

  /** The per-agent row of the admin view adds the number of PNRs. */
  datatype AgentStats = AgentStats(total: nat, pending: nat, approved: nat, declined: nat, partially: nat)

  const NoStats := Stats(0, 0, 0, 0)

  /** `s.filter(p => p.status === st).length`. */
  function CountStatus(s: seq<Pnr>, st: Status): (n: nat)
    ensures n <= |s|
  {
    if s == [] then 0 else (if s[0].status == st then 1 else 0) + CountStatus(s[1..], st)
  }

  function Tally(s: seq<Pnr>): Stats
  {
    Stats(CountStatus(s, Pending), CountStatus(s, Approved), CountStatus(s, Declined), CountStatus(s, Partially))
  }

  function AgentTally(s: seq<Pnr>): AgentStats
  {
    AgentStats(|s|, CountStatus(s, Pending), CountStatus(s, Approved), CountStatus(s, Declined), CountStatus(s, Partially))
  }

  function Sum(t: Stats): nat
  {
    t.pending + t.approved + t.declined + t.partially
  }

  /** Every PNR falls in exactly one of the four buckets. */
  lemma {:induction false} TallyPartition(s: seq<Pnr>)
    ensures Sum(Tally(s)) == |s|
    ensures AgentTally(s).pending + AgentTally(s).approved + AgentTally(s).declined
      + AgentTally(s).partially == AgentTally(s).total
  {
    if s != [] {
      TallyPartition(s[1..]);
    }
  }

  // ---- the same counts, read off the store ----

  /** The ids of the PNRs `owner` created. */
  ghost function Owned(m: map<ObjectId, Pnr>, owner: ObjectId): set<ObjectId>
  {
    set k | k in m && m[k].createdBy == owner
  }

  /** The ids of the PNRs `owner` created that are in status `st`. */
  ghost function OwnedWith(m: map<ObjectId, Pnr>, owner: ObjectId, st: Status): set<ObjectId>
  {
    set k | k in m && m[k].createdBy == owner && m[k].status == st
  }

  ghost function OwnerStats(m: map<ObjectId, Pnr>, owner: ObjectId): Stats
  {
    Stats(|OwnedWith(m, owner, Pending)|, |OwnedWith(m, owner, Approved)|,
          |OwnedWith(m, owner, Declined)|, |OwnedWith(m, owner, Partially)|)
  }

  ghost function OwnerAgentStats(m: map<ObjectId, Pnr>, owner: ObjectId): AgentStats
  {
    AgentStats(|Owned(m, owner)|, |OwnedWith(m, owner, Pending)|, |OwnedWith(m, owner, Approved)|,
               |OwnedWith(m, owner, Declined)|, |OwnedWith(m, owner, Partially)|)
  }

  /** The four buckets of an owner add up to the number of PNRs the owner has. */
  lemma OwnerStatsPartition(m: map<ObjectId, Pnr>, owner: ObjectId)
    ensures Sum(OwnerStats(m, owner)) == |Owned(m, owner)|
  {
    var p, a, d, x := OwnedWith(m, owner, Pending), OwnedWith(m, owner, Approved),
                      OwnedWith(m, owner, Declined), OwnedWith(m, owner, Partially);
    assert p !! a && p !! d && p !! x && a !! d && a !! x && d !! x;
    var pa := p + a;
    assert |pa| == |p| + |a|;
    var pad := pa + d;
    assert pa !! d && |pad| == |pa| + |d|;
    var all := pad + x;
    assert pad !! x && |all| == |pad| + |x|;
    forall k | k in Owned(m, owner)
      ensures k in all
    {
      match m[k].status
      case Pending => assert k in p;
      case Approved => assert k in a;
      case Declined => assert k in d;
      case Partially => assert k in x;
    }
    assert Owned(m, owner) == all;
  }

  /** The agent tally's buckets add up to its total. */
  lemma OwnerAgentStatsPartition(m: map<ObjectId, Pnr>, owner: ObjectId)
    ensures var t := OwnerAgentStats(m, owner);
      t.pending + t.approved + t.declined + t.partially == t.total
  {
    OwnerStatsPartition(m, owner);
  }

  /** The ids listed in `keys` whose record is in status `st`. */
  ghost function KeysWith(m: map<ObjectId, Pnr>, keys: seq<ObjectId>, st: Status): set<ObjectId>
  {
    set k | k in keys && k in m && m[k].status == st
  }

  /** Splitting off the first id: it joins the set exactly when its record has that status. */
  lemma KeysWithCons(m: map<ObjectId, Pnr>, keys: seq<ObjectId>, st: Status)
    requires |keys| > 0 && keys[0] in m
    ensures KeysWith(m, keys, st) ==
      KeysWith(m, keys[1..], st) + (if m[keys[0]].status == st then {keys[0]} else {})
  {
    assert keys == [keys[0]] + keys[1..];
  }

  /**
   * Counting a status along a result read from distinct ids gives the number
   * of those ids whose record is in that status.
   */
  lemma {:induction false} CountByKeys(m: map<ObjectId, Pnr>, keys: seq<ObjectId>, r: seq<Pnr>, st: Status)
    requires |keys| == |r|
    requires forall i :: 0 <= i < |r| ==> keys[i] in m && r[i] == m[keys[i]]
    requires forall i, j :: 0 <= i < j < |keys| ==> keys[i] != keys[j]
    ensures CountStatus(r, st) == |KeysWith(m, keys, st)|
  {
    if r == [] {
      assert KeysWith(m, keys, st) == {};
    } else {
      var tail := keys[1..];
      CountByKeys(m, tail, r[1..], st);
      forall j | 0 <= j < |tail|
        ensures tail[j] != keys[0]
      {
        assert tail[j] == keys[j + 1];
      }
      KeysWithCons(m, keys, st);
      assert keys[0] !in KeysWith(m, tail, st);
    }
  }

  /** One bucket of an enumeration of an owner's PNRs is that owner's count in the store. */
  lemma CountOwned(m: map<ObjectId, Pnr>, owner: ObjectId, keys: seq<ObjectId>, r: seq<Pnr>, st: Status)
    requires |keys| == |r|
    requires forall i :: 0 <= i < |r| ==> keys[i] in m && r[i] == m[keys[i]]
    requires forall i, j :: 0 <= i < j < |keys| ==> keys[i] != keys[j]
    requires forall k :: k in keys <==> k in Owned(m, owner)
    ensures CountStatus(r, st) == |OwnedWith(m, owner, st)|
  {
    CountByKeys(m, keys, r, st);
    assert KeysWith(m, keys, st) == OwnedWith(m, owner, st);
  }

  /** The tallies of an enumeration of an owner's PNRs are that owner's counts in the store. */
  lemma TallyOfOwned(m: map<ObjectId, Pnr>, owner: ObjectId, keys: seq<ObjectId>, r: seq<Pnr>)
    requires |keys| == |r|
    requires forall i :: 0 <= i < |r| ==> keys[i] in m && r[i] == m[keys[i]]
    requires forall i, j :: 0 <= i < j < |keys| ==> keys[i] != keys[j]
    requires forall k :: k in keys <==> k in Owned(m, owner)
    ensures Tally(r) == OwnerStats(m, owner)
    ensures AgentTally(r) == OwnerAgentStats(m, owner)
  {
    CountOwned(m, owner, keys, r, Pending);
    CountOwned(m, owner, keys, r, Approved);
    CountOwned(m, owner, keys, r, Declined);
    CountOwned(m, owner, keys, r, Partially);
    TallyPartition(r);
    OwnerStatsPartition(m, owner);
  }
}
