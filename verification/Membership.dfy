/** Cluster configurations: sorted lists of peer ids changed one peer at a time. */
module Membership {
  import opened Quorum
  import opened Sorting

  /** A configuration is never changed in place; every operation builds a new one. */
  datatype Config = Config(peers: seq<nat>)

  function QuorumSize(c: Config): nat {
    |c.peers| / 2 + 1
  }

  predicate IsMajority(c: Config, count: nat) {
    count >= QuorumSize(c)
  }

  /** Ascending and without repetition. */
  ghost predicate Normal(c: Config) {
    Ascending(c.peers) && Distinct(c.peers)
  }

  /** A set of members large enough to decide. */
  ghost predicate Majority(c: Config, s: set<nat>) {
    s <= Elements(c.peers) && IsMajority(c, |s|)
  }

  // ---------------------------------------------------------------- operations

  method NewConfig(peers: seq<nat>) returns (c: Config)
    ensures Ascending(c.peers) && multiset(c.peers) == multiset(peers)
  {
    SortSorts(peers);
    c := Config(Sort(peers));
  }

  method Contains(c: Config, id: nat) returns (found: bool)
    ensures found <==> id in c.peers
  {
    var i := 0;
    while i < |c.peers|
      invariant i <= |c.peers| && id !in c.peers[..i]
    {
      if c.peers[i] == id { return true; }
      i := i + 1;
    }
    return false;
  }

  /** The peers other than `id`, in their old order. */
  function Without(ps: seq<nat>, id: nat): (r: seq<nat>)
    ensures forall x :: multiset(r)[x] == if x == id then 0 else multiset(ps)[x]
  {
    if ps == [] then []
    else
      assert ps == ps[..|ps| - 1] + [ps[|ps| - 1]];
      Without(ps[..|ps| - 1], id) + if ps[|ps| - 1] == id then [] else [ps[|ps| - 1]]
  }

  method OtherPeers(c: Config, id: nat) returns (out: seq<nat>)
    ensures out == Without(c.peers, id)
  {
    out := [];
    var i := 0;
    while i < |c.peers|
      invariant i <= |c.peers| && out == Without(c.peers[..i], id)
    {
      assert c.peers[..i + 1][..i] == c.peers[..i];
      if c.peers[i] != id { out := out + [c.peers[i]]; }
      i := i + 1;
    }
    assert c.peers[..i] == c.peers;
  }

  /** `r` is `c` with `id` added: `c` itself if it was there already. */
  ghost predicate Adds(c: Config, id: nat, r: Config) {
    if id in c.peers then r == c
    else Ascending(r.peers) && multiset(r.peers) == multiset(c.peers) + multiset{id}
  }

  /** `r` is `c` without any occurrence of `id`. */
  ghost predicate Removes(c: Config, id: nat, r: Config) {
    Ascending(r.peers) && forall x :: multiset(r.peers)[x] == if x == id then 0 else multiset(c.peers)[x]
  }

  method AddPeer(c: Config, id: nat) returns (r: Config)
    ensures Adds(c, id, r)
  {
    var present := Contains(c, id);
    if present { return c; }
    r := NewConfig(c.peers + [id]);
  }

  method RemovePeer(c: Config, id: nat) returns (r: Config)
    ensures Removes(c, id, r)
  {
    var kept := OtherPeers(c, id);
    r := NewConfig(kept);
  }

  // ---------------------------------------------------------------- what every change keeps

  lemma {:induction false} DistinctIsSingle(s: seq<nat>)
    ensures Distinct(s) <==> forall x :: multiset(s)[x] <= 1
  {
    if s != [] {
      var init, last := s[..|s| - 1], s[|s| - 1];
      assert s == init + [last];
      DistinctIsSingle(init);
      if Distinct(s) {
        assert last !in init;
      } else if !Distinct(init) {
        var x :| multiset(init)[x] > 1;
        assert multiset(s)[x] > 1;
      } else {
        var i, j :| 0 <= i < j < |s| && s[i] == s[j];
        assert init[i] == last && multiset(s)[last] > 1;
      }
    }
  }

  /** Adding and removing a peer keep a configuration free of repetition, and sorted if it was, and
      change its membership by that peer alone. */
  lemma ChangeKeepsDistinct(c: Config, id: nat, r: Config)
    requires Distinct(c.peers) && (Adds(c, id, r) || Removes(c, id, r))
    ensures Distinct(r.peers) && (Normal(c) ==> Normal(r))
    ensures Adds(c, id, r) ==> Elements(r.peers) == Elements(c.peers) + {id}
    ensures Removes(c, id, r) ==> Elements(r.peers) == Elements(c.peers) - {id}
  {
    hide Distinct, Ascending;
    DistinctIsSingle(c.peers);
    DistinctIsSingle(r.peers);
    MemberIsCounted(c.peers);
    MemberIsCounted(r.peers);
  }

  lemma MemberIsCounted(s: seq<nat>)
    ensures forall x :: x in Elements(s) <==> multiset(s)[x] > 0
    ensures forall x :: x in s <==> multiset(s)[x] > 0
  {
  }

  /** Adding an absent peer and removing it again restores a sorted configuration. */
  lemma AddThenRemove(c: Config, id: nat, a: Config, r: Config)
    requires Normal(c) && id !in c.peers && Adds(c, id, a) && Removes(a, id, r)
    ensures r == c
  {
    assert multiset(r.peers) == multiset(c.peers);
    AscendingIsUnique(r.peers, c.peers);
  }

  lemma LastIsGreatest(s: seq<nat>, x: nat)
    requires Ascending(s) && x in multiset(s)
    ensures s != [] && x <= s[|s| - 1]
  {
    var i :| 0 <= i < |s| && s[i] == x;
  }

  lemma DropLast(s: seq<nat>)
    requires Ascending(s) && s != []
    ensures Ascending(s[..|s| - 1]) && multiset(s[..|s| - 1]) == multiset(s) - multiset{s[|s| - 1]}
    ensures s == s[..|s| - 1] + [s[|s| - 1]]
  {
    assert s == s[..|s| - 1] + [s[|s| - 1]];
  }

  lemma {:induction false} AscendingIsUnique(a: seq<nat>, b: seq<nat>)
    requires Ascending(a) && Ascending(b) && multiset(a) == multiset(b)
    ensures a == b
  {
    hide Ascending;
    assert |a| == |multiset(a)| == |multiset(b)| == |b|;
    if a != [] {
      LastIsGreatest(b, a[|a| - 1]);
      LastIsGreatest(a, b[|b| - 1]);
      DropLast(a);
      DropLast(b);
      AscendingIsUnique(a[..|a| - 1], b[..|b| - 1]);
    }
  }

  // ---------------------------------------------------------------- overlap

  /** Majorities of two configurations that differ by at most one peer share a member. */
  lemma NeighboursOverlap(c: Config, d: Config, id: nat, s: set<nat>, t: set<nat>) returns (x: nat)
    requires Distinct(c.peers) && Distinct(d.peers)
    requires Elements(c.peers) <= Elements(d.peers) <= Elements(c.peers) + {id}
    requires Majority(c, s) && Majority(d, t)
    ensures x in s && x in t
  {
    CountIsCardinality(c.peers, {});
    CountIsCardinality(d.peers, {});
    var u := Elements(d.peers);
    if id in u && id !in c.peers {
      assert u == Elements(c.peers) + {id};
    } else {
      assert u == Elements(c.peers);
    }
    x := Pigeonhole(s, t, u);
  }

  /** Any majority before a one-peer change shares a member with any majority after it. */
  lemma OnePeerChangeOverlaps(c: Config, id: nat, r: Config, s: set<nat>, t: set<nat>) returns (x: nat)
    requires Distinct(c.peers) && (Adds(c, id, r) || Removes(c, id, r))
    requires Majority(c, s) && Majority(r, t)
    ensures x in s && x in t
  {
    ChangeKeepsDistinct(c, id, r);
    if Adds(c, id, r) {
      x := NeighboursOverlap(c, r, id, s, t);
    } else {
      x := NeighboursOverlap(r, c, id, t, s);
    }
  }

  // ---------------------------------------------------------------- wiring nodes from a configuration

  /** Handing a member of a configuration the other members as its peers wires it properly. */
  lemma OtherPeersWire(c: Config, id: nat)
    requires Distinct(c.peers) && id in c.peers
    ensures var ps := Without(c.peers, id);
            Distinct(ps) && id !in ps && Elements(ps) + {id} == Elements(c.peers)
  {
    hide Distinct, Elements, Without;
    var ps := Without(c.peers, id);
    DistinctIsSingle(c.peers);
    DistinctIsSingle(ps);
    MemberIsCounted(ps);
    MemberIsCounted(c.peers);
    forall x ensures x in Elements(ps) + {id} <==> x in Elements(c.peers) {
      assert multiset(ps)[x] == if x == id then 0 else multiset(c.peers)[x];
    }
  }

  /** A member wired that way wins an election exactly with a majority of the configuration. */
  lemma WinsIffMajority(c: Config, id: nat, votes: set<nat>)
    requires Distinct(c.peers) && id in c.peers
    ensures Wins(id, Without(c.peers, id), votes) <==> Majority(c, votes * Elements(c.peers))
  {
    hide Distinct, Without, Elements;
    OtherPeersWire(c, id);
    CountIsCardinality(c.peers, {});
    WinIsMajority(id, Without(c.peers, id), votes);
  }

  /** Two election wins on the two sides of a one-peer change share a voter. */
  lemma ElectionsOverlapAcrossChange(c: Config, id: nat, r: Config, a: nat, votesA: set<nat>, b: nat, votesB: set<nat>)
    returns (x: nat)
    requires Distinct(c.peers) && (Adds(c, id, r) || Removes(c, id, r))
    requires a in c.peers && Wins(a, Without(c.peers, a), votesA)
    requires b in r.peers && Wins(b, Without(r.peers, b), votesB)
    ensures x in votesA && x in votesB
  {
    ChangeKeepsDistinct(c, id, r);
    hide Wins, Distinct, Without, Adds, Removes;
    WinsIffMajority(c, a, votesA);
    WinsIffMajority(r, b, votesB);
    x := OnePeerChangeOverlaps(c, id, r, votesA * Elements(c.peers), votesB * Elements(r.peers));
  }
}
