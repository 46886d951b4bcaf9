/** Counting votes and acknowledgements over a peer list, and when two winning counts must share
    a member. */
module Quorum {

  predicate Distinct(ps: seq<nat>) {
    forall i, j | 0 <= i < j < |ps| :: ps[i] != ps[j]
  }

  function Elements(ps: seq<nat>): set<nat> {
    set p | p in ps
  }

  /** How many positions of `ps` hold a member of `s`. */
  function CountIn(ps: seq<nat>, s: set<nat>): (c: nat)
    ensures c <= |ps|
  {
    if ps == [] then 0
    else CountIn(ps[..|ps| - 1], s) + if ps[|ps| - 1] in s then 1 else 0
  }

  /** The number of grants a node needs, as computed from its peer list. */
  function MajorityOf(peers: seq<nat>): nat {
    (|peers| + 1) / 2 + 1
  }

  /** The number of grants a node counts: its own, then one per peer. */
  function VoteCount(id: nat, peers: seq<nat>, votes: set<nat>): nat {
    (if id in votes then 1 else 0) + CountIn(peers, votes)
  }

  predicate Wins(id: nat, peers: seq<nat>, votes: set<nat>) {
    VoteCount(id, peers, votes) >= MajorityOf(peers)
  }

  // ---------------------------------------------------------------- counting as cardinality

  lemma {:induction false} CountIsCardinality(ps: seq<nat>, s: set<nat>)
    requires Distinct(ps)
    ensures CountIn(ps, s) == |s * Elements(ps)|
    ensures |Elements(ps)| == |ps|
  {
    if ps != [] {
      var init, last := ps[..|ps| - 1], ps[|ps| - 1];
      CountIsCardinality(init, s);
      assert last !in init;
      assert Elements(ps) == Elements(init) + {last};
      if last in s {
        assert s * Elements(ps) == s * Elements(init) + {last};
      } else {
        assert s * Elements(ps) == s * Elements(init);
      }
    }
  }

  /** More members than the universe holds cannot be chosen without repetition. */
  lemma Pigeonhole(a: set<nat>, b: set<nat>, u: set<nat>) returns (x: nat)
    requires a <= u && b <= u && |a| + |b| > |u|
    ensures x in a && x in b
  {
    SubsetCard(a + b, u);
    assert |a + b| == |a| + |b| - |a * b|;
    assert a * b != {};
    x :| x in a * b;
  }

  lemma {:induction false} SubsetCard(a: set<nat>, u: set<nat>)
    requires a <= u
    ensures |a| <= |u|
  {
    assert u == a + (u - a);
    assert |u| == |a| + |u - a|;
  }

  // ---------------------------------------------------------------- peers exclude self

  /** The voters a count has seen: members of `votes` among the node and its peers. */
  function Voters(id: nat, peers: seq<nat>, votes: set<nat>): set<nat> {
    votes * (Elements(peers) + {id})
  }

  /** With the own id left out of a duplicate-free peer list, a count is the number of voters, and
      winning means holding a strict majority of the cluster. */
  lemma WinIsMajority(id: nat, peers: seq<nat>, votes: set<nat>)
    requires Distinct(peers) && id !in peers
    ensures VoteCount(id, peers, votes) == |Voters(id, peers, votes)|
    ensures |Elements(peers) + {id}| == |peers| + 1
    ensures Wins(id, peers, votes) <==> 2 * |Voters(id, peers, votes)| > |Elements(peers) + {id}|
  {
    CountIsCardinality(peers, votes);
    var seen := votes * Elements(peers);
    if id in votes {
      assert Voters(id, peers, votes) == seen + {id};
    } else {
      assert Voters(id, peers, votes) == seen;
    }
    assert |Elements(peers) + {id}| == |Elements(peers)| + 1;
  }

  /** Two winning counts in one cluster share a voter when no peer list contains its own node. */
  lemma VoteQuorumsOverlap(a: nat, peersA: seq<nat>, votesA: set<nat>, b: nat, peersB: seq<nat>, votesB: set<nat>)
    returns (x: nat)
    requires Distinct(peersA) && a !in peersA && Distinct(peersB) && b !in peersB
    requires Elements(peersA) + {a} == Elements(peersB) + {b}
    requires Wins(a, peersA, votesA) && Wins(b, peersB, votesB)
    ensures x in votesA && x in votesB && x in Elements(peersA) + {a}
  {
    WinIsMajority(a, peersA, votesA);
    WinIsMajority(b, peersB, votesB);
    x := Pigeonhole(Voters(a, peersA, votesA), Voters(b, peersB, votesB), Elements(peersA) + {a});
  }

  /** A node and the peers in `s`, counted as the commit rule counts them. */
  lemma CountedWithSelf(id: nat, peers: seq<nat>, s: set<nat>)
    requires Distinct(peers) && id !in peers && s <= Elements(peers)
    requires 1 + CountIn(peers, s) >= MajorityOf(peers)
    ensures 2 * |s + {id}| > |Elements(peers) + {id}|
  {
    CountIsCardinality(peers, s);
    assert s * Elements(peers) == s;
    assert |s + {id}| == |s| + 1;
    assert |Elements(peers) + {id}| == |peers| + 1;
  }

  // ---------------------------------------------------------------- peers include self

  /** The wiring that hands every node the list `ids` of all nodes, its own id included: do any two
      winning counts share a voter? */
  ghost predicate SelfWiredOverlap(ids: seq<nat>) {
    forall a, b, votesA: set<nat>, votesB: set<nat> |
      a in ids && b in ids && Wins(a, ids, votesA) && Wins(b, ids, votesB) ::
      votesA * votesB * Elements(ids) != {}
  }

  /** A self-wired win needs only half the cluster, because the own vote counts twice. */
  lemma SelfWiredCount(id: nat, ids: seq<nat>, votes: set<nat>)
    requires Distinct(ids) && id in ids && Wins(id, ids, votes)
    ensures 2 * |votes * Elements(ids)| >= |ids| && |Elements(ids)| == |ids|
    ensures |ids| % 2 == 1 ==> 2 * |votes * Elements(ids)| > |ids|
  {
    CountIsCardinality(ids, votes);
  }

  lemma {:induction false} CountAll(ps: seq<nat>, s: set<nat>)
    requires forall p | p in ps :: p in s
    ensures CountIn(ps, s) == |ps|
  {
    if ps != [] { CountAll(ps[..|ps| - 1], s); }
  }

  lemma {:induction false} CountSplit(a: seq<nat>, b: seq<nat>, s: set<nat>)
    ensures CountIn(a + b, s) == CountIn(a, s) + CountIn(b, s)
    decreases |b|
  {
    if b == [] {
      assert a + b == a;
    } else {
      CountSplit(a, b[..|b| - 1], s);
      assert (a + b)[..|a + b| - 1] == a + b[..|b| - 1];
    }
  }

  /** The two halves of an even self-wired cluster both win, and share nobody. */
  lemma EvenHalvesWin(ids: seq<nat>)
    requires Distinct(ids) && ids != [] && |ids| % 2 == 0
    ensures var h := |ids| / 2;
            && Wins(ids[0], ids, Elements(ids[..h])) && Wins(ids[h], ids, Elements(ids[h..]))
            && Elements(ids[..h]) * Elements(ids[h..]) == {}
  {
    var h := |ids| / 2;
    assert ids == ids[..h] + ids[h..];
    CountSplit(ids[..h], ids[h..], Elements(ids[..h]));
    CountSplit(ids[..h], ids[h..], Elements(ids[h..]));
    CountAll(ids[..h], Elements(ids[..h]));
    CountAll(ids[h..], Elements(ids[h..]));
    assert ids[0] == ids[..h][0] && ids[h] == ids[h..][0];
  }

  /** Self-wired vote quorums overlap exactly when the cluster has an odd number of nodes. */
  lemma SelfWiredOverlapIffOdd(ids: seq<nat>)
    requires Distinct(ids) && ids != []
    ensures SelfWiredOverlap(ids) <==> |ids| % 2 == 1
  {
    if |ids| % 2 == 1 {
      forall a, b, votesA: set<nat>, votesB: set<nat> |
        a in ids && b in ids && Wins(a, ids, votesA) && Wins(b, ids, votesB)
        ensures votesA * votesB * Elements(ids) != {}
      {
        SelfWiredCount(a, ids, votesA);
        SelfWiredCount(b, ids, votesB);
        var x := Pigeonhole(votesA * Elements(ids), votesB * Elements(ids), Elements(ids));
        assert x in votesA * votesB * Elements(ids);
      }
    } else {
      EvenHalvesWin(ids);
      var h := |ids| / 2;
      assert ids[0] in ids && ids[h] in ids;
    }
  }
}
