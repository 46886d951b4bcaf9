/** Replication progress per peer and the quorum index, against the counting rule the commit scan uses. */
module PeerTracker {
  import opened RaftLog
  import opened Quorum
  import opened Sorting
  import opened NodeModel
  import opened NetworkModel
  import opened History
  import opened Election
  import opened LogMatching

  datatype PeerState = PeerState(nextIndex: nat, matchIndex: nat)

  /** The peers of `ps` whose match index has reached `x`. */
  function Reached(ps: map<nat, PeerState>, x: nat): set<nat> {
    set p | p in ps && ps[p].matchIndex >= x
  }

  /** `q` is the greatest index that a majority of the peers and the leader has reached. */
  ghost predicate IsQuorumMatch(ps: map<nat, PeerState>, leaderMatch: nat, q: nat) {
    forall x: nat {:trigger Reached(ps, x)} ::
      x <= q <==> |Reached(ps, x)| + (if leaderMatch >= x then 1 else 0) >= (|ps| + 1) / 2 + 1
  }

  /** There is only one such index. */
  lemma QuorumMatchIsUnique(ps: map<nat, PeerState>, leaderMatch: nat, q: nat, q': nat)
    requires IsQuorumMatch(ps, leaderMatch, q) && IsQuorumMatch(ps, leaderMatch, q')
    ensures q == q'
  {
    assert Reached(ps, q) == Reached(ps, q) && Reached(ps, q') == Reached(ps, q');
  }

  class Tracker {
    var peers: map<nat, PeerState>

    constructor (ids: seq<nat>, lastIndex: nat)
      ensures peers.Keys == Elements(ids)
      ensures forall p | p in peers :: peers[p] == PeerState(lastIndex + 1, 0)
    {
      var ps: map<nat, PeerState> := map[];
      var i := 0;
      while i < |ids|
        invariant i <= |ids|
        invariant ps.Keys == Elements(ids[..i])
        invariant forall p | p in ps :: ps[p] == PeerState(lastIndex + 1, 0)
      {
        ps := ps[ids[i] := PeerState(lastIndex + 1, 0)];
        assert ids[..i + 1] == ids[..i] + [ids[i]];
        i := i + 1;
      }
      assert ids[..|ids|] == ids;
      peers := ps;
    }

    /** A match index always moves, a next index only forward. */
    method UpdateMatch(id: nat, matchIndex: nat)
      modifies this
      ensures peers.Keys == old(peers).Keys
      ensures forall p | p in peers && p != id :: peers[p] == old(peers)[p]
      ensures id in peers ==>
                && peers[id].matchIndex == matchIndex
                && peers[id].nextIndex >= old(peers)[id].nextIndex && peers[id].nextIndex >= matchIndex + 1
                && (peers[id].nextIndex == old(peers)[id].nextIndex || peers[id].nextIndex == matchIndex + 1)
    {
      if id in peers {
        var p := peers[id].(matchIndex := matchIndex);
        if matchIndex + 1 > p.nextIndex { p := p.(nextIndex := matchIndex + 1); }
        peers := peers[id := p];
      }
    }

    method DecrementNext(id: nat)
      modifies this
      ensures peers.Keys == old(peers).Keys
      ensures forall p | p in peers && p != id :: peers[p] == old(peers)[p]
      ensures id in peers ==>
                && peers[id].matchIndex == old(peers)[id].matchIndex
                && peers[id].nextIndex
                   == (if old(peers)[id].nextIndex > 1 then old(peers)[id].nextIndex - 1 else old(peers)[id].nextIndex)
    {
      if id in peers {
        if peers[id].nextIndex > 1 { peers := peers[id := peers[id].(nextIndex := peers[id].nextIndex - 1)]; }
      }
    }

    /** All match indexes in ascending order. */
    method MatchIndexes() returns (out: seq<nat>)
      ensures Ascending(out) && |out| == |peers|
      ensures forall x: nat :: CountGe(out, x) == |Reached(peers, x)|
    {
      hide Ascending, Reached;
      var all := CollectMatches();
      forall x: nat ensures CountGe(Sort(all), x) == |Reached(peers, x)| { CountGeSort(all, x); }
      SortSorts(all);
      out := Sort(all);
    }

    /** All match indexes, in whatever order the map is visited. */
    method CollectMatches() returns (out: seq<nat>)
      ensures Tallies(out, peers)
    {
      hide Tallies;
      TalliesNothing();
      out := [];
      var left := peers.Keys;
      ghost var done: map<nat, PeerState> := map[];
      while left != {}
        invariant left <= peers.Keys && done.Keys == peers.Keys - left
        invariant forall p | p in done :: done[p] == peers[p]
        invariant Tallies(out, done)
        decreases |left|
      {
        var p :| p in left;
        TalliesOne(out, done, p, peers[p]);
        out := out + [peers[p].matchIndex];
        done := done[p := peers[p]];
        left := left - {p};
      }
      assert done == peers;
    }

    /** The quorum index read off a sorted list is the greatest index a majority has reached. */
    method QuorumMatch(leaderMatch: nat) returns (q: nat)
      ensures IsQuorumMatch(peers, leaderMatch, q)
    {
      var matches := MatchIndexes();
      var all := matches + [leaderMatch];
      forall x: nat ensures CountGe(Sort(all), x) == |Reached(peers, x)| + (if leaderMatch >= x then 1 else 0) {
        CountGeSplit(matches, [leaderMatch], x);
        CountGeSort(all, x);
      }
      SortSorts(all);
      var sorted := Sort(all);
      var n := |sorted|;
      q := sorted[n - n / 2 - 1];
      forall x: nat ensures x <= q <==> |Reached(peers, x)| + (if leaderMatch >= x then 1 else 0) >= n / 2 + 1 {
        OrderStatistic(sorted, n - n / 2 - 1, x);
      }
    }
  }

  /** `out` lists the match indexes of `ps`. */
  ghost predicate Tallies(out: seq<nat>, ps: map<nat, PeerState>) {
    |out| == |ps| && forall x: nat :: CountGe(out, x) == |Reached(ps, x)|
  }

  lemma TalliesNothing()
    ensures Tallies([], map[])
  {
  }

  lemma TalliesOne(out: seq<nat>, ps: map<nat, PeerState>, p: nat, s: PeerState)
    requires p !in ps && Tallies(out, ps)
    ensures Tallies(out + [s.matchIndex], ps[p := s])
  {
    forall x: nat ensures CountGe(out + [s.matchIndex], x) == |Reached(ps[p := s], x)| {
      CountGeSplit(out, [s.matchIndex], x);
      ReachedGrows(ps, p, s, x);
    }
  }

  lemma ReachedGrows(ps: map<nat, PeerState>, p: nat, s: PeerState, x: nat)
    requires p !in ps
    ensures |Reached(ps[p := s], x)| == |Reached(ps, x)| + if s.matchIndex >= x then 1 else 0
  {
    if s.matchIndex >= x {
      assert Reached(ps[p := s], x) == Reached(ps, x) + {p};
    } else {
      assert Reached(ps[p := s], x) == Reached(ps, x);
    }
  }

  // ---------------------------------------------------------------- the commit scan in closed form

  /** The tracker state `ps` shows the same match indexes as leader `n`. */
  ghost predicate Tracks(ps: map<nat, PeerState>, n: NodeState) {
    ps.Keys == Elements(n.peers) && forall p | p in ps :: ps[p].matchIndex == Get(n.matchIndex, p)
  }

  /** An index of the log is at most the quorum match exactly when the counting loop finds it on a
      majority. */
  lemma QuorumMatchCounts(ps: map<nat, PeerState>, n: NodeState, q: nat, idx: nat)
    requires Distinct(n.peers) && Tracks(ps, n) && Aligned(n.log.entries)
    requires IsQuorumMatch(ps, LastIndex(n.log.entries), q) && idx <= LastIndex(n.log.entries)
    ensures idx <= q <==> ReplicatedOnMajority(n, idx)
  {
    CountIsCardinality(n.peers, AtLeast(n, idx));
    assert AtLeast(n, idx) * Elements(n.peers) == Reached(ps, idx);
    assert |ps| == |ps.Keys| == |n.peers|;
  }

  /** The downward scan equals its closed form: the smaller of the quorum match and the last index, if it
      is above the commit index and holds an entry of the current term; otherwise nothing changes. */
  lemma ScanIsQuorumMatch(ps: map<nat, PeerState>, n: NodeState, q: nat)
    requires WellFormed(n.log.entries) && TermsUpTo(n.log.entries, n.currentTerm)
    requires Distinct(n.peers) && Tracks(ps, n) && IsQuorumMatch(ps, LastIndex(n.log.entries), q)
    ensures var last := LastIndex(n.log.entries); var k := if q < last then q else last;
            ScanCommit(n, last) ==
            if k > n.log.commitIndex && n.log.entries[k].term == n.currentTerm then k else n.log.commitIndex
  {
    var last := LastIndex(n.log.entries);
    var k := if q < last then q else last;
    ScanSkips(ps, n, q, last);
    if k > n.log.commitIndex {
      if n.log.entries[k].term == n.currentTerm {
        QuorumMatchCounts(ps, n, q, k);
      } else {
        ScanFindsNothing(n, k);
      }
    } else {
      assert ScanCommit(n, k) == n.log.commitIndex;
    }
  }

  /** Above the quorum match the scan finds nothing. */
  lemma {:induction false} ScanSkips(ps: map<nat, PeerState>, n: NodeState, q: nat, idx: nat)
    requires Aligned(n.log.entries) && idx <= LastIndex(n.log.entries)
    requires Distinct(n.peers) && Tracks(ps, n) && IsQuorumMatch(ps, LastIndex(n.log.entries), q)
    ensures q < idx ==> ScanCommit(n, idx) == if q <= n.log.commitIndex then n.log.commitIndex else ScanCommit(n, q)
  {
    if q < idx {
      QuorumMatchCounts(ps, n, q, idx);
      if idx > n.log.commitIndex { ScanSkips(ps, n, q, idx - 1); }
    }
  }

  /** Below an entry of an older term there is no entry of the current term. */
  lemma {:induction false} ScanFindsNothing(n: NodeState, idx: nat)
    requires WellFormed(n.log.entries) && idx < |n.log.entries| && n.log.entries[idx].term < n.currentTerm
    ensures ScanCommit(n, idx) == n.log.commitIndex
  {
    if idx > n.log.commitIndex { ScanFindsNothing(n, idx - 1); }
  }

  /** The leader as the commit scan sees it: the acknowledgement is already counted. */
  function WithAck(n: NodeState, m: Message): NodeState
    requires m.AppendEntriesResp?
  {
    n.(matchIndex := n.matchIndex[m.from := m.matchIndex], nextIndex := n.nextIndex[m.from := m.matchIndex + 1])
  }

  /** In every reachable state, what a leader commits on a successful acknowledgement has a closed form in the
      tracker that has counted it: the smaller of the quorum match and the last index, if that is above the
      commit index and of the current term; otherwise nothing is committed. */
  lemma ReachableAckCommits(init: Net, es: seq<Event>, id: nat, m: Message, draw: Draw, ps: map<nat, PeerState>, q: nat)
    requires Initial(init) && WellWired(init) && id in Exec(init, es).nodes && m.AppendEntriesResp? && m.success
    requires var n := Exec(init, es).nodes[id];
             && n.role == Leader && !n.crashed && m.term == n.currentTerm
             && Tracks(ps, WithAck(n, m)) && IsQuorumMatch(ps, LastIndex(n.log.entries), q)
    ensures var n := Exec(init, es).nodes[id];
            var last := LastIndex(n.log.entries); var k := if q < last then q else last;
            && k < |n.log.entries|
            && Step(n, m, draw).node == WithAck(n, m).(log := n.log.(commitIndex :=
                 if k > n.log.commitIndex && n.log.entries[k].term == n.currentTerm then k else n.log.commitIndex))
  {
    hide IsQuorumMatch, Tracks, ScanCommit, Exec, Initial, WellWired, Step, WellFormed, TermsUpTo, Distinct;
    var n := Exec(init, es).nodes[id];
    ReachableLog(init, es, id);
    AckIsScanned(n, m, draw);
    ScanIsQuorumMatch(ps, WithAck(n, m), q);
  }

  lemma AckIsScanned(n: NodeState, m: Message, draw: Draw)
    requires m.AppendEntriesResp? && m.success && n.role == Leader && !n.crashed && m.term == n.currentTerm
    ensures Step(n, m, draw).node == AdvanceCommit(WithAck(n, m))
  {
    hide ScanCommit;
  }

  lemma ReachableLog(init: Net, es: seq<Event>, id: nat)
    requires Initial(init) && WellWired(init) && id in Exec(init, es).nodes
    ensures var n := Exec(init, es).nodes[id];
            && WellFormed(n.log.entries) && TermsUpTo(n.log.entries, n.currentTerm) && Distinct(n.peers)
            && LastIndex(n.log.entries) == |n.log.entries| - 1
  {
    hide ElectionInv, LogInv;
    ChronicleIsExec(init, es);
    LogsHold(init, es);
    NodeLogFacts(Chronicle(init, es), id);
    NodeFacts(Chronicle(init, es), id);
  }
}
