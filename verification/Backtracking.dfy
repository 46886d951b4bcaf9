/** Catching up a follower: a leader and one follower exchanging AppendEntries and replies in lock
    step, the next index walking back until the logs meet. A next index past the leader's end first
    falls back to the follower's own end. */
module Backtracking {
  import opened RaftLog
  import opened NodeModel
  import opened NetworkModel
  import opened Effects
  import opened LogMatching
  import opened Stability
  import opened NodeLaws
  import opened Merging

  datatype Pair = Pair(leader: NodeState, follower: NodeState)

  function NextIndex(p: Pair): nat {
    Get(p.leader.nextIndex, p.follower.id)
  }

  /** The leader sends, the follower answers, the leader takes the answer. */
  function Exchange(p: Pair, draw: Draw, draw': Draw): Pair {
    var o := Step(p.follower, AppendFor(p.leader, p.follower.id), draw);
    Pair(if o.out == [] then p.leader else Step(p.leader, o.out[0], draw').node, o.node)
  }

  function Exchanges(p: Pair, draws: seq<(Draw, Draw)>): Pair {
    if draws == [] then p
    else var q := Exchanges(p, draws[..|draws| - 1]); Exchange(q, draws[|draws| - 1].0, draws[|draws| - 1].1)
  }

  /** A live leader and a live follower of no later term, whose log is no longer than the leader's and
      identical to it up to any index of equal terms. */
  ghost predicate Paired(p: Pair) {
    var l, f := p.leader, p.follower;
    && l.role == Leader && !l.crashed && !f.crashed && f.currentTerm <= l.currentTerm
    && Aligned(l.log.entries) && Aligned(f.log.entries) && Matching(f.log.entries, l.log.entries)
    && |f.log.entries| <= |l.log.entries| && 1 <= NextIndex(p)
  }

  /** The next index points into the leader's log or just past it. */
  predicate InRange(p: Pair) {
    NextIndex(p) <= |p.leader.log.entries|
  }

  /** The greatest index below `i` at which the two logs have the same term. */
  function Meeting(f: seq<Entry>, l: seq<Entry>, i: nat): (a: nat)
    ensures a < i || a == 0
    ensures a == 0 || (a < |f| && a < |l| && f[a].term == l[a].term)
    ensures forall j | a < j < i && j < |f| && j < |l| :: f[j].term != l[j].term
  {
    if i <= 1 then 0
    else if i - 1 < |f| && i - 1 < |l| && f[i - 1].term == l[i - 1].term then i - 1
    else Meeting(f, l, i - 1)
  }

  lemma AppendForProbes(n: NodeState, p: nat)
    requires Aligned(n.log.entries) && 1 <= Get(n.nextIndex, p) <= |n.log.entries|
    ensures var m := AppendFor(n, p);
            && m.AppendEntries? && m.term == n.currentTerm && m.from == n.id && m.to == p
            && m.prevLogIndex == Get(n.nextIndex, p) - 1 && m.prevLogTerm == n.log.entries[m.prevLogIndex].term
            && Stretch(m, n.log.entries) && m.prevLogIndex + |m.entries| == LastIndex(n.log.entries)
  {
    AppendForIsStretch(n, p);
    AppendReachesLast(n, p);
  }

  /** A probe below which the logs do not meet is refused: the logs stay and the next index steps back. */
  lemma ExchangeStepsBack(p: Pair, draw: Draw, draw': Draw)
    requires Paired(p) && InRange(p)
    requires var k := NextIndex(p) - 1;
             !MatchesPrevLogTerm(p.follower.log.entries, k, p.leader.log.entries[k].term)
    ensures var q := Exchange(p, draw, draw');
            && Paired(q) && NextIndex(q) == NextIndex(p) - 1
            && q.follower.log == p.follower.log && q.leader.log == p.leader.log && q.follower.id == p.follower.id
  {
    hide Aligned, Matching, AppendFor, Append, FollowerCommit, Stretch, ScanCommit;
    AppendForProbes(p.leader, p.follower.id);
    var m := AppendFor(p.leader, p.follower.id);
    var f := AcceptLeader(p.follower, m, draw);
    assert HandleAppendEntries(p.follower, m, draw).out[0] ==
           AppendEntriesResp(f.id, m.from, f.currentTerm, false, LastIndex(f.log.entries));
  }

  /** A probe at an index where the terms coincide is accepted: the follower's log becomes the leader's. */
  lemma ExchangeCatchesUp(p: Pair, draw: Draw, draw': Draw)
    requires Paired(p) && InRange(p)
    requires var k := NextIndex(p) - 1;
             MatchesPrevLogTerm(p.follower.log.entries, k, p.leader.log.entries[k].term)
    ensures var q := Exchange(p, draw, draw');
            && Paired(q) && NextIndex(q) == |p.leader.log.entries| && q.follower.id == p.follower.id
            && q.follower.log.entries == q.leader.log.entries == p.leader.log.entries
  {
    var l, f := p.leader.log.entries, p.follower.log;
    var m := AppendFor(p.leader, p.follower.id);
    assert LastIndex(l) == |l| - 1;
    hide Matching, AppendFor, MatchesPrevLogTerm, Append, Stretch, Aligned, LastIndex, Step;
    AppendForProbes(p.leader, p.follower.id);
    MergeReachesLeader(f, l, m);
    EqualLogsMatch(l);
    FollowerAccepts(p.follower, l, m, draw);
    LeaderTakesAck(p.leader, p.follower.id, LastIndex(l), draw');
  }

  /** The leader's side of an accepted probe. */
  lemma LeaderTakesAck(n: NodeState, f: nat, k: nat, draw: Draw)
    requires n.role == Leader && !n.crashed
    ensures var r := Step(n, AppendEntriesResp(f, n.id, n.currentTerm, true, k), draw).node;
            && r.role == Leader && !r.crashed && r.currentTerm == n.currentTerm
            && r.log.entries == n.log.entries && Get(r.nextIndex, f) == k + 1
  {
    hide ScanCommit;
  }

  /** The follower's side of an accepted probe. */
  lemma FollowerAccepts(f: NodeState, l: Entries, m: Message, draw: Draw)
    requires m.AppendEntries? && !f.crashed && f.currentTerm <= m.term
    requires MatchesPrevLogTerm(f.log.entries, m.prevLogIndex, m.prevLogTerm)
    requires Append(f.log, m.entries).error == None && Append(f.log, m.entries).log.entries == l
    ensures var o := Step(f, m, draw);
            && o.node.log.entries == l && o.node.currentTerm == m.term && !o.node.crashed && o.node.id == f.id
            && o.out == [AppendEntriesResp(f.id, m.from, m.term, true, LastIndex(l))]
  {
    hide MatchesPrevLogTerm, Append, LastIndex, FollowerCommit;
    FollowerCommitKeepsEntries(Append(f.log, m.entries).log, m.leaderCommit);
  }

  lemma EqualLogsMatch(es: Entries)
    ensures Matching(es, es)
  {
    forall i | 0 <= i < |es| ensures Agree(es, es, i) {}
  }

  lemma MergeReachesLeader(f: LogState, l: Entries, m: Message)
    requires m.AppendEntries? && Stretch(m, l) && Aligned(f.entries) && Aligned(l) && Matching(f.entries, l)
    requires MatchesPrevLogTerm(f.entries, m.prevLogIndex, m.prevLogTerm)
    requires |f.entries| <= |l| && m.prevLogIndex + |m.entries| == LastIndex(l)
    ensures Append(f, m.entries).error == None && Append(f, m.entries).log.entries == l
  {
    hide Matching, Append, Stretch, MatchesPrevLogTerm, DivergesAt;
    var d := MergeYieldsLeaderPrefix(f, l, m);
    var r := Append(f, m.entries).log.entries;
    assert LastIndex(l) == |l| - 1;
    assert l[..|l|] == l && r[..|r|] == r;
  }

  /** With the next index in range: until the probe reaches the last index below it at which the logs have
      the same term nothing but the next index moves, one step per exchange; from then on the logs are
      equal. */
  lemma {:induction false} WalkBack(p: Pair, draws: seq<(Draw, Draw)>)
    requires Paired(p) && InRange(p)
    ensures var q := Exchanges(p, draws);
            var steps := NextIndex(p) - Meeting(p.follower.log.entries, p.leader.log.entries, NextIndex(p));
            && Paired(q) && InRange(q) && q.leader.log.entries == p.leader.log.entries && q.follower.id == p.follower.id
            && 1 <= steps <= NextIndex(p)
            && (|draws| < steps ==> q.follower.log == p.follower.log && NextIndex(q) == NextIndex(p) - |draws|)
            && (|draws| >= steps ==>
                  q.follower.log.entries == q.leader.log.entries && NextIndex(q) == |q.leader.log.entries|)
  {
    var f, l := p.follower.log.entries, p.leader.log.entries;
    var a := Meeting(f, l, NextIndex(p));
    assert a < NextIndex(p);
    if draws != [] {
      hide Exchange, Matching, Aligned, MatchesPrevLogTerm, Meeting;
      var q, d := Exchanges(p, draws[..|draws| - 1]), draws[|draws| - 1];
      WalkBack(p, draws[..|draws| - 1]);
      var k := NextIndex(q) - 1;
      if |draws| - 1 < NextIndex(p) - a {
        ProbeMeets(f, l, NextIndex(p), k);
      } else {
        LastMatches(l);
      }
      if MatchesPrevLogTerm(q.follower.log.entries, k, q.leader.log.entries[k].term) {
        ExchangeCatchesUp(q, d.0, d.1);
      } else {
        ExchangeStepsBack(q, d.0, d.1);
      }
    }
  }

  /** Walking back from `i`, the first probe that is accepted is the one where the logs meet. */
  lemma ProbeMeets(f: Entries, l: Entries, i: nat, k: nat)
    requires 1 <= i <= |l| && |f| <= |l| && Meeting(f, l, i) <= k < i
    ensures MatchesPrevLogTerm(f, k, l[k].term) <==> k == Meeting(f, l, i)
  {
  }

  lemma LastMatches(l: Entries)
    ensures MatchesPrevLogTerm(l, |l| - 1, l[|l| - 1].term)
  {
  }

  /** A next index past the leader's end: the leader falls back to an empty message at index 0, which every
      follower accepts; the answer brings the next index to the follower's own end, and no log moves. */
  lemma ExchangeFallsBack(p: Pair, draw: Draw, draw': Draw)
    requires Paired(p) && !InRange(p)
    ensures var q := Exchange(p, draw, draw');
            && Paired(q) && InRange(q) && NextIndex(q) == |p.follower.log.entries| && q.follower.id == p.follower.id
            && q.follower.log.entries == p.follower.log.entries && q.leader.log.entries == p.leader.log.entries
  {
    var l, f := p.leader.log.entries, p.follower.log;
    var m := AppendFor(p.leader, p.follower.id);
    assert LastIndex(l) == |l| - 1 && LastIndex(f.entries) == |f.entries| - 1;
    AppendForShape(p.leader, p.follower.id);
    assert m.prevLogIndex == 0 && m.entries == [];
    assert Append(f, m.entries) == LogOutcome(f, None);
    hide Matching, AppendFor, Append, Aligned, LastIndex, Step;
    FollowerAccepts(p.follower, f.entries, m, draw);
    LeaderTakesAck(p.leader, p.follower.id, LastIndex(f.entries), draw');
  }

  /** How many exchanges it takes until the logs are sure to be equal. */
  function StepsNeeded(p: Pair): int {
    var f, l := p.follower.log.entries, p.leader.log.entries;
    if InRange(p) then NextIndex(p) - Meeting(f, l, NextIndex(p)) else 1 + |f| - Meeting(f, l, |f|)
  }

  lemma {:induction false} ExchangesShift(p: Pair, draws: seq<(Draw, Draw)>)
    requires draws != []
    ensures Exchanges(p, draws) == Exchanges(Exchange(p, draws[0].0, draws[0].1), draws[1..])
    decreases |draws|
  {
    hide Exchange;
    if |draws| == 1 {
      assert Exchanges(p, draws[..0]) == p;
    } else {
      var init := draws[..|draws| - 1];
      ExchangesShift(p, init);
      assert init[1..] == draws[1..][..|draws| - 2];
      assert draws[1..][|draws| - 2] == draws[|draws| - 1];
    }
  }

  /** Backtracking converges, and how fast, wherever the next index starts. A next index past the leader's
      end costs one exchange and restarts at the follower's end. Then nothing but the next index moves, one
      step back per exchange, until the probe reaches the last index below it at which the logs have the
      same term; from then on the logs are equal. That is at most `nextIndex` exchanges in all. */
  lemma BacktrackingConverges(p: Pair, draws: seq<(Draw, Draw)>)
    requires Paired(p)
    ensures var q := Exchanges(p, draws);
            && Paired(q) && q.leader.log.entries == p.leader.log.entries && q.follower.id == p.follower.id
            && 1 <= StepsNeeded(p) <= NextIndex(p)
            && (|draws| < StepsNeeded(p) ==>
                  && q.follower.log.entries == p.follower.log.entries
                  && NextIndex(q) == (if InRange(p) || draws == [] then NextIndex(p) - |draws|
                                      else |p.follower.log.entries| + 1 - |draws|))
            && (|draws| >= StepsNeeded(p) ==>
                  q.follower.log.entries == q.leader.log.entries && NextIndex(q) == |q.leader.log.entries|)
  {
    hide Exchange, Matching, Aligned, Meeting;
    if InRange(p) {
      WalkBack(p, draws);
    } else if draws != [] {
      ExchangeFallsBack(p, draws[0].0, draws[0].1);
      ExchangesShift(p, draws);
      WalkBack(Exchange(p, draws[0].0, draws[0].1), draws[1..]);
    }
  }

  // ---------------------------------------------------------------- the commit index follows

  /** Both commit indexes lie inside their logs. */
  ghost predicate Inside(p: Pair) {
    && p.leader.log.commitIndex < |p.leader.log.entries| && p.follower.log.commitIndex < |p.follower.log.entries|
  }

  /** What an exchange does to the leader: its entries and role stay and its commit index does not fall. */
  lemma LeaderTakesReply(n: NodeState, f: nat, m: Message, draw: Draw)
    requires n.role == Leader && !n.crashed && m.AppendEntriesResp? && m.term == n.currentTerm
    ensures var r := Step(n, m, draw).node;
            && r.log.entries == n.log.entries && r.log.commitIndex >= n.log.commitIndex
            && (n.log.commitIndex < |n.log.entries| ==> r.log.commitIndex < |n.log.entries|)
  {
    if m.success { AckIsCounted(n, m, draw); } else { RefusalStepsBack(n, m, draw); }
  }

  /** What an exchange does to the follower: it answers once in the leader's term, and a commit index inside its
      log stays inside. */
  lemma FollowerTakesEntries(p: Pair, draw: Draw)
    requires Paired(p) && Inside(p)
    ensures var o := Step(p.follower, AppendFor(p.leader, p.follower.id), draw);
            && |o.out| == 1 && o.out[0].AppendEntriesResp? && o.out[0].term == p.leader.currentTerm
            && o.node.log.commitIndex < |o.node.log.entries|
  {
    var m := AppendFor(p.leader, p.follower.id);
    AppendForShape(p.leader, p.follower.id);
    AppendForIsWellIndexed(p.leader, p.follower.id);
    EntriesAcceptedIff(p.follower, m, draw);
    if MatchesPrevLogTerm(p.follower.log.entries, m.prevLogIndex, m.prevLogTerm) {
      AppendForIsStretch(p.leader, p.follower.id);
      PrevAgrees(p.follower.log.entries, p.leader.log.entries, m);
      CommitAfterMerge(p.follower.log, m, Append(p.follower.log, m.entries).log);
    }
  }

  /** An exchange keeps both commit indexes inside and never lowers the leader's. */
  lemma ExchangeKeepsInside(p: Pair, draw: Draw, draw': Draw)
    requires Paired(p) && Inside(p)
    ensures var q := Exchange(p, draw, draw'); Inside(q) && q.leader.log.commitIndex >= p.leader.log.commitIndex
  {
    FollowerTakesEntries(p, draw);
    hide Step, Matching, Aligned, AppendFor;
    var o := Step(p.follower, AppendFor(p.leader, p.follower.id), draw);
    LeaderTakesReply(p.leader, p.follower.id, o.out[0], draw');
  }

  /** With equal logs one exchange brings the follower's commit index to the leader's, unless it was ahead. */
  lemma SyncedExchangeCommits(p: Pair, draw: Draw, draw': Draw)
    requires Paired(p) && Inside(p) && p.follower.log.entries == p.leader.log.entries
    ensures var q := Exchange(p, draw, draw'); var f, l := p.follower.log.commitIndex, p.leader.log.commitIndex;
            q.follower.log.entries == p.leader.log.entries && q.follower.log.commitIndex == if f < l then l else f
  {
    var m := AppendFor(p.leader, p.follower.id);
    AppendForShape(p.leader, p.follower.id);
    AppendForIsStretch(p.leader, p.follower.id);
    AppendForIsWellIndexed(p.leader, p.follower.id);
    AbsorbHeld(p.follower.log, m.entries, m.prevLogIndex);
    EntriesAcceptedIff(p.follower, m, draw);
    hide Step, Append, Matching, Aligned, AppendFor, Stretch;
  }

  /** Once the logs are equal, every further exchange keeps them equal and the follower's commit index at least
      where the leader's was before it; so one exchange after convergence the follower has committed whatever the
      leader had at the start. */
  lemma {:induction false} CommitReachesFollower(p: Pair, draws: seq<(Draw, Draw)>)
    requires Paired(p) && Inside(p)
    ensures var q := Exchanges(p, draws);
            && Inside(q) && q.leader.log.commitIndex >= p.leader.log.commitIndex
            && (|draws| > StepsNeeded(p) ==>
                  q.follower.log.entries == q.leader.log.entries
                    && q.follower.log.commitIndex >= p.leader.log.commitIndex)
  {
    if draws != [] {
      var init, d := draws[..|draws| - 1], draws[|draws| - 1];
      var q := Exchanges(p, init);
      CommitReachesFollower(p, init);
      BacktrackingConverges(p, init);
      BacktrackingConverges(p, draws);
      hide Exchange, Paired, StepsNeeded, Inside;
      ExchangeKeepsInside(q, d.0, d.1);
      if |draws| > StepsNeeded(p) { SyncedExchangeCommits(q, d.0, d.1); }
    }
  }

  // ---------------------------------------------------------------- from a reachable state

  /** A leader has a next index of at least 1 for each of its peers. */
  ghost predicate NextKnown(n: NodeState) {
    n.role == Leader ==> forall p | p in n.peers :: Get(n.nextIndex, p) >= 1
  }

  lemma EffectKeepsNextKnown(n: NodeState, n': NodeState, out: seq<Message>, m: Message)
    requires NextKnown(n) && n'.peers == n.peers
    requires LocalEffect(n, n', out) || MessageEffect(n, n', out, m)
    ensures NextKnown(n')
  {
    hide Append, Broadcast, VoteRequests, ScanCommit, FreshIndexes, UpToDate, Merged, Rejections;
    if n'.role == Leader {
      forall p | p in n'.peers ensures Get(n'.nextIndex, p) >= 1 {
        if n.role == Leader { assert Get(n.nextIndex, p) >= 1; }
        FreshIndexesAt(n.peers, LastIndex(n.log.entries) + 1, p);
      }
    }
  }

  lemma {:induction false} ReachableNextKnown(init: Net, es: seq<Event>, id: nat)
    requires Initial(init) && WellWired(init) && id in Exec(init, es).nodes
    ensures NextKnown(Exec(init, es).nodes[id])
  {
    if es == [] {
      var draw: Draw :| init.nodes[id] == InitNode(id, init.nodes[id].peers, draw);
    } else {
      hide React, NextKnown, Initial, WellWired, LocalEffect, MessageEffect, Aligned, TermsAscend, Representable;
      var most, e := es[..|es| - 1], es[|es| - 1];
      var net := Exec(init, most);
      ExecKeepsWiring(init, es);
      ExecKeepsWiring(init, most);
      ReachableNextKnown(init, most, id);
      if Enabled(net, e) && Target(e) == id {
        ReachableLogShape(init, most, id);
        var o := React(net.nodes[id], e);
        Classify(net.nodes[id], e);
        EffectKeepsNextKnown(net.nodes[id], o.node, o.out, if e.DeliverEvent? then e.m else RequestVote(0, 0, 0, 0, 0));
      }
    }
  }

  /** In every reachable state a leader and any other node are paired as soon as that node is up, in no later
      term and with no longer a log: matching logs and a next index of at least 1 are facts of the run. */
  lemma ReachablePair(init: Net, es: seq<Event>, l: nat, f: nat)
    requires Initial(init) && WellWired(init) && l in Exec(init, es).nodes && f in Exec(init, es).nodes && l != f
    requires var p := Pair(Exec(init, es).nodes[l], Exec(init, es).nodes[f]);
             && p.leader.role == Leader && !p.follower.crashed && p.follower.currentTerm <= p.leader.currentTerm
             && |p.follower.log.entries| <= |p.leader.log.entries|
    ensures Paired(Pair(Exec(init, es).nodes[l], Exec(init, es).nodes[f]))
  {
    hide Exec, Initial, WellWired, TermsAscend, Aligned, Agree;
    var net := Exec(init, es);
    var a, b := net.nodes[f].log.entries, net.nodes[l].log.entries;
    ReachableLogShape(init, es, l);
    ReachableLogShape(init, es, f);
    LeaderIsWired(init, es, l);
    ExecKeepsWiring(init, es);
    WiredId(net, f);
    ReachableNextKnown(init, es, l);
    assert es[..|es|] == es;
    forall i | 0 <= i < |a| && i < |b| && a[i].term == b[i].term ensures Agree(a, b, i) {
      LogMatchingHolds(init, es, |es|, |es|, f, l, i);
    }
  }
}
