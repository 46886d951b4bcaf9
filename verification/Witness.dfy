/** Concrete runs that show what the theorems cannot promise.

    * Without the acknowledgement hypothesis two nodes can commit different entries at one index.
    * A node can vote twice in one term.
 */
module Witness {
  import opened RaftLog
  import opened Quorum
  import opened NodeModel
  import opened NetworkModel
  import opened StateMachineSafety

  type Nodes = map<nat, NodeState>

  /** The run `es` ends with these nodes and has sent at least these messages. */
  ghost predicate Reaches(init: Net, es: seq<Event>, nodes: Nodes, sent: set<Message>) {
    Exec(init, es).nodes == nodes && sent <= Exec(init, es).pool
  }

  ghost predicate Possible(nodes: Nodes, sent: set<Message>, e: Event) {
    Target(e) in nodes && !e.RestartEvent? && (e.DeliverEvent? ==> e.m in sent)
  }

  /** One more event. */
  lemma Next(init: Net, es: seq<Event>, nodes: Nodes, sent: set<Message>, e: Event, n': NodeState, out: seq<Message>)
    requires Reaches(init, es, nodes, sent) && Possible(nodes, sent, e)
    requires React(nodes[Target(e)], e) == Outcome(n', out)
    ensures Reaches(init, es + [e], nodes[Target(e) := n'], sent + Sent(out))
  {
    hide React;
    assert (es + [e])[..|es|] == es;
    assert Enabled(Exec(init, es), e);
  }

  function Ticks(id: nat, k: nat): seq<Event> {
    if k == 0 then [] else Ticks(id, k - 1) + [TickEvent(id, 0)]
  }

  /** Ticks that do not reach the election timeout only advance the timer. */
  lemma {:induction false} QuietTicks(init: Net, es: seq<Event>, nodes: Nodes, sent: set<Message>, id: nat, k: nat)
    requires Reaches(init, es, nodes, sent) && id in nodes
    requires !nodes[id].crashed && nodes[id].role != Leader
    requires nodes[id].electionElapsed + k < nodes[id].electionTimeout
    ensures Reaches(init, es + Ticks(id, k),
            nodes[id := nodes[id].(electionElapsed := nodes[id].electionElapsed + k)], sent)
  {
    hide Reaches, React;
    if k == 0 {
      assert es + Ticks(id, 0) == es;
      assert nodes[id := nodes[id].(electionElapsed := nodes[id].electionElapsed + 0)] == nodes;
    } else {
      QuietTicks(init, es, nodes, sent, id, k - 1);
      var n := nodes[id].(electionElapsed := nodes[id].electionElapsed + (k - 1));
      var n' := n.(electionElapsed := n.electionElapsed + 1);
      assert React(n, TickEvent(id, 0)) == Outcome(n', []) by { QuietTick(n); }
      Next(init, es + Ticks(id, k - 1), nodes[id := n], sent, TickEvent(id, 0), n', []);
      assert es + Ticks(id, k - 1) + [TickEvent(id, 0)] == es + Ticks(id, k);
      assert nodes[id := n][id := n'] == nodes[id := n'];
      assert sent + Sent([]) == sent;
    }
  }

  lemma QuietTick(n: NodeState)
    requires !n.crashed && n.role != Leader && n.electionElapsed + 1 < n.electionTimeout
    ensures React(n, TickEvent(n.id, 0)) == Outcome(n.(electionElapsed := n.electionElapsed + 1), [])
    ensures forall id :: React(n, TickEvent(id, 0)) == Outcome(n.(electionElapsed := n.electionElapsed + 1), [])
  {
  }

  /** Three nodes, each wired to the list `peers(id)`. */
  function Three(p1: seq<nat>, p2: seq<nat>, p3: seq<nat>): Net {
    Net(map[1 := InitNode(1, p1, 0), 2 := InitNode(2, p2, 0), 3 := InitNode(3, p3, 0)], {})
  }

  const WIRED := Three([2, 3], [1, 3], [1, 2])

  lemma WiredIsWired()
    ensures Initial(WIRED) && WellWired(WIRED)
  {
    WiredIsInitial();
    forall id | id in WIRED.nodes
      ensures Distinct(WIRED.nodes[id].peers) && Elements(WIRED.nodes[id].peers) == WIRED.nodes.Keys - {id}
    {
      PairElements(1, 2);
      PairElements(1, 3);
      PairElements(2, 3);
      assert WIRED.nodes.Keys == {1, 2, 3};
    }
  }

  lemma PairElements(a: nat, b: nat)
    ensures Elements([a, b]) == {a, b}
  {
    assert [a, b][0] == a && [a, b][1] == b;
  }

  lemma WiredIsInitial()
    ensures Initial(WIRED)
  {
    forall id | id in WIRED.nodes
      ensures exists draw: Draw :: WIRED.nodes[id] == InitNode(id, WIRED.nodes[id].peers, draw) {
      assert WIRED.nodes[id] == InitNode(id, WIRED.nodes[id].peers, 0);
    }
  }

  lemma StartReaches(init: Net)
    ensures Reaches(init, [], init.nodes, {})
  {
  }

  // ---------------------------------------------------------------- single reactions

  /** A candidate of the given term with no vote but its own. */
  function Cand(id: nat, peers: seq<nat>, term: nat): NodeState {
    InitNode(id, peers, 0).(currentTerm := term, votedFor := id, role := Candidate, votesGranted := {id})
  }

  /** A follower with an empty log that has voted for `vote`. */
  function Voter(id: nat, peers: seq<nat>, term: nat, vote: nat): NodeState {
    InitNode(id, peers, 0).(currentTerm := term, votedFor := vote)
  }

  /** The leader a candidate with an empty log becomes. */
  function Winner(id: nat, peers: seq<nat>, term: nat, v: nat): NodeState {
    Cand(id, peers, term).(role := Leader, leaderID := id, votesGranted := {id, v},
    nextIndex := FreshIndexes(peers, 1), matchIndex := FreshIndexes(peers, 0))
  }

  lemma Requests(n: NodeState, i: nat)
    requires i < |n.peers| && n.log == EMPTY_LOG
    ensures RequestVote(n.id, n.peers[i], n.currentTerm, 0, 0) in VoteRequests(n)
  {
    var li, lt := LastIndex(n.log.entries), LastTerm(n.log.entries);
    assert li == 0 && lt == 0;
    assert VoteRequests(n)[i] == RequestVote(n.id, n.peers[i], n.currentTerm, li, lt);
  }

  lemma Broadcasts(n: NodeState, i: nat)
    requires i < |n.peers|
    ensures AppendFor(n, n.peers[i]) in Broadcast(n)
  {
    assert Broadcast(n)[i] == AppendFor(n, n.peers[i]);
  }

  /** Enough ticks start an election. */
  lemma TimesOut(init: Net, es: seq<Event>, nodes: Nodes, sent: set<Message>, id: nat) returns (es': seq<Event>)
    requires Reaches(init, es, nodes, sent) && id in nodes
    requires var n := nodes[id]; n.id == id && exists vote: nat :: n == Voter(id, n.peers, n.currentTerm, vote)
    ensures var c := Cand(id, nodes[id].peers, nodes[id].currentTerm + 1);
            Reaches(init, es', nodes[id := c], sent + Sent(VoteRequests(c))) && es <= es'
  {
    QuietTicks(init, es, nodes, sent, id, 9);
    var n := nodes[id].(electionElapsed := 9);
    var c := Cand(id, nodes[id].peers, nodes[id].currentTerm + 1);
    var e := TickEvent(id, 0);
    Next(init, es + Ticks(id, 9), nodes[id := n], sent, e, c, VoteRequests(c));
    es' := es + Ticks(id, 9) + [e];
    assert nodes[id := n][id := c] == nodes[id := c];
  }

  /** Delivering a message already sent. */
  lemma Deliver(init: Net, es: seq<Event>, nodes: Nodes, sent: set<Message>, m: Message, n': NodeState,
    out: seq<Message>)
    returns (es': seq<Event>)
    requires Reaches(init, es, nodes, sent) && m in sent && m.to in nodes && Step(nodes[m.to], m, 0) == Outcome(n', out)
    ensures Reaches(init, es', nodes[m.to := n'], sent + Sent(out)) && es <= es'
  {
    hide Step;
    Next(init, es, nodes, sent, DeliverEvent(m, 0), n', out);
    es' := es + [DeliverEvent(m, 0)];
  }

  /** A follower in an earlier term grants its vote to any candidate when its log is empty. */
  lemma VoteGranted(id: nat, peers: seq<nat>, term: nat, vote: nat, m: Message)
    requires m.RequestVote? && term < m.term
    ensures Step(Voter(id, peers, term, vote), m, 0) ==
            Outcome(Voter(id, peers, m.term, m.from), [RequestVoteResp(id, m.from, m.term, true)])
  {
  }

  lemma WinsWith(id: nat, peers: seq<nat>, term: nat, v: nat)
    requires v in peers && v != id && Wins(id, peers, {id, v})
    ensures Step(Cand(id, peers, term), RequestVoteResp(v, id, term, true), 0) ==
            Outcome(Winner(id, peers, term, v), Broadcast(Winner(id, peers, term, v)))
  {
    assert {id} + {v} == {id, v};
  }

  lemma PairWins(id: nat, a: nat, b: nat, v: nat)
    requires id != a && id != b && a != b && (v == a || v == b)
    ensures Wins(id, [a, b], {id, v})
  {
    CountIsCardinality([a, b], {id, v});
    assert {id, v} * Elements([a, b]) == {v};
  }

  // ---------------------------------------------------------------- commit safety needs the hypothesis

  const A := Entry(1, 1, [65])
  const B := Entry(1, 2, [66])
  const X := Entry(2, 1, [88])

  const STALE := LogState([DUMMY, A, B], 0)
  const FRESH := LogState([DUMMY, X], 0)

  function Leader2(): NodeState {
    Winner(2, [1, 3], 1, 3).(log := STALE)
  }

  /** Node 2 leads term 1 and appends A and B, which reach nobody. */
  lemma StaleLeader() returns (es: seq<Event>, sent: set<Message>)
    ensures Reaches(WIRED, es, map[1 := Voter(1, [2, 3], 0, 0), 2 := Leader2(), 3 := Voter(3, [1, 2], 1, 2)], sent)
    ensures RequestVote(2, 1, 1, 0, 0) in sent
  {
    hide Step, VoteRequests, Broadcast, Reaches, Winner;
    var n1, c2, l2, v3 := Voter(1, [2, 3], 0, 0), Cand(2, [1, 3], 1), Winner(2, [1, 3], 1, 3), Voter(3, [1, 2], 1, 2);
    StartReaches(WIRED);
    assert WIRED.nodes[2] == Voter(2, [1, 3], 0, 0) && WIRED.nodes[3] == Voter(3, [1, 2], 0, 0);
    es := TimesOut(WIRED, [], WIRED.nodes, {}, 2);
    sent := {} + Sent(VoteRequests(c2));
    Requests(c2, 0);
    Requests(c2, 1);
    var nodes := map[1 := n1, 2 := c2, 3 := Voter(3, [1, 2], 0, 0)];
    assert WIRED.nodes[2 := c2] == nodes;
    VoteGranted(3, [1, 2], 0, 0, RequestVote(2, 3, 1, 0, 0));
    es := Deliver(WIRED, es, nodes, sent, RequestVote(2, 3, 1, 0, 0), v3, [RequestVoteResp(3, 2, 1, true)]);
    sent := sent + Sent([RequestVoteResp(3, 2, 1, true)]);
    nodes := nodes[3 := v3];
    PairWins(2, 1, 3, 3);
    WinsWith(2, [1, 3], 1, 3);
    es := Deliver(WIRED, es, nodes, sent, RequestVoteResp(3, 2, 1, true), l2, Broadcast(l2));
    sent := sent + Sent(Broadcast(l2));
    nodes := nodes[2 := l2];
    StaleProposals();
    Next(WIRED, es, nodes, sent, ProposeEvent(2, [65]), l2.(log := LogState([DUMMY, A], 0)), []);
    es := es + [ProposeEvent(2, [65])];
    nodes := nodes[2 := l2.(log := LogState([DUMMY, A], 0))];
    Next(WIRED, es, nodes, sent + Sent([]), ProposeEvent(2, [66]), Leader2(), []);
    es := es + [ProposeEvent(2, [66])];
    sent := sent + Sent([]) + Sent([]);
    nodes := nodes[2 := Leader2()];
    assert nodes == map[1 := n1, 2 := Leader2(), 3 := v3];
  }

  lemma StaleProposals()
    ensures var l2 := Winner(2, [1, 3], 1, 3);
            && React(l2, ProposeEvent(2, [65])) == Outcome(l2.(log := LogState([DUMMY, A], 0)), [])
            && React(l2.(log := LogState([DUMMY, A], 0)), ProposeEvent(2, [66])) == Outcome(Leader2(), [])
  {
    var l2 := Winner(2, [1, 3], 1, 3);
    assert Append(EMPTY_LOG, [A]).log == LogState([DUMMY, A], 0);
    assert Append(LogState([DUMMY, A], 0), [B]).log == STALE;
  }

  function Leader1(): NodeState {
    Winner(1, [2, 3], 2, 3)
  }

  /** What node 1 has after counting node 2's acknowledgement of index 2: it commits X. */
  function Leader1Committed(): NodeState {
    Leader1().(log := LogState([DUMMY, X], 1), nextIndex := Leader1().nextIndex[2 := 3],
      matchIndex := Leader1().matchIndex[2 := 2])
  }

  /** Node 2 deposed, its stale entries still in place. */
  function Follower2(): NodeState {
    Leader2().(currentTerm := 2, role := Follower, votedFor := 0, leaderID := 1)
  }

  lemma Deposed()
    ensures Step(Leader2(), AppendEntries(1, 2, 2, 0, 0, [], 0), 0)
            == Outcome(Follower2(), [AppendEntriesResp(2, 1, 2, true, 2)])
    ensures AppendFor(Leader1(), 2) == AppendEntries(1, 2, 2, 0, 0, [], 0)
  {
    FreshIndexesAt([2, 3], 1, 2);
  }

  lemma FreshProposal()
    ensures React(Leader1(), ProposeEvent(1, [88])) == Outcome(Leader1().(log := FRESH), [])
  {
    assert Append(EMPTY_LOG, [X]).log == FRESH;
  }

  /** The acknowledgement of index 2 lets the leader commit index 1 on a log that ends there, and sends
      its next index past the end of the log. */
  lemma CommitsWrongly()
    ensures Step(Leader1().(log := FRESH), AppendEntriesResp(2, 1, 2, true, 2), 0) == Outcome(Leader1Committed(), [])
    ensures AppendFor(Leader1Committed(), 2) == AppendEntries(1, 2, 2, 0, 0, [], 1)
    ensures React(Leader1Committed(), ReplicateEvent(1)) == Outcome(Leader1Committed(), Broadcast(Leader1Committed()))
  {
    var n := Leader1().(log := FRESH, nextIndex := Leader1().nextIndex[2 := 3],
      matchIndex := Leader1().matchIndex[2 := 2]);
    FreshIndexesAt([2, 3], 0, 3);
    assert Get(n.matchIndex, 2) == 2 && Get(n.matchIndex, 3) == 0;
    assert AtLeast(n, 1) == {2};
    CountIsCardinality([2, 3], {2});
    assert {2} * Elements([2, 3]) == {2};
    assert ReplicatedOnMajority(n, 1);
    assert ScanCommit(n, 1) == 1;
  }

  lemma CommitsStale()
    ensures Step(Follower2(), AppendEntries(1, 2, 2, 0, 0, [], 1), 0)
            == Outcome(Follower2().(log := LogState([DUMMY, A, B], 1)), [AppendEntriesResp(2, 1, 2, true, 2)])
  {
  }

  /** Without the hypothesis: nodes 1 and 2 commit different entries at index 1. */
  lemma CommitUnsafeWithoutHypothesis() returns (es: seq<Event>)
    ensures Initial(WIRED) && WellWired(WIRED) && !AcksInside(WIRED, es)
    ensures var net := Exec(WIRED, es);
            && 1 in net.nodes && 2 in net.nodes
            && net.nodes[1].log.commitIndex == 1 && net.nodes[2].log.commitIndex == 1
            && |net.nodes[1].log.entries| > 1 && |net.nodes[2].log.entries| > 1
            && net.nodes[1].log.entries[1] == X && net.nodes[2].log.entries[1] == A
  {
    hide Step, VoteRequests, Broadcast, Reaches, Winner, Initial, WellWired, AcksInside;
    WiredIsWired();
    var sent: set<Message>;
    es, sent := StaleLeader();
    var v3 := Voter(3, [1, 2], 1, 2);
    var nodes := map[1 := Voter(1, [2, 3], 0, 0), 2 := Leader2(), 3 := v3];
    VoteGranted(1, [2, 3], 0, 0, RequestVote(2, 1, 1, 0, 0));
    es := Deliver(WIRED, es, nodes, sent, RequestVote(2, 1, 1, 0, 0),
      Voter(1, [2, 3], 1, 2), [RequestVoteResp(1, 2, 1, true)]);
    sent := sent + Sent([RequestVoteResp(1, 2, 1, true)]);
    nodes := nodes[1 := Voter(1, [2, 3], 1, 2)];
    es := TimesOut(WIRED, es, nodes, sent, 1);
    var c1 := Cand(1, [2, 3], 2);
    sent := sent + Sent(VoteRequests(c1));
    Requests(c1, 1);
    nodes := nodes[1 := c1];
    VoteGranted(3, [1, 2], 1, 2, RequestVote(1, 3, 2, 0, 0));
    es := Deliver(WIRED, es, nodes, sent, RequestVote(1, 3, 2, 0, 0),
      Voter(3, [1, 2], 2, 1), [RequestVoteResp(3, 1, 2, true)]);
    sent := sent + Sent([RequestVoteResp(3, 1, 2, true)]);
    nodes := nodes[3 := Voter(3, [1, 2], 2, 1)];
    PairWins(1, 2, 3, 3);
    WinsWith(1, [2, 3], 2, 3);
    es := Deliver(WIRED, es, nodes, sent, RequestVoteResp(3, 1, 2, true), Leader1(), Broadcast(Leader1()));
    nodes := nodes[1 := Leader1()];
    es := SecondHalf(es, nodes, sent + Sent(Broadcast(Leader1())));
    assert es[..|es|] == es;
    if AcksInside(WIRED, es) {
      StateMachineSafetyHolds(WIRED, es, |es|, |es|, 1, 2, 1);
      AgreeAt(Exec(WIRED, es).nodes[1].log.entries, Exec(WIRED, es).nodes[2].log.entries, 1, 1);
    }
  }

  lemma SecondHalf(es0: seq<Event>, nodes0: Nodes, sent0: set<Message>) returns (es: seq<Event>)
    requires Reaches(WIRED, es0, nodes0, sent0) && Sent(Broadcast(Leader1())) <= sent0
    requires 1 in nodes0 && 2 in nodes0 && nodes0[1] == Leader1() && nodes0[2] == Leader2()
    ensures var net := Exec(WIRED, es);
            && 1 in net.nodes && 2 in net.nodes
            && net.nodes[1] == Leader1Committed() && net.nodes[2] == Follower2().(log := LogState([DUMMY, A, B], 1))
  {
    hide Step, Broadcast, React;
    var nodes, sent := nodes0, sent0;
    Broadcasts(Leader1(), 0);
    Deposed();
    es := Deliver(WIRED, es0, nodes, sent, AppendEntries(1, 2, 2, 0, 0, [], 0),
      Follower2(), [AppendEntriesResp(2, 1, 2, true, 2)]);
    sent := sent + Sent([AppendEntriesResp(2, 1, 2, true, 2)]);
    nodes := nodes[2 := Follower2()];
    FreshProposal();
    Next(WIRED, es, nodes, sent, ProposeEvent(1, [88]), Leader1().(log := FRESH), []);
    es := es + [ProposeEvent(1, [88])];
    sent := sent + Sent([]);
    nodes := nodes[1 := Leader1().(log := FRESH)];
    CommitsWrongly();
    es := Deliver(WIRED, es, nodes, sent, AppendEntriesResp(2, 1, 2, true, 2), Leader1Committed(), []);
    sent := sent + Sent([]);
    nodes := nodes[1 := Leader1Committed()];
    Next(WIRED, es, nodes, sent, ReplicateEvent(1), Leader1Committed(), Broadcast(Leader1Committed()));
    es := es + [ReplicateEvent(1)];
    sent := sent + Sent(Broadcast(Leader1Committed()));
    nodes := nodes[1 := Leader1Committed()];
    Broadcasts(Leader1Committed(), 0);
    CommitsStale();
    es := Deliver(WIRED, es, nodes, sent, AppendEntries(1, 2, 2, 0, 0, [], 1),
                  Follower2().(log := LogState([DUMMY, A, B], 1)), [AppendEntriesResp(2, 1, 2, true, 2)]);
  }

  // ---------------------------------------------------------------- two votes in one term

  /** A well-wired run in which node 3 votes for itself and then, in the same term, for node 1. */
  lemma VotesTwice() returns (es: seq<Event>, i: nat)
    ensures Initial(WIRED) && WellWired(WIRED) && i <= |es|
    ensures var before, after := Exec(WIRED, es[..i]).nodes, Exec(WIRED, es).nodes;
            && 3 in before && 3 in after && before[3].currentTerm == after[3].currentTerm == 1
            && before[3].votedFor == 3 && after[3].votedFor == 1
            && RequestVoteResp(3, 1, 1, true) in Exec(WIRED, es).pool
  {
    hide Step, VoteRequests, Broadcast, Winner, Initial, WellWired, React;
    WiredIsWired();
    StartReaches(WIRED);
    var c1, c3, l1 := Cand(1, [2, 3], 1), Cand(3, [1, 2], 1), Winner(1, [2, 3], 1, 2);
    assert WIRED.nodes[1] == Voter(1, [2, 3], 0, 0) && WIRED.nodes[2] == Voter(2, [1, 3], 0, 0)
      && WIRED.nodes[3] == Voter(3, [1, 2], 0, 0);
    es := TimesOut(WIRED, [], WIRED.nodes, {}, 1);
    var nodes, sent := WIRED.nodes[1 := c1], {} + Sent(VoteRequests(c1));
    Requests(c1, 0);
    Requests(c1, 1);
    es := TimesOut(WIRED, es, nodes, sent, 3);
    nodes, sent := nodes[3 := c3], sent + Sent(VoteRequests(c3));
    var es3 := es;
    VoteGranted(2, [1, 3], 0, 0, RequestVote(1, 2, 1, 0, 0));
    es := Deliver(WIRED, es, nodes, sent, RequestVote(1, 2, 1, 0, 0),
      Voter(2, [1, 3], 1, 1), [RequestVoteResp(2, 1, 1, true)]);
    nodes, sent := nodes[2 := Voter(2, [1, 3], 1, 1)], sent + Sent([RequestVoteResp(2, 1, 1, true)]);
    PairWins(1, 2, 3, 2);
    WinsWith(1, [2, 3], 1, 2);
    es := Deliver(WIRED, es, nodes, sent, RequestVoteResp(2, 1, 1, true), l1, Broadcast(l1));
    nodes, sent := nodes[1 := l1], sent + Sent(Broadcast(l1));
    WinnerIs(1, [2, 3], 1, 2);
    Broadcasts(l1, 1);
    GivesUpVote(3, [1, 2], l1, 1);
    var f3 := c3.(role := Follower, votedFor := 0, leaderID := 1);
    es := Deliver(WIRED, es, nodes, sent, AppendEntries(1, 3, 1, 0, 0, [], 0),
      f3, [AppendEntriesResp(3, 1, 1, true, 0)]);
    nodes, sent := nodes[3 := f3], sent + Sent([AppendEntriesResp(3, 1, 1, true, 0)]);
    es := Deliver(WIRED, es, nodes, sent, RequestVote(1, 3, 1, 0, 0),
      f3.(votedFor := 1), [RequestVoteResp(3, 1, 1, true)]) by {
      VotesAgain(f3, RequestVote(1, 3, 1, 0, 0));
    }
    i := |es3|;
    assert es[..i] == es3;
  }

  /** A candidate that hears the leader of its own term loses its vote. */
  lemma GivesUpVote(id: nat, peers: seq<nat>, l: NodeState, i: nat)
    requires l == Winner(l.id, l.peers, l.currentTerm, 2) && i < |l.peers| && l.peers[i] == id && 2 in l.peers
    ensures AppendFor(l, id) == AppendEntries(l.id, id, l.currentTerm, 0, 0, [], 0)
    ensures Step(Cand(id, peers, l.currentTerm), AppendFor(l, id), 0)
            == Outcome(Cand(id, peers, l.currentTerm).(role := Follower, votedFor := 0, leaderID := l.id),
                       [AppendEntriesResp(id, l.id, l.currentTerm, true, 0)])
  {
    FreshIndexesAt(l.peers, 1, id);
  }

  lemma VotesAgain(f: NodeState, m: Message)
    requires m.RequestVote? && !f.crashed && f.votedFor == 0 && m.term == f.currentTerm && f.log == EMPTY_LOG
    requires f.electionElapsed == 0 && f.electionTimeout == 10
    ensures Step(f, m, 0) == Outcome(f.(votedFor := m.from), [RequestVoteResp(f.id, m.from, m.term, true)])
  {
  }

  lemma WinnerIs(id: nat, peers: seq<nat>, term: nat, v: nat)
    ensures var l := Winner(id, peers, term, v);
            l.role == Leader && l.currentTerm == term && l.id == id && l.peers == peers
  {
  }
}
