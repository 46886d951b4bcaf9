/** What one call means to its caller: for every state of a node and every input, what is sent and what the
    node is afterwards, stated on the fields and the entries of the log and without the handlers. */
module NodeLaws {
  import opened RaftLog
  import opened Quorum
  import opened NodeModel
  import opened Effects
  import opened Merging

  /** Nothing changed but the fields a law lists. */
  ghost predicate SameIdentity(n: NodeState, n': NodeState) {
    n'.id == n.id && n'.peers == n.peers && n'.crashed == n.crashed
  }

  /** The election timer was set anew with this draw. */
  ghost predicate TimerReset(n': NodeState, draw: Draw) {
    n'.electionElapsed == 0 && n'.electionTimeout == ELECTION_TIMEOUT_MIN + draw
  }

  ghost predicate TimerKept(n: NodeState, n': NodeState) {
    n'.electionElapsed == n.electionElapsed && n'.electionTimeout == n.electionTimeout
  }

  // ---------------------------------------------------------------- a node that is down

  /** A crashed node answers nothing and changes nothing. */
  lemma DownIsSilent(n: NodeState, m: Message, draw: Draw)
    requires n.crashed
    ensures Step(n, m, draw) == Outcome(n, []) && Tick(n, draw) == Outcome(n, []) && ReplicateNow(n) == []
    ensures forall cmd :: Propose(n, cmd) == n && ProposeRefusal(n) == Some(NodeCrashed)
  {
  }

  // ---------------------------------------------------------------- vote requests

  /** The candidate's log is at least as up to date: a later last term, or the same one and no shorter. */
  ghost predicate AtLeastAsRecent(es: Entries, lastIndex: nat, lastTerm: nat) {
    var mine := es[|es| - 1].term;
    lastTerm > mine || (lastTerm == mine && lastIndex >= |es| - 1)
  }

  ghost predicate MayVote(n: NodeState, m: Message)
    requires m.RequestVote?
  {
    && (m.term > n.currentTerm || n.votedFor == 0 || n.votedFor == m.from)
    && AtLeastAsRecent(n.log.entries, m.lastLogIndex, m.lastLogTerm)
  }

  /** A request of an earlier term is refused in the node's own term, and nothing changes. */
  lemma StaleRequestRefused(n: NodeState, m: Message, draw: Draw)
    requires !n.crashed && m.RequestVote? && m.term < n.currentTerm
    ensures Step(n, m, draw) == Outcome(n, [RequestVoteResp(n.id, m.from, n.currentTerm, false)])
  {
  }

  /** A vote is granted if and only if it is free and the candidate's log is at least as recent; granting
      resets the timer. Otherwise a refusal bearing the request's term is sent and no vote is cast. Either way
      the node is then in the term of the request, a follower if that is a later one. */
  lemma GrantIff(n: NodeState, m: Message, draw: Draw)
    requires !n.crashed && m.RequestVote? && m.term >= n.currentTerm && Aligned(n.log.entries)
    ensures var o := Step(n, m, draw); var n' := o.node;
            && o.out == [RequestVoteResp(n.id, m.from, m.term, MayVote(n, m))]
            && n'.votedFor == (if MayVote(n, m) then m.from else if m.term > n.currentTerm then 0 else n.votedFor)
            && (if MayVote(n, m) then TimerReset(n', draw) else TimerKept(n, n'))
            && n'.currentTerm == m.term && n'.role == (if m.term > n.currentTerm then Follower else n.role)
            && n'.leaderID == (if m.term > n.currentTerm then 0 else n.leaderID)
            && n'.log == n.log && SameBooks(n, n') && SameIdentity(n, n') && n'.heartbeatElapsed == n.heartbeatElapsed
  {
    var es := n.log.entries;
    assert LastIndex(es) == |es| - 1 && LastTerm(es) == es[|es| - 1].term;
  }

  // ---------------------------------------------------------------- later terms

  /** Whatever message bears a later term, it makes a live node a follower of that term; its vote is free unless
      the message was a request that it granted, and its log changes only by an AppendEntries. A reply of a later
      term is not answered and wipes what the node had counted. */
  lemma LaterTermStepsDown(n: NodeState, m: Message, draw: Draw)
    requires !n.crashed && m.term > n.currentTerm && Aligned(n.log.entries)
    ensures var o := Step(n, m, draw); var n' := o.node;
            && n'.currentTerm == m.term && n'.role == Follower && SameIdentity(n, n')
            && n'.votedFor == (if m.RequestVote? && MayVote(n, m) then m.from else 0)
            && (!m.AppendEntries? ==> n'.log == n.log && n'.leaderID == 0)
            && (m.AppendEntries? ==> n'.leaderID == m.from)
            && (m.RequestVoteResp? || m.AppendEntriesResp? ==>
                  && o.out == [] && TimerReset(n', draw)
                  && n'.votesGranted == {} && n'.nextIndex == map[] && n'.matchIndex == map[])
  {
    if m.RequestVote? {
      GrantIff(n, m, draw);
    } else {
      hide Append, FollowerCommit, MatchesPrevLogTerm, ScanCommit, Wins;
    }
  }

  /** A reply of an earlier term, or to a role the node no longer has, changes nothing. */
  lemma StaleReplyIgnored(n: NodeState, m: Message, draw: Draw)
    requires m.term <= n.currentTerm
    requires || (m.RequestVoteResp? && (m.term < n.currentTerm || n.role != Candidate))
             || (m.AppendEntriesResp? && (m.term < n.currentTerm || n.role != Leader))
    ensures Step(n, m, draw) == Outcome(n, [])
  {
  }

  // ---------------------------------------------------------------- counting votes

  /** The AppendEntries a fresh leader sends to each position of its peer list: nothing new, after its last entry. */
  ghost predicate FirstBeats(n: NodeState, out: seq<Message>) {
    && |out| == |n.peers|
    && forall i | 0 <= i < |out| ::
         out[i] == AppendEntries(n.id, n.peers[i], n.currentTerm, |n.log.entries| - 1,
                                 n.log.entries[|n.log.entries| - 1].term, [], n.log.commitIndex)
  }

  /** A live candidate that hears a reply of its term counts it, and leads if and only if a strict majority of
      the cluster has then granted: with a next index past its last entry and nothing matched for every peer, a
      fresh timer and heartbeat clock, and an empty AppendEntries to each peer. Otherwise only the count changes. */
  lemma LeadsIffMajority(n: NodeState, m: Message, draw: Draw)
    requires !n.crashed && m.RequestVoteResp? && m.term == n.currentTerm && n.role == Candidate
    requires Distinct(n.peers) && n.id !in n.peers && Aligned(n.log.entries)
    ensures var o := Step(n, m, draw); var n' := o.node;
            var votes := n.votesGranted + if m.granted then {m.from} else {};
            var wins := 2 * |votes * (Elements(n.peers) + {n.id})| > |Elements(n.peers) + {n.id}|;
            && (n'.role == Leader <==> wins) && n'.votesGranted == votes
            && SameBallot(n, n') && n'.log == n.log && SameIdentity(n, n')
            && (wins ==>
                  && n'.leaderID == n.id && TimerReset(n', draw) && n'.heartbeatElapsed == 0 && FirstBeats(n, o.out)
                  && forall p | p in n.peers :: Get(n'.nextIndex, p) == |n.log.entries| && Get(n'.matchIndex, p) == 0)
            && (!wins ==> o == Outcome(n.(votesGranted := votes), []))
  {
    var votes := n.votesGranted + if m.granted then {m.from} else {};
    WinIsMajority(n.id, n.peers, votes);
    ReplyCounts(n, m, draw, votes);
    hide Wins, Step, BecomeLeader, FirstBeats, Distinct, Aligned, VoteCount, TimerReset, SameIdentity, Elements;
    if Wins(n.id, n.peers, votes) { FreshLeader(n.(votesGranted := votes), draw); }
  }

  lemma ReplyCounts(n: NodeState, m: Message, draw: Draw, votes: set<nat>)
    requires !n.crashed && m.RequestVoteResp? && m.term == n.currentTerm && n.role == Candidate
    requires votes == n.votesGranted + if m.granted then {m.from} else {}
    ensures var c := n.(votesGranted := votes);
            Step(n, m, draw) == if Wins(n.id, n.peers, votes) then BecomeLeader(c, draw) else Outcome(c, [])
  {
    hide Wins, BecomeLeader;
    assert !m.granted ==> n.(votesGranted := votes) == n;
  }

  lemma FreshLeader(n: NodeState, draw: Draw)
    requires Aligned(n.log.entries)
    ensures var o := BecomeLeader(n, draw); var n' := o.node;
            && n'.role == Leader && n'.votesGranted == n.votesGranted
            && SameBallot(n, n') && n'.log == n.log && SameIdentity(n, n')
            && n'.leaderID == n.id && TimerReset(n', draw) && n'.heartbeatElapsed == 0 && FirstBeats(n, o.out)
            && forall p | p in n.peers :: Get(n'.nextIndex, p) == |n.log.entries| && Get(n'.matchIndex, p) == 0
  {
    var o := BecomeLeader(n, draw);
    var n' := o.node;
    forall p | p in n.peers
      ensures Get(n'.nextIndex, p) == |n.log.entries| && Get(n'.matchIndex, p) == 0
      ensures AppendFor(n', p) == AppendEntries(n.id, p, n.currentTerm, |n.log.entries| - 1,
                                                n.log.entries[|n.log.entries| - 1].term, [], n.log.commitIndex)
    {
      FreshIndexesAt(n.peers, LastIndex(n.log.entries) + 1, p);
      FreshIndexesAt(n.peers, 0, p);
    }
    hide FreshIndexes, AppendFor;
    forall i | 0 <= i < |n.peers| ensures o.out[i] == AppendFor(n', n.peers[i]) { assert n.peers[i] in n.peers; }
  }

  // ---------------------------------------------------------------- entries from a leader

  /** The node an AppendEntries of no earlier term finds: its term, its sender as leader, a fresh timer; a
      candidate or leader of the same term gives up its vote, a follower keeps it. */
  ghost predicate Heard(n: NodeState, n': NodeState, m: Message, draw: Draw)
    requires m.AppendEntries?
  {
    && n'.currentTerm == m.term && n'.role == Follower && n'.leaderID == m.from && TimerReset(n', draw)
    && n'.votedFor == (if n.role == Follower && m.term == n.currentTerm then n.votedFor else 0)
    && SameBooks(n, n') && SameIdentity(n, n') && n'.heartbeatElapsed == n.heartbeatElapsed
  }

  /** Entries of an earlier term are refused in the node's own term, and nothing changes. */
  lemma StaleEntriesRefused(n: NodeState, m: Message, draw: Draw)
    requires !n.crashed && m.AppendEntries? && m.term < n.currentTerm
    ensures Step(n, m, draw) == Outcome(n, [AppendEntriesResp(n.id, m.from, n.currentTerm, false, 0)])
  {
  }

  /** The commit index after an accepted AppendEntries: the larger of what the merge left and the leader's, the
      latter capped by the last index. */
  lemma CommitFollows(l: LogState, leaderCommit: nat)
    requires Aligned(l.entries) && l.commitIndex < |l.entries|
    ensures var last := |l.entries| - 1; var cap := if leaderCommit < last then leaderCommit else last;
            FollowerCommit(l, leaderCommit) == l.(commitIndex := if cap > l.commitIndex then cap else l.commitIndex)
  {
  }

  /** Entries of no earlier term are accepted if and only if the node holds the previous entry: then its log is
      the merged one, its commit index follows the leader's, and it acknowledges its last index. Otherwise its
      log stays and it reports its last index with a refusal. Either way it has heard its leader. */
  lemma EntriesAcceptedIff(n: NodeState, m: Message, draw: Draw)
    requires !n.crashed && m.AppendEntries? && m.term >= n.currentTerm && Aligned(n.log.entries)
    requires n.log.commitIndex < |n.log.entries| && Follows(m.entries, m.prevLogIndex)
    ensures var o := Step(n, m, draw); var n' := o.node; var es := n.log.entries; var es' := n'.log.entries;
            var held := m.prevLogIndex == 0 || (m.prevLogIndex < |es| && es[m.prevLogIndex].term == m.prevLogTerm);
            var merged := Append(n.log, m.entries).log;
            && Heard(n, n', m, draw)
            && o.out == [AppendEntriesResp(n.id, m.from, m.term, held, |es'| - 1)]
            && (!held ==> n'.log == n.log)
            && (held ==>
                  && es' == merged.entries && Aligned(es') && m.prevLogIndex + |m.entries| < |es'|
                  && (forall j | 0 <= j < |m.entries| :: es'[m.prevLogIndex + 1 + j].term == m.entries[j].term)
                  && var cap := if m.leaderCommit < |es'| - 1 then m.leaderCommit else |es'| - 1;
                     n'.log.commitIndex == if cap > merged.commitIndex then cap else merged.commitIndex)
  {
    assert LastIndex(n.log.entries) == |n.log.entries| - 1;
    if MatchesPrevLogTerm(n.log.entries, m.prevLogIndex, m.prevLogTerm) {
      MergedLog(n.log, m);
      AcceptedStep(n, m, draw);
      hide Append, FollowerCommit, Aligned, Follows, LastIndex, Step, Heard;
    } else {
      RefusedStep(n, m, draw);
      hide Append, FollowerCommit, Aligned, Follows, LastIndex, Step, Heard;
    }
  }

  /** The log an accepted AppendEntries leaves. */
  lemma MergedLog(l: LogState, m: Message)
    requires m.AppendEntries? && Aligned(l.entries) && l.commitIndex < |l.entries| && Follows(m.entries, m.prevLogIndex)
    requires MatchesPrevLogTerm(l.entries, m.prevLogIndex, m.prevLogTerm)
    ensures Append(l, m.entries).error == None
    ensures var r := Append(l, m.entries).log; var l' := FollowerCommit(r, m.leaderCommit); var last := |r.entries| - 1;
            && l'.entries == r.entries && Aligned(r.entries) && LastIndex(r.entries) == last
            && m.prevLogIndex + |m.entries| < |r.entries|
            && (forall j | 0 <= j < |m.entries| :: r.entries[m.prevLogIndex + 1 + j].term == m.entries[j].term)
            && var cap := if m.leaderCommit < last then m.leaderCommit else last;
               l'.commitIndex == if cap > r.commitIndex then cap else r.commitIndex
  {
    var r := Append(l, m.entries).log;
    AppendKeepsAligned(l, m.entries, m.prevLogIndex);
    var _ := AppendHoldsBatch(l, m.entries, m.prevLogIndex);
    CommitAfterMerge(l, m, r);
    hide Append, Follows;
    CommitFollows(r, m.leaderCommit);
  }

  lemma RefusedStep(n: NodeState, m: Message, draw: Draw)
    requires !n.crashed && m.AppendEntries? && m.term >= n.currentTerm
    requires !MatchesPrevLogTerm(n.log.entries, m.prevLogIndex, m.prevLogTerm)
    ensures var o := Step(n, m, draw);
            && Heard(n, o.node, m, draw) && o.node.log == n.log
            && o.out == [AppendEntriesResp(n.id, m.from, m.term, false, LastIndex(n.log.entries))]
  {
    hide Append, FollowerCommit, LastIndex, MatchesPrevLogTerm;
  }

  lemma AcceptedStep(n: NodeState, m: Message, draw: Draw)
    requires !n.crashed && m.AppendEntries? && m.term >= n.currentTerm
    requires MatchesPrevLogTerm(n.log.entries, m.prevLogIndex, m.prevLogTerm) && Append(n.log, m.entries).error == None
    ensures var o := Step(n, m, draw); var r := Append(n.log, m.entries).log;
            && Heard(n, o.node, m, draw) && o.node.log == FollowerCommit(r, m.leaderCommit)
            && o.out == [AppendEntriesResp(n.id, m.from, m.term, true, LastIndex(r.entries))]
  {
    hide Append, FollowerCommit, LastIndex, MatchesPrevLogTerm;
  }

  /** A batch with a gap is refused like a missing previous entry: the log stays, the leader is heard. */
  lemma GapRefused(n: NodeState, m: Message, draw: Draw)
    requires !n.crashed && m.AppendEntries? && m.term >= n.currentTerm && Aligned(n.log.entries)
             && !Contiguous(m.entries)
    ensures var o := Step(n, m, draw);
            && Heard(n, o.node, m, draw) && o.node.log == n.log
            && o.out == [AppendEntriesResp(n.id, m.from, m.term, false, |n.log.entries| - 1)]
  {
    assert LastIndex(n.log.entries) == |n.log.entries| - 1;
    assert Append(n.log, m.entries).error.Some?;
    hide Append, Aligned, Contiguous, LastIndex, MatchesPrevLogTerm;
  }

  // ---------------------------------------------------------------- acknowledgements

  /** A refusal of its own term takes a live leader's next index for that peer one back, but not below 1, and
      nothing else. */
  lemma RefusalStepsBack(n: NodeState, m: Message, draw: Draw)
    requires !n.crashed && m.AppendEntriesResp? && !m.success && m.term == n.currentTerm && n.role == Leader
    ensures var o := Step(n, m, draw); var ni := Get(n.nextIndex, m.from);
            && o.out == [] && o.node.(nextIndex := n.nextIndex) == n
            && Get(o.node.nextIndex, m.from) == (if ni > 1 then ni - 1 else ni)
            && forall p | p != m.from :: Get(o.node.nextIndex, p) == Get(n.nextIndex, p)
  {
  }

  /** An acknowledgement of its own term sets a live leader's match and next index for that peer, and beyond that
      changes at most the commit index, which never falls and rises only to an entry of the current term. */
  lemma AckIsCounted(n: NodeState, m: Message, draw: Draw)
    requires !n.crashed && m.AppendEntriesResp? && m.success && m.term == n.currentTerm && n.role == Leader
    ensures var o := Step(n, m, draw); var n' := o.node; var c := n'.log.commitIndex;
            && o.out == [] && n'.log.entries == n.log.entries
            && n'.(log := n.log, matchIndex := n.matchIndex, nextIndex := n.nextIndex) == n
            && n'.matchIndex == n.matchIndex[m.from := m.matchIndex]
            && n'.nextIndex == n.nextIndex[m.from := m.matchIndex + 1]
            && (c == n.log.commitIndex
                || (n.log.commitIndex < c < |n.log.entries| && n.log.entries[c].term == n.currentTerm
                    && ReplicatedOnMajority(n', c)))
  {
    hide ReplicatedOnMajority, AtLeast;
    var k := n.(matchIndex := n.matchIndex[m.from := m.matchIndex],
      nextIndex := n.nextIndex[m.from := m.matchIndex + 1]);
    ScanResult(k, LastIndex(n.log.entries));
    SameCount(k, Step(n, m, draw).node);
  }

  lemma {:induction false} ScanResult(n: NodeState, idx: nat)
    ensures var c := ScanCommit(n, idx);
            c == n.log.commitIndex
            || (n.log.commitIndex < c < |n.log.entries| && n.log.entries[c].term == n.currentTerm
                && ReplicatedOnMajority(n, c))
  {
    hide ReplicatedOnMajority;
    if idx > n.log.commitIndex { ScanResult(n, idx - 1); }
  }

  lemma SameCount(n: NodeState, n': NodeState)
    requires n'.peers == n.peers && n'.matchIndex == n.matchIndex
    ensures forall c: nat :: ReplicatedOnMajority(n', c) == ReplicatedOnMajority(n, c)
  {
    forall c: nat ensures ReplicatedOnMajority(n', c) == ReplicatedOnMajority(n, c) {
      assert AtLeast(n', c) == AtLeast(n, c);
    }
  }

  // ---------------------------------------------------------------- ticks

  /** An election was started: the next term, the own vote and nobody else's, and exactly one request per position
      of the peer list that names the candidate's last entry. */
  ghost predicate StartsElection(n: NodeState, n': NodeState, out: seq<Message>, draw: Draw) {
    var es := n.log.entries;
    && n'.role == Candidate && n'.currentTerm == n.currentTerm + 1 && n'.votedFor == n.id && n'.votesGranted == {n.id}
    && n'.leaderID == 0 && TimerReset(n', draw) && n'.log == n.log && SameIdentity(n, n')
    && n'.nextIndex == n.nextIndex && n'.matchIndex == n.matchIndex && n'.heartbeatElapsed == n.heartbeatElapsed
    && |out| == |n.peers|
    && forall i | 0 <= i < |out| ::
         out[i] == RequestVote(n.id, n.peers[i], n.currentTerm + 1, |es| - 1, es[|es| - 1].term)
  }

  /** A tick starts an election if and only if a live node that does not lead, candidate or follower, has reached
      its timeout; any other live node that does not lead only ages by one tick. */
  lemma CampaignsIff(n: NodeState, draw: Draw)
    requires Aligned(n.log.entries)
    ensures var o := Tick(n, draw);
            && (StartsElection(n, o.node, o.out, draw) <==>
                !n.crashed && n.role != Leader && n.electionElapsed + 1 >= n.electionTimeout)
            && (!n.crashed && n.role != Leader && n.electionElapsed + 1 < n.electionTimeout ==>
                  o == Outcome(n.(electionElapsed := n.electionElapsed + 1), []))
  {
    var es := n.log.entries;
    assert LastIndex(es) == |es| - 1 && LastTerm(es) == es[|es| - 1].term;
  }

  /** A tick of a live leader sends its AppendEntries to each peer, in order, if and only if its heartbeat is
      due; nothing but the two clocks changes. */
  lemma BeatsIff(n: NodeState, draw: Draw)
    requires !n.crashed && n.role == Leader
    ensures var o := Tick(n, draw); var due := n.heartbeatElapsed + 1 >= HEARTBEAT_INTERVAL;
            && o.node == n.(electionElapsed := n.electionElapsed + 1,
                            heartbeatElapsed := if due then 0 else n.heartbeatElapsed + 1)
            && |o.out| == (if due then |n.peers| else 0)
            && forall i | 0 <= i < |o.out| :: o.out[i] == AppendFor(n, n.peers[i])
  {
    hide AppendFor;
    forall p ensures AppendFor(n, p) == AppendFor(Tick(n, draw).node, p) { SameAppends(n, Tick(n, draw).node, p); }
  }

  lemma SameAppends(n: NodeState, n': NodeState, p: nat)
    requires n'.id == n.id && n'.currentTerm == n.currentTerm && n'.log == n.log && n'.nextIndex == n.nextIndex
    ensures AppendFor(n', p) == AppendFor(n, p)
  {
  }

  /** `k` ticks of a node that hears nothing, with their draws. */
  function Aged(n: NodeState, draws: seq<Draw>): Outcome {
    if draws == [] then Outcome(n, [])
    else
      var o := Aged(n, draws[..|draws| - 1]);
      var t := Tick(o.node, draws[|draws| - 1]);
      Outcome(t.node, o.out + t.out)
  }

  /** A live node that does not lead and hears nothing, candidate or follower, is silent for as many ticks as its
      timer has left and campaigns on exactly that tick. */
  lemma {:induction false} CampaignsOnTime(n: NodeState, draws: seq<Draw>)
    requires Aligned(n.log.entries) && !n.crashed && n.role != Leader && n.electionElapsed < n.electionTimeout
    requires |draws| <= n.electionTimeout - n.electionElapsed
    ensures |draws| < n.electionTimeout - n.electionElapsed ==>
              Aged(n, draws) == Outcome(n.(electionElapsed := n.electionElapsed + |draws|), [])
    ensures |draws| == n.electionTimeout - n.electionElapsed ==>
              StartsElection(n, Aged(n, draws).node, Aged(n, draws).out, draws[|draws| - 1])
  {
    if draws != [] {
      var init, d := draws[..|draws| - 1], draws[|draws| - 1];
      CampaignsOnTime(n, init);
      CampaignsIff(Aged(n, init).node, d);
      hide Tick;
      assert [] + Tick(Aged(n, init).node, d).out == Tick(Aged(n, init).node, d).out;
    }
  }

  // ---------------------------------------------------------------- the client and the machine

  /** A proposal is refused by a node that is down or does not lead, and then nothing changes; otherwise the log
      grows by exactly one entry of the current term with the command, at the next index. */
  lemma ProposalLaw(n: NodeState, cmd: seq<Byte>)
    requires Aligned(n.log.entries)
    ensures var n' := Propose(n, cmd); var es := n.log.entries;
            && ProposeRefusal(n)
               == (if n.crashed then Some(NodeCrashed) else if n.role != Leader then Some(NotLeader) else None)
            && (ProposeRefusal(n).Some? ==> n' == n)
            && (ProposeRefusal(n).None? ==> n' == n.(log := n.log.(entries := es + [Entry(n.currentTerm, |es|, cmd)])))
  {
    if ProposeRefusal(n).None? { ProposeAppends(n, cmd); }
  }

  /** On request a live leader sends its AppendEntries to each peer, in order; nobody else sends anything. */
  lemma ReplicationLaw(n: NodeState)
    ensures var out := ReplicateNow(n);
            && |out| == (if !n.crashed && n.role == Leader then |n.peers| else 0)
            && forall i | 0 <= i < |out| :: out[i] == AppendFor(n, n.peers[i])
  {
    hide AppendFor;
  }

  /** A crash keeps what is durable and forgets the rest; crashing twice is crashing once. */
  lemma CrashLaw(n: NodeState)
    ensures var n' := Crash(n);
            && n'.crashed && n'.currentTerm == n.currentTerm && n'.votedFor == n.votedFor && n'.log == n.log
            && n'.id == n.id && n'.peers == n.peers && Crash(n') == n'
            && (!n.crashed ==> n'.role == Follower && n'.leaderID == 0 && n'.votesGranted == {}
                               && n'.nextIndex == map[] && n'.matchIndex == map[])
  {
  }
}
