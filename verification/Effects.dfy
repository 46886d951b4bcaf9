/** The distinct things one event can do to a node, as relations between the node before, the node
    after and the messages sent. `Classify` shows the list is complete; the protocol proofs go
    through these relations and never look inside the handlers again.
 */
module Effects {
  import opened RaftLog
  import opened Quorum
  import opened NodeModel
  import opened NetworkModel

  ghost predicate Rejections(out: seq<Message>) {
    forall m | m in out :: (m.RequestVoteResp? && !m.granted) || (m.AppendEntriesResp? && !m.success)
  }

  ghost predicate SameBooks(n: NodeState, n': NodeState) {
    n'.votesGranted == n.votesGranted && n'.nextIndex == n.nextIndex && n'.matchIndex == n.matchIndex
  }

  ghost predicate SameBallot(n: NodeState, n': NodeState) {
    n'.currentTerm == n.currentTerm && n'.votedFor == n.votedFor
  }

  /** No next index grew, and none fell below 1. */
  ghost predicate NextStepsBack(n: NodeState, n': NodeState) {
    forall p {:trigger Get(n'.nextIndex, p)} ::
      Get(n'.nextIndex, p) == Get(n.nextIndex, p) || 1 <= Get(n'.nextIndex, p) <= Get(n.nextIndex, p)
  }

  /** Nothing but timers, a lost role, or a next index stepping back. */
  ghost predicate Calm(n: NodeState, n': NodeState, out: seq<Message>) {
    && SameBallot(n, n') && n'.log == n.log && Rejections(out)
    && (n'.role == Follower
        || (n'.role == n.role && n'.votesGranted == n.votesGranted && n'.matchIndex == n.matchIndex
           && NextStepsBack(n, n')))
  }

  /** Moved to a later term as a follower without a vote. */
  ghost predicate Bumped(n: NodeState, n': NodeState, out: seq<Message>) {
    n'.currentTerm > n.currentTerm && n'.votedFor == 0 && n'.role == Follower && n'.log == n.log && Rejections(out)
  }

  ghost predicate Campaigned(n: NodeState, n': NodeState, out: seq<Message>) {
    && n'.currentTerm == n.currentTerm + 1 && n'.votedFor == n.id && n'.role == Candidate
    && n'.votesGranted == {n.id} && n'.log == n.log && out == VoteRequests(n')
  }

  ghost predicate Granted(n: NodeState, n': NodeState, out: seq<Message>, m: Message) {
    && m.RequestVote? && n'.currentTerm == m.term >= n.currentTerm && n'.votedFor == m.from && n'.log == n.log
    && (m.term == n.currentTerm ==> (n.votedFor == 0 || n.votedFor == m.from) && n'.role == n.role && SameBooks(n, n'))
    && (m.term > n.currentTerm ==> n'.role == Follower)
    && UpToDate(n.log.entries, m.lastLogIndex, m.lastLogTerm)
    && out == [RequestVoteResp(n.id, m.from, m.term, true)]
  }

  ghost predicate CountsVote(n: NodeState, n': NodeState, m: Message) {
    && m.RequestVoteResp? && m.term == n.currentTerm && n.role == Candidate
    && SameBallot(n, n') && n'.log == n.log
    && n'.votesGranted == n.votesGranted + if m.granted then {m.from} else {}
  }

  ghost predicate Tallied(n: NodeState, n': NodeState, out: seq<Message>, m: Message) {
    CountsVote(n, n', m) && n'.role == Candidate && out == []
  }

  ghost predicate Elected(n: NodeState, n': NodeState, out: seq<Message>, m: Message) {
    && CountsVote(n, n', m) && n'.role == Leader && Wins(n.id, n.peers, n'.votesGranted)
    && n'.nextIndex == FreshIndexes(n.peers, LastIndex(n.log.entries) + 1)
    && n'.matchIndex == FreshIndexes(n.peers, 0)
    && out == Broadcast(n')
  }

  ghost predicate Beat(n: NodeState, n': NodeState, out: seq<Message>) {
    n.role == n'.role == Leader && SameBallot(n, n') && SameBooks(n, n') && n'.log == n.log && out == Broadcast(n')
  }

  /** Accepted a leader of this or a later term; its entries were refused or merged. */
  ghost predicate Followed(n: NodeState, n': NodeState, out: seq<Message>, m: Message) {
    && m.AppendEntries? && n'.currentTerm == m.term >= n.currentTerm && n'.role == Follower
    && n'.votedFor == (if n.role != Follower || m.term > n.currentTerm then 0 else n.votedFor)
    && ((n'.log == n.log && Rejections(out)) || Merged(n, n', out, m))
  }

  ghost predicate Merged(n: NodeState, n': NodeState, out: seq<Message>, m: Message)
    requires m.AppendEntries?
  {
    var a := Append(n.log, m.entries);
    && MatchesPrevLogTerm(n.log.entries, m.prevLogIndex, m.prevLogTerm)
    && a.error == None
    && n'.log == FollowerCommit(a.log, m.leaderCommit)
    && out == [AppendEntriesResp(n.id, m.from, m.term, true, LastIndex(a.log.entries))]
  }

  /** A leader counted a follower's acknowledgement. */
  ghost predicate Counted(n: NodeState, n': NodeState, out: seq<Message>, m: Message) {
    && m.AppendEntriesResp? && m.success && m.term == n.currentTerm
    && n.role == n'.role == Leader && SameBallot(n, n')
    && n'.matchIndex == n.matchIndex[m.from := m.matchIndex]
    && n'.nextIndex == n.nextIndex[m.from := m.matchIndex + 1]
    && n'.log.entries == n.log.entries
    && n'.log.commitIndex == ScanCommit(n'.(log := n.log), LastIndex(n.log.entries))
    && out == []
  }

  ghost predicate Proposed(n: NodeState, n': NodeState, out: seq<Message>) {
    && n.role == n'.role == Leader && SameBallot(n, n') && SameBooks(n, n') && out == []
    && var es, es' := n.log.entries, n'.log.entries;
    && n'.log.commitIndex == n.log.commitIndex
    && |es'| == |es| + 1 && es'[..|es|] == es && es'[|es|].term == n.currentTerm && es'[|es|].index == |es|
  }

  ghost predicate Rebooted(n: NodeState, n': NodeState, out: seq<Message>) {
    SameBallot(n, n') && n'.role == Follower && n'.log == LogState(n.log.entries, 0) && out == []
  }

  /** The effects that depend on no message. */
  ghost predicate LocalEffect(n: NodeState, n': NodeState, out: seq<Message>) {
    || Calm(n, n', out) || Bumped(n, n', out) || Campaigned(n, n', out)
    || Beat(n, n', out) || Proposed(n, n', out) || Rebooted(n, n', out)
  }

  ghost predicate MessageEffect(n: NodeState, n': NodeState, out: seq<Message>, m: Message) {
    || Granted(n, n', out, m) || Tallied(n, n', out, m) || Elected(n, n', out, m)
    || Followed(n, n', out, m) || Counted(n, n', out, m)
  }

  lemma ClassifyRequestVote(n: NodeState, m: Message, draw: Draw)
    requires m.RequestVote?
    ensures var o := HandleRequestVote(n, m, draw);
            Calm(n, o.node, o.out) || Bumped(n, o.node, o.out) || Granted(n, o.node, o.out, m)
  {
  }

  lemma ClassifyRequestVoteResp(n: NodeState, m: Message, draw: Draw)
    requires m.RequestVoteResp?
    ensures var o := HandleRequestVoteResp(n, m, draw);
            Calm(n, o.node, o.out) || Bumped(n, o.node, o.out) || Tallied(n, o.node, o.out, m)
              || Elected(n, o.node, o.out, m)
  {
    hide Wins, Broadcast;
  }

  lemma ClassifyAppendEntries(n: NodeState, m: Message, draw: Draw)
    requires m.AppendEntries?
    ensures var o := HandleAppendEntries(n, m, draw); Calm(n, o.node, o.out) || Followed(n, o.node, o.out, m)
  {
    hide Append, FollowerCommit, MatchesPrevLogTerm;
  }

  lemma ClassifyAppendEntriesResp(n: NodeState, m: Message, draw: Draw)
    requires m.AppendEntriesResp?
    ensures var o := HandleAppendEntriesResp(n, m, draw);
            Calm(n, o.node, o.out) || Bumped(n, o.node, o.out) || Counted(n, o.node, o.out, m)
  {
    hide ScanCommit;
  }

  lemma ClassifyStep(n: NodeState, m: Message, draw: Draw)
    ensures var o := Step(n, m, draw); LocalEffect(n, o.node, o.out) || MessageEffect(n, o.node, o.out, m)
  {
    hide HandleRequestVote, HandleRequestVoteResp, HandleAppendEntries, HandleAppendEntriesResp;
    if !n.crashed {
      match m
      case RequestVote(_, _, _, _, _) => ClassifyRequestVote(n, m, draw);
      case RequestVoteResp(_, _, _, _) => ClassifyRequestVoteResp(n, m, draw);
      case AppendEntries(_, _, _, _, _, _, _) => ClassifyAppendEntries(n, m, draw);
      case AppendEntriesResp(_, _, _, _, _) => ClassifyAppendEntriesResp(n, m, draw);
    }
  }

  /** Every enabled event has one of the listed effects on an aligned node. */
  lemma Classify(n: NodeState, e: Event)
    requires Aligned(n.log.entries)
    requires e.RestartEvent? ==> Representable(n)
    ensures var o := React(n, e);
            LocalEffect(n, o.node, o.out) || (e.DeliverEvent? && MessageEffect(n, o.node, o.out, e.m))
    ensures React(n, e).node.id == n.id && React(n, e).node.peers == n.peers
  {
    ReactKeepsIdentity(n, e);
    match e
    case DeliverEvent(m, draw) => ClassifyStep(n, m, draw);
    case RestartEvent(_, draw) => if n.crashed { RestartPreserves(n, draw); }
    case TickEvent(_, draw) =>
      var o := Tick(n, draw);
      assert Calm(n, o.node, o.out) || Campaigned(n, o.node, o.out) || Beat(n, o.node, o.out);
    case ReplicateEvent(_) =>
      var o := React(n, e);
      assert Calm(n, o.node, o.out) || Beat(n, o.node, o.out);
    case ProposeEvent(_, cmd) =>
      if ProposeRefusal(n) == None { ProposeAppends(n, cmd); }
    case CrashEvent(_) =>
  }

  lemma ProposeAppends(n: NodeState, cmd: seq<Byte>)
    requires Aligned(n.log.entries) && ProposeRefusal(n) == None
    ensures Propose(n, cmd).log == n.log.(entries := n.log.entries + [Entry(n.currentTerm, |n.log.entries|, cmd)])
  {
    var last := LastIndex(n.log.entries);
    assert last == |n.log.entries| - 1;
    FollowsIsContiguous([Entry(n.currentTerm, last + 1, cmd)], last);
  }

  /** Every message goes from its sender to a peer or back to whom it answers. */
  lemma ReactAddresses(n: NodeState, e: Event)
    ensures forall m | m in React(n, e).out ::
              m.from == n.id && (m.to in n.peers || (e.DeliverEvent? && m.to == e.m.from))
  {
    var o := React(n, e);
    forall m | m in o.out ensures m.from == n.id && (m.to in n.peers || (e.DeliverEvent? && m.to == e.m.from)) {
      var i :| 0 <= i < |o.out| && o.out[i] == m;
    }
  }

  /** What a leader broadcasts, message by message. */
  lemma BroadcastMember(n: NodeState, m: Message)
    requires m in Broadcast(n)
    ensures m.to in n.peers && m == AppendFor(n, m.to)
  {
    var i :| 0 <= i < |n.peers| && Broadcast(n)[i] == m;
  }

  lemma VoteRequestMember(n: NodeState, m: Message)
    requires m in VoteRequests(n)
    ensures m.RequestVote?
  {
    var i :| 0 <= i < |n.peers| && VoteRequests(n)[i] == m;
  }

  // ---------------------------------------------------------------- when a vote is lost

  /** The guard of the branch that clears a vote inside a term: a live candidate or leader is handed an
      AppendEntries of its own term. */
  predicate ClearsVote(n: NodeState, e: Event) {
    !n.crashed && n.role != Follower && e.DeliverEvent? && e.m.AppendEntries? && e.m.term == n.currentTerm
  }

  /** A vote once cast changes inside its term exactly on that guard, whatever the event, the wiring and
      the history; and then it is cleared. */
  lemma VoteLostIff(n: NodeState, e: Event)
    requires Aligned(n.log.entries) && n.votedFor != 0
    requires e.RestartEvent? ==> Representable(n)
    ensures var n' := React(n, e).node;
            n'.currentTerm == n.currentTerm && n'.votedFor != n.votedFor <==> ClearsVote(n, e)
    ensures ClearsVote(n, e) ==> React(n, e).node.votedFor == 0
  {
    hide Append, FollowerCommit, MatchesPrevLogTerm, UpToDate, ScanCommit, Wins, Broadcast, VoteRequests, FreshIndexes,
      Representable, Restart;
    if e.RestartEvent? && n.crashed { RestartPreserves(n, e.draw); }
    if e.RestartEvent? && !n.crashed { RestartOfLive(n, e.draw); }
  }

  lemma RestartOfLive(n: NodeState, draw: Draw)
    requires !n.crashed
    ensures Restart(n, draw) == RestartOutcome(n, true)
  {
  }

  // ---------------------------------------------------------------- alignment, for any wiring

  /** The entries of an AppendEntries follow its previous index without a gap. */
  ghost predicate WellIndexed(m: Message) {
    m.AppendEntries? ==> Follows(m.entries, m.prevLogIndex)
  }

  ghost predicate AlignedNet(net: Net) {
    && (forall id | id in net.nodes :: Aligned(net.nodes[id].log.entries))
    && (forall m | m in net.pool :: WellIndexed(m))
  }

  lemma AppendForIsWellIndexed(n: NodeState, p: nat)
    requires Aligned(n.log.entries)
    ensures WellIndexed(AppendFor(n, p))
  {
    var es, ni := n.log.entries, Get(n.nextIndex, p);
    if ni <= LastIndex(es) {
      var lo := if ni < 1 then 1 else ni;
      assert Slice(es, ni, LastIndex(es) + 1) == es[lo..];
    }
  }

  lemma EffectKeepsAligned(n: NodeState, n': NodeState, out: seq<Message>, m: Message)
    requires Aligned(n.log.entries) && WellIndexed(m)
    requires LocalEffect(n, n', out) || MessageEffect(n, n', out, m)
    ensures Aligned(n'.log.entries) && forall x | x in out :: WellIndexed(x)
  {
    if Followed(n, n', out, m) && n'.log != n.log {
      AppendKeepsAligned(n.log, m.entries, m.prevLogIndex);
    } else if Proposed(n, n', out) {
      var es, es' := n.log.entries, n'.log.entries;
      assert es' == es + [es'[|es|]];
    }
    forall x | x in out ensures WellIndexed(x) {
      if Beat(n, n', out) || Elected(n, n', out, m) {
        BroadcastMember(n', x);
        AppendForIsWellIndexed(n', x.to);
      } else if Campaigned(n, n', out) {
        var i :| 0 <= i < |out| && out[i] == x;
      }
    }
  }

  /** An aligned node stays aligned under every event whose message, if any, is well indexed, and
      sends only well-indexed messages. Only a restart needs the 64-bit bound. */
  lemma ReactKeepsAligned(n: NodeState, e: Event)
    requires Aligned(n.log.entries)
    requires e.DeliverEvent? ==> WellIndexed(e.m)
    requires e.RestartEvent? ==> Representable(n)
    ensures Aligned(React(n, e).node.log.entries)
    ensures forall m | m in React(n, e).out :: WellIndexed(m)
  {
    var o := React(n, e);
    Classify(n, e);
    EffectKeepsAligned(n, o.node, o.out, if e.DeliverEvent? then e.m else RequestVote(0, 0, 0, 0, 0));
  }

  lemma ApplyKeepsAligned(net: Net, e: Event)
    requires AlignedNet(net)
    ensures AlignedNet(Apply(net, e))
  {
    if Enabled(net, e) {
      ReactKeepsAligned(net.nodes[Target(e)], e);
    }
  }
}
