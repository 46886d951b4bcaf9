/** One Raft peer as a value and its transitions as functions: each takes the peer (and a message,
    a command or a draw of the random source) to the peer afterwards and the messages it sends.

    These functions specify class `Node` (file Node.dfy) and drive the network of NetworkModel.
    A `Draw` is the value `Intn` returned; no transition draws more than once.
 */
module NodeModel {
  import opened RaftLog
  import opened Persistence
  import opened Quorum

  const ELECTION_TIMEOUT_MIN := 10
  const ELECTION_TIMEOUT_MAX := 20
  const HEARTBEAT_INTERVAL := 2

  /** A result of `Intn(span)` for the span of the election timeout. */
  type Draw = d: nat | d < ELECTION_TIMEOUT_MAX - ELECTION_TIMEOUT_MIN + 1

  datatype Role = Follower | Candidate | Leader

  datatype Message =
    | RequestVote(from: nat, to: nat, term: nat, lastLogIndex: nat, lastLogTerm: nat)
    | RequestVoteResp(from: nat, to: nat, term: nat, granted: bool)
    | AppendEntries(from: nat, to: nat, term: nat, prevLogIndex: nat, prevLogTerm: nat,
                    entries: seq<Entry>, leaderCommit: nat)
    | AppendEntriesResp(from: nat, to: nat, term: nat, success: bool, matchIndex: nat)

  /** Id 0 in `votedFor` and `leaderID` means nobody. */
  datatype NodeState = NodeState(
    id: nat,
    peers: seq<nat>,
    currentTerm: nat,
    votedFor: nat,
    log: LogState,
    role: Role,
    leaderID: nat,
    electionTimeout: nat,
    electionElapsed: nat,
    heartbeatElapsed: nat,
    votesGranted: set<nat>,
    nextIndex: map<nat, nat>,
    matchIndex: map<nat, nat>,
    crashed: bool)

  datatype Outcome = Outcome(node: NodeState, out: seq<Message>)

  datatype ProposeError = NodeCrashed | NotLeader

  /** Reading a map entry that may be absent yields 0. */
  function Get(m: map<nat, nat>, k: nat): nat {
    if k in m then m[k] else 0
  }

  function InitNode(id: nat, peers: seq<nat>, draw: Draw): NodeState {
    NodeState(id, peers, 0, 0, EMPTY_LOG, Follower, 0, ELECTION_TIMEOUT_MIN + draw, 0, 0, {}, map[], map[], false)
  }

  function ResetElectionTimer(n: NodeState, draw: Draw): NodeState {
    n.(electionElapsed := 0, electionTimeout := ELECTION_TIMEOUT_MIN + draw)
  }

  predicate UpToDate(es: Entries, lastIndex: nat, lastTerm: nat) {
    if lastTerm != LastTerm(es) then lastTerm > LastTerm(es) else lastIndex >= LastIndex(es)
  }

  // ---------------------------------------------------------------- messages to every peer

  function VoteRequests(n: NodeState): seq<Message> {
    seq(|n.peers|, i requires 0 <= i < |n.peers| =>
      RequestVote(n.id, n.peers[i], n.currentTerm, LastIndex(n.log.entries), LastTerm(n.log.entries)))
  }

  /** The AppendEntries a leader sends to peer `p`: everything from `nextIndex[p]`, preceded by the
      index before it, or by index 0 when that index lies past the end of the leader's log. */
  function AppendFor(n: NodeState, p: nat): Message {
    var ni := Get(n.nextIndex, p);
    var es := n.log.entries;
    var prev := if ni > 1 && ni - 1 < |es| then ni - 1 else 0;
    var prevTerm := if prev > 0 then es[prev].term else 0;
    var tail := if ni <= LastIndex(es) then Slice(es, ni, LastIndex(es) + 1) else [];
    AppendEntries(n.id, p, n.currentTerm, prev, prevTerm, tail, n.log.commitIndex)
  }

  function Broadcast(n: NodeState): seq<Message> {
    seq(|n.peers|, i requires 0 <= i < |n.peers| => AppendFor(n, n.peers[i]))
  }

  // ---------------------------------------------------------------- role changes

  function StartElection(n: NodeState, draw: Draw): Outcome {
    var n' := ResetElectionTimer(
                n.(currentTerm := n.currentTerm + 1, role := Candidate, votedFor := n.id,
                votesGranted := {n.id}, leaderID := 0), draw);
    Outcome(n', VoteRequests(n'))
  }

  function FreshIndexes(peers: seq<nat>, v: nat): map<nat, nat> {
    if peers == [] then map[] else FreshIndexes(peers[..|peers| - 1], v)[peers[|peers| - 1] := v]
  }

  lemma {:induction false} FreshIndexesAt(peers: seq<nat>, v: nat, p: nat)
    requires p in peers
    ensures p in FreshIndexes(peers, v) && FreshIndexes(peers, v)[p] == v
  {
    if p != peers[|peers| - 1] {
      assert p in peers[..|peers| - 1];
      FreshIndexesAt(peers[..|peers| - 1], v, p);
    }
  }

  function BecomeLeader(n: NodeState, draw: Draw): Outcome {
    var n' := ResetElectionTimer(n.(role := Leader, leaderID := n.id), draw).(
              heartbeatElapsed := 0,
              nextIndex := FreshIndexes(n.peers, LastIndex(n.log.entries) + 1),
              matchIndex := FreshIndexes(n.peers, 0));
    Outcome(n', Broadcast(n'))
  }

  function StepDown(n: NodeState, term: nat, draw: Draw): NodeState {
    ResetElectionTimer(
      n.(currentTerm := term, role := Follower, votedFor := 0, leaderID := 0,
      votesGranted := {}, nextIndex := map[], matchIndex := map[]), draw)
  }

  // ---------------------------------------------------------------- ticks

  function Tick(n: NodeState, draw: Draw): Outcome {
    if n.crashed then Outcome(n, [])
    else
      var t := n.(electionElapsed := n.electionElapsed + 1);
      if t.role != Leader then
        if t.electionElapsed >= t.electionTimeout then StartElection(t, draw) else Outcome(t, [])
      else
        var h := t.(heartbeatElapsed := t.heartbeatElapsed + 1);
        if h.heartbeatElapsed >= HEARTBEAT_INTERVAL then
          var b := h.(heartbeatElapsed := 0);
          Outcome(b, Broadcast(b))
        else Outcome(h, [])
  }

  // ---------------------------------------------------------------- message handlers

  function HandleRequestVote(n: NodeState, m: Message, draw: Draw): Outcome
    requires m.RequestVote?
  {
    if m.term < n.currentTerm then
      Outcome(n, [RequestVoteResp(n.id, m.from, n.currentTerm, false)])
    else
      var f := if m.term > n.currentTerm
               then n.(currentTerm := m.term, votedFor := 0, role := Follower, leaderID := 0) else n;
      if (f.votedFor == 0 || f.votedFor == m.from) && UpToDate(f.log.entries, m.lastLogIndex, m.lastLogTerm) then
        Outcome(ResetElectionTimer(f.(votedFor := m.from), draw), [RequestVoteResp(f.id, m.from, f.currentTerm, true)])
      else
        Outcome(f, [RequestVoteResp(f.id, m.from, f.currentTerm, false)])
  }

  function HandleRequestVoteResp(n: NodeState, m: Message, draw: Draw): Outcome
    requires m.RequestVoteResp?
  {
    if m.term > n.currentTerm then Outcome(StepDown(n, m.term, draw), [])
    else if m.term == n.currentTerm && n.role == Candidate then
      var c := if m.granted then n.(votesGranted := n.votesGranted + {m.from}) else n;
      if Wins(c.id, c.peers, c.votesGranted) then BecomeLeader(c, draw) else Outcome(c, [])
    else Outcome(n, [])
  }

  /** The follower an AppendEntries of a term at least the current one leaves: a candidate or leader
      of that same term loses its vote on the way. */
  function AcceptLeader(n: NodeState, m: Message, draw: Draw): NodeState
    requires m.AppendEntries?
  {
    var f := if n.role != Follower || m.term > n.currentTerm
             then n.(currentTerm := m.term, role := Follower, votedFor := 0) else n;
    ResetElectionTimer(f.(leaderID := m.from), draw)
  }

  /** The commit index a follower adopts: the leader's, capped by its own last index. */
  function FollowerCommit(l: LogState, leaderCommit: nat): LogState {
    if leaderCommit > l.commitIndex then
      CommitTo(l, if leaderCommit > LastIndex(l.entries) then LastIndex(l.entries) else leaderCommit).log
    else l
  }

  function HandleAppendEntries(n: NodeState, m: Message, draw: Draw): Outcome
    requires m.AppendEntries?
  {
    if m.term < n.currentTerm then
      Outcome(n, [AppendEntriesResp(n.id, m.from, n.currentTerm, false, 0)])
    else
      var f := AcceptLeader(n, m, draw);
      if !MatchesPrevLogTerm(f.log.entries, m.prevLogIndex, m.prevLogTerm) then
        Outcome(f, [AppendEntriesResp(f.id, m.from, f.currentTerm, false, LastIndex(f.log.entries))])
      else
        var appended := Append(f.log, m.entries);
        if appended.error.Some? then
          Outcome(f, [AppendEntriesResp(f.id, m.from, f.currentTerm, false, LastIndex(f.log.entries))])
        else
          Outcome(f.(log := FollowerCommit(appended.log, m.leaderCommit)),
                  [AppendEntriesResp(f.id, m.from, f.currentTerm, true, LastIndex(appended.log.entries))])
  }

  /** The leader and the peers whose match index has reached `idx` form a majority. */
  predicate ReplicatedOnMajority(n: NodeState, idx: nat) {
    1 + CountIn(n.peers, AtLeast(n, idx)) >= MajorityOf(n.peers)
  }

  function AtLeast(n: NodeState, idx: nat): set<nat> {
    set p | p in n.peers && Get(n.matchIndex, p) >= idx
  }

  /** The commit index found by scanning down from `idx` for an entry of the current term that a
      majority holds. */
  function ScanCommit(n: NodeState, idx: nat): nat {
    if idx <= n.log.commitIndex || idx >= |n.log.entries| then n.log.commitIndex
    else if n.log.entries[idx].term == n.currentTerm && ReplicatedOnMajority(n, idx) then
      if idx <= LastIndex(n.log.entries) then idx else n.log.commitIndex
    else ScanCommit(n, idx - 1)
  }

  function AdvanceCommit(n: NodeState): NodeState {
    n.(log := n.log.(commitIndex := ScanCommit(n, LastIndex(n.log.entries))))
  }

  function HandleAppendEntriesResp(n: NodeState, m: Message, draw: Draw): Outcome
    requires m.AppendEntriesResp?
  {
    if m.term > n.currentTerm then Outcome(StepDown(n, m.term, draw), [])
    else if m.term == n.currentTerm && n.role == Leader then
      if m.success then
        Outcome(AdvanceCommit(n.(matchIndex := n.matchIndex[m.from := m.matchIndex],
                              nextIndex := n.nextIndex[m.from := m.matchIndex + 1])), [])
      else if Get(n.nextIndex, m.from) > 1 then
        Outcome(n.(nextIndex := n.nextIndex[m.from := Get(n.nextIndex, m.from) - 1]), [])
      else Outcome(n, [])
    else Outcome(n, [])
  }

  function Step(n: NodeState, m: Message, draw: Draw): Outcome {
    if n.crashed then Outcome(n, [])
    else match m
      case RequestVote(_, _, _, _, _) => HandleRequestVote(n, m, draw)
      case RequestVoteResp(_, _, _, _) => HandleRequestVoteResp(n, m, draw)
      case AppendEntries(_, _, _, _, _, _, _) => HandleAppendEntries(n, m, draw)
      case AppendEntriesResp(_, _, _, _, _) => HandleAppendEntriesResp(n, m, draw)
  }

  // ---------------------------------------------------------------- client and lifecycle

  function ProposeRefusal(n: NodeState): Option<ProposeError> {
    if n.crashed then Some(NodeCrashed) else if n.role != Leader then Some(NotLeader) else None
  }

  function Propose(n: NodeState, cmd: seq<Byte>): NodeState {
    if ProposeRefusal(n).Some? then n
    else n.(log := Append(n.log, [Entry(n.currentTerm, LastIndex(n.log.entries) + 1, cmd)]).log)
  }

  function ReplicateNow(n: NodeState): seq<Message> {
    if n.role != Leader || n.crashed then [] else Broadcast(n)
  }

  function Crash(n: NodeState): NodeState {
    if n.crashed then n
    else n.(crashed := true, role := Follower, leaderID := 0, votesGranted := {},
         nextIndex := map[], matchIndex := map[], electionElapsed := 0)
  }

  /** What survives a power loss. */
  function Durable(n: NodeState): PersistedState {
    PersistedState(n.currentTerm, n.votedFor, Slice(n.log.entries, 1, LastIndex(n.log.entries) + 1))
  }

  datatype RestartOutcome = RestartOutcome(node: NodeState, ok: bool)

  /** Reboot through the serialized state. The two failure branches keep the node down. */
  function Restart(n: NodeState, draw: Draw): RestartOutcome {
    if !n.crashed then RestartOutcome(n, true)
    else
      match Deserialize(Serialize(Durable(n)))
      case Corrupt(_) => RestartOutcome(n, false)
      case Ok(p) =>
        var rebuilt := Append(EMPTY_LOG, p.entries);
        if rebuilt.error.Some? then RestartOutcome(n.(log := EMPTY_LOG), false)
        else RestartOutcome(ResetElectionTimer(
          n.(log := rebuilt.log, currentTerm := p.currentTerm, votedFor := p.votedFor, role := Follower,
          leaderID := 0, votesGranted := {}, nextIndex := map[], matchIndex := map[], crashed := false), draw), true)
  }

  /** Every integer the node would persist fits 64 bits. */
  predicate Representable(n: NodeState) {
    Fits64(Durable(n))
  }

  /** Restart never fails on an aligned log: term, vote and entries survive, the commit index
      returns to 0 and the node is a follower again. */
  lemma RestartPreserves(n: NodeState, draw: Draw)
    requires n.crashed && Aligned(n.log.entries) && Representable(n)
    ensures Restart(n, draw) == RestartOutcome(ResetElectionTimer(
              n.(log := LogState(n.log.entries, 0), role := Follower, leaderID := 0, votesGranted := {},
              nextIndex := map[], matchIndex := map[], crashed := false), draw), true)
  {
    var es := n.log.entries;
    var p := Durable(n);
    assert p.entries == es[1..];
    DeserializeAfterSerialize(p, Serialize(p));
    RebuildIsIdentity(es);
  }

  /** Appending a log's own entries to an empty log rebuilds it. */
  lemma RebuildIsIdentity(es: Entries)
    requires Aligned(es)
    ensures Append(EMPTY_LOG, es[1..]) == LogOutcome(LogState(es, 0), None)
  {
    FollowsIsContiguous(es[1..], 0);
    assert es == [DUMMY] + es[1..];
    if |es| > 1 {
      assert es[1..][0].index == 1;
      var d := MergeResult(EMPTY_LOG, es[1..], 0, 0);
      assert d == 0;
      assert EMPTY_LOG.entries[..1] == [DUMMY];
    }
  }
}
