/** The mutable peer. Each method is proved against the function of NodeModel with the same name; the
    random source appears as the value it returns. */
module PeerNode {
  import opened RaftLog
  import opened Persistence
  import opened Quorum
  import M = NodeModel
  import opened NodeModel
  import opened NetworkModel
  import opened Effects

  lemma FailedAppendChangesNothing(l: LogState, batch: seq<Entry>)
    requires Append(l, batch).error.Some?
    ensures Append(l, batch).log == l
  {
  }

  lemma AppendNothing(l: LogState, batch: seq<Entry>)
    requires batch == []
    ensures Append(l, batch) == LogOutcome(l, None)
  {
  }

  class Node {
    const id: nat
    const peers: seq<nat>
    var currentTerm: nat
    var votedFor: nat
    var raftLog: Log
    var role: Role
    var leaderID: nat
    var electionTimeout: nat
    var electionElapsed: nat
    var heartbeatElapsed: nat
    var votesGranted: set<nat>
    var nextIndex: map<nat, nat>
    var matchIndex: map<nat, nat>
    var crashed: bool

    ghost function State(): NodeState
      reads this, raftLog
    {
      NodeState(id, peers, currentTerm, votedFor, raftLog.State(), role, leaderID, electionTimeout, electionElapsed,
                heartbeatElapsed, votesGranted, nextIndex, matchIndex, crashed)
    }

    ghost predicate Valid()
      reads this, raftLog
    {
      raftLog.Valid()
    }

    constructor (id: nat, peers: seq<nat>, draw: Draw)
      ensures Valid() && fresh(raftLog) && State() == InitNode(id, peers, draw)
      ensures this.id == id && this.peers == peers && currentTerm == 0 && votedFor == 0 && leaderID == 0
      ensures role == Follower && !crashed && raftLog.State() == EMPTY_LOG
      ensures electionElapsed == 0 && heartbeatElapsed == 0 && electionTimeout == ELECTION_TIMEOUT_MIN + draw
      ensures votesGranted == {} && nextIndex == map[] && matchIndex == map[]
    {
      this.id := id;
      this.peers := peers;
      currentTerm, votedFor := 0, 0;
      raftLog := new Log();
      role, leaderID := Follower, 0;
      votesGranted, nextIndex, matchIndex := {}, map[], map[];
      crashed := false;
      heartbeatElapsed := 0;
      electionElapsed := 0;
      electionTimeout := ELECTION_TIMEOUT_MIN + draw;
    }

    method ResetTimer(draw: Draw)
      modifies this`electionElapsed, this`electionTimeout
      ensures State() == M.ResetElectionTimer(old(State()), draw)
    {
      electionElapsed := 0;
      var span := ELECTION_TIMEOUT_MAX - ELECTION_TIMEOUT_MIN + 1;
      if span < 1 { span := 1; }
      electionTimeout := ELECTION_TIMEOUT_MIN + draw % span;
    }

    method CountVotes() returns (c: nat)
      ensures c == VoteCount(id, peers, votesGranted)
    {
      c := 0;
      if id in votesGranted { c := c + 1; }
      var base, i := c, 0;
      while i < |peers|
        invariant i <= |peers| && c == base + CountIn(peers[..i], votesGranted)
      {
        assert peers[..i + 1][..i] == peers[..i];
        if peers[i] in votesGranted { c := c + 1; }
        i := i + 1;
      }
      assert peers[..|peers|] == peers;
    }

    /** The number of grants a node needs: more than half of its peers and itself. */
    method Majority() returns (q: nat)
      ensures q == MajorityOf(peers)
      ensures 2 * q > |peers| + 1 && 2 * (q - 1) <= |peers| + 1
    {
      q := (|peers| + 1) / 2 + 1;
    }

    method IsUpToDate(lastIndex: nat, lastTerm: nat) returns (ok: bool)
      ensures ok == UpToDate(raftLog.entries, lastIndex, lastTerm)
      ensures ok <==> lastTerm > LastTerm(raftLog.entries)
                      || (lastTerm == LastTerm(raftLog.entries) && lastIndex >= LastIndex(raftLog.entries))
    {
      var myIdx, myTerm := raftLog.Last();
      if lastTerm != myTerm { return lastTerm > myTerm; }
      return lastIndex >= myIdx;
    }

    /** The AppendEntries for one peer: everything from its next index, or nothing past the end. */
    method AppendTo(p: nat) returns (m: Message)
      requires Valid()
      ensures m == AppendFor(State(), p)
    {
      hide Slice, Aligned;
      var lastIdx, _ := raftLog.Last();
      var ni := Get(nextIndex, p);
      var prevIndex, prevTerm := Before(ni);
      var entries: seq<Entry> := [];
      if ni <= lastIdx { entries := raftLog.CopyRange(ni, lastIdx + 1); }
      m := AppendEntries(id, p, currentTerm, prevIndex, prevTerm, entries, raftLog.commitIndex);
    }

    /** The entry before index `ni`, or index 0 when that lies past the end. */
    method Before(ni: nat) returns (prevIndex: nat, prevTerm: nat)
      requires Valid()
      ensures prevIndex == if ni > 1 && ni - 1 < |raftLog.entries| then ni - 1 else 0
      ensures prevTerm == if prevIndex > 0 then raftLog.entries[prevIndex].term else 0
    {
      prevIndex, prevTerm := 0, 0;
      if ni > 1 {
        prevIndex := ni - 1;
        var e := raftLog.EntryAt(prevIndex);
        if e.Some? { prevTerm := e.value.term; } else { prevIndex := 0; }
      }
    }

    method Broadcast() returns (out: seq<Message>)
      requires Valid()
      ensures out == M.Broadcast(State())
    {
      hide AppendFor;
      out := [];
      var i := 0;
      while i < |peers|
        invariant i <= |peers| && |out| == i
        invariant forall j | 0 <= j < i :: out[j] == AppendFor(State(), peers[j])
      {
        var m := AppendTo(peers[i]);
        out := out + [m];
        i := i + 1;
      }
    }

    method StartElection(draw: Draw) returns (out: seq<Message>)
      modifies this
      ensures raftLog == old(raftLog)
      ensures Outcome(State(), out) == M.StartElection(old(State()), draw)
    {
      currentTerm := currentTerm + 1;
      role := Candidate;
      votedFor := id;
      votesGranted := {id};
      leaderID := 0;
      ResetTimer(draw);
      out := RequestVotes();
    }

    method RequestVotes() returns (out: seq<Message>)
      ensures out == VoteRequests(State())
    {
      var lastIdx, lastTerm := raftLog.Last();
      out := [];
      var i := 0;
      while i < |peers|
        invariant i <= |peers| && |out| == i
        invariant forall j | 0 <= j < i :: out[j] == RequestVote(id, peers[j], currentTerm, lastIdx, lastTerm)
      {
        out := out + [RequestVote(id, peers[i], currentTerm, lastIdx, lastTerm)];
        i := i + 1;
      }
      assert out == VoteRequests(State());
    }

    method InitIndexes(next: nat)
      modifies this`nextIndex, this`matchIndex
      ensures nextIndex == FreshIndexes(peers, next) && matchIndex == FreshIndexes(peers, 0)
    {
      nextIndex, matchIndex := map[], map[];
      var i := 0;
      while i < |peers|
        invariant i <= |peers|
        invariant nextIndex == FreshIndexes(peers[..i], next)
        invariant matchIndex == FreshIndexes(peers[..i], 0)
      {
        assert peers[..i + 1][..i] == peers[..i];
        nextIndex := nextIndex[peers[i] := next];
        matchIndex := matchIndex[peers[i] := 0];
        i := i + 1;
      }
      assert peers[..|peers|] == peers;
    }

    method BecomeLeader(draw: Draw) returns (out: seq<Message>)
      requires Valid()
      modifies this
      ensures raftLog == old(raftLog)
      ensures Outcome(State(), out) == M.BecomeLeader(old(State()), draw)
    {
      hide FreshIndexes, M.Broadcast;
      role := Leader;
      leaderID := id;
      ResetTimer(draw);
      heartbeatElapsed := 0;
      var lastIdx, _ := raftLog.Last();
      InitIndexes(lastIdx + 1);
      out := Broadcast();
    }

    method StepDown(term: nat, draw: Draw)
      modifies this
      ensures raftLog == old(raftLog)
      ensures State() == M.StepDown(old(State()), term, draw)
    {
      currentTerm := term;
      role := Follower;
      votedFor := 0;
      leaderID := 0;
      votesGranted := {};
      nextIndex := map[];
      matchIndex := map[];
      ResetTimer(draw);
    }

    method Tick(draw: Draw) returns (out: seq<Message>)
      requires Valid()
      modifies this
      ensures Valid() && raftLog == old(raftLog)
      ensures Outcome(State(), out) == M.Tick(old(State()), draw)
    {
      out := [];
      if crashed { return; }
      electionElapsed := electionElapsed + 1;
      match role
      case Leader =>
        heartbeatElapsed := heartbeatElapsed + 1;
        if heartbeatElapsed >= HEARTBEAT_INTERVAL {
          heartbeatElapsed := 0;
          out := Broadcast();
        }
      case _ =>
        if electionElapsed >= electionTimeout { out := StartElection(draw); }
    }

    method HandleRequestVote(m: Message, draw: Draw) returns (out: seq<Message>)
      requires m.RequestVote?
      modifies this
      ensures raftLog == old(raftLog)
      ensures Outcome(State(), out) == M.HandleRequestVote(old(State()), m, draw)
    {
      if m.term < currentTerm { return [RequestVoteResp(id, m.from, currentTerm, false)]; }
      if m.term > currentTerm {
        currentTerm := m.term;
        votedFor := 0;
        role := Follower;
        leaderID := 0;
      }
      var grant := false;
      var ok := IsUpToDate(m.lastLogIndex, m.lastLogTerm);
      if (votedFor == 0 || votedFor == m.from) && ok {
        votedFor := m.from;
        grant := true;
        ResetTimer(draw);
      }
      return [RequestVoteResp(id, m.from, currentTerm, grant)];
    }

    method HandleRequestVoteResp(m: Message, draw: Draw) returns (out: seq<Message>)
      requires m.RequestVoteResp? && Valid()
      modifies this
      ensures raftLog == old(raftLog)
      ensures Outcome(State(), out) == M.HandleRequestVoteResp(old(State()), m, draw)
    {
      out := [];
      if m.term > currentTerm {
        StepDown(m.term, draw);
        return;
      }
      if m.term == currentTerm && role == Candidate {
        if m.granted { votesGranted := votesGranted + {m.from}; }
        var c := CountVotes();
        var q := Majority();
        if c >= q { out := BecomeLeader(draw); }
      }
    }

    method AcceptLeader(m: Message, draw: Draw)
      requires m.AppendEntries?
      modifies this
      ensures raftLog == old(raftLog) && State() == M.AcceptLeader(old(State()), m, draw)
    {
      if role != Follower || m.term > currentTerm {
        currentTerm := m.term;
        role := Follower;
        votedFor := 0;
      }
      leaderID := m.from;
      ResetTimer(draw);
    }

    /** Adopt the leader's commit index, capped by the own last index. */
    method FollowCommit(leaderCommit: nat)
      modifies raftLog
      ensures raftLog.State() == FollowerCommit(old(raftLog.State()), leaderCommit)
    {
      var lastIdx, _ := raftLog.Last();
      if leaderCommit > raftLog.commitIndex {
        var newCommit := leaderCommit;
        if newCommit > lastIdx { newCommit := lastIdx; }
        var _ := raftLog.Commit(newCommit);
      }
    }

    method HandleAppendEntries(m: Message, draw: Draw) returns (out: seq<Message>)
      requires m.AppendEntries?
      modifies this, raftLog
      ensures raftLog == old(raftLog)
      ensures Outcome(State(), out) == M.HandleAppendEntries(old(State()), m, draw)
    {
      hide Append, FollowerCommit, M.AcceptLeader, MatchesPrevLogTerm;
      if m.term < currentTerm { return [AppendEntriesResp(id, m.from, currentTerm, false, 0)]; }
      AcceptLeader(m, draw);
      ghost var f := State();
      assert f.log == raftLog.State() && f.log.entries == raftLog.entries;
      if !MatchesPrevLogTerm(raftLog.entries, m.prevLogIndex, m.prevLogTerm) {
        var lastIdx, _ := raftLog.Last();
        return [AppendEntriesResp(id, m.from, currentTerm, false, lastIdx)];
      }
      if |m.entries| > 0 {
        var err := raftLog.AppendBatch(m.entries);
        if err.Some? {
          FailedAppendChangesNothing(f.log, m.entries);
          var lastIdx, _ := raftLog.Last();
          return [AppendEntriesResp(id, m.from, currentTerm, false, lastIdx)];
        }
      } else {
        AppendNothing(f.log, m.entries);
      }
      var lastIdx, _ := raftLog.Last();
      FollowCommit(m.leaderCommit);
      return [AppendEntriesResp(id, m.from, currentTerm, true, lastIdx)];
    }

    method IsReplicated(idx: nat) returns (ok: bool)
      ensures ok == ReplicatedOnMajority(State(), idx)
    {
      ghost var at := AtLeast(State(), idx);
      var c, i := 1, 0;
      while i < |peers|
        invariant i <= |peers| && c == 1 + CountIn(peers[..i], at)
      {
        assert peers[..i + 1][..i] == peers[..i];
        if Get(matchIndex, peers[i]) >= idx { c := c + 1; }
        i := i + 1;
      }
      assert peers[..|peers|] == peers;
      var q := Majority();
      ok := c >= q;
    }

    /** The downward scan for an entry of the current term that a majority holds. */
    method ScanAndCommit()
      requires Valid()
      modifies raftLog
      ensures State() == M.AdvanceCommit(old(State()))
    {
      var lastIdx, _ := raftLog.Last();
      var idx: nat := lastIdx;
      while idx > raftLog.commitIndex
        invariant idx <= lastIdx && State() == old(State())
        invariant ScanCommit(State(), idx) == ScanCommit(State(), lastIdx)
      {
        var e := raftLog.EntryAt(idx);
        if e.None? { break; }
        if e.value.term == currentTerm {
          var done := IsReplicated(idx);
          if done {
            var _ := raftLog.Commit(idx);
            return;
          }
        }
        idx := idx - 1;
      }
    }

    method HandleAppendEntriesResp(m: Message, draw: Draw) returns (out: seq<Message>)
      requires m.AppendEntriesResp? && Valid()
      modifies this, raftLog
      ensures raftLog == old(raftLog)
      ensures Outcome(State(), out) == M.HandleAppendEntriesResp(old(State()), m, draw)
    {
      out := [];
      if m.term > currentTerm {
        StepDown(m.term, draw);
        return;
      }
      if m.term == currentTerm && role == Leader {
        if m.success {
          matchIndex := matchIndex[m.from := m.matchIndex];
          nextIndex := nextIndex[m.from := m.matchIndex + 1];
          ScanAndCommit();
        } else if Get(nextIndex, m.from) > 1 {
          nextIndex := nextIndex[m.from := Get(nextIndex, m.from) - 1];
        }
      }
    }

    /** A message whose entries leave a gap may break the alignment that later reads rely on; every
        other message keeps it. */
    method Step(m: Message, draw: Draw) returns (out: seq<Message>)
      requires Valid()
      modifies this, raftLog
      ensures raftLog == old(raftLog)
      ensures Outcome(State(), out) == M.Step(old(State()), m, draw)
      ensures WellIndexed(m) ==> Valid() && forall x | x in out :: WellIndexed(x)
    {
      ghost var before := State();
      if crashed {
        out := [];
      } else {
        match m
        case RequestVote(_, _, _, _, _) => out := HandleRequestVote(m, draw);
        case RequestVoteResp(_, _, _, _) => out := HandleRequestVoteResp(m, draw);
        case AppendEntries(_, _, _, _, _, _, _) => out := HandleAppendEntries(m, draw);
        case AppendEntriesResp(_, _, _, _, _) => out := HandleAppendEntriesResp(m, draw);
      }
      if WellIndexed(m) { ReactKeepsAligned(before, DeliverEvent(m, draw)); }
    }

    method Propose(cmd: seq<Byte>) returns (refusal: Option<ProposeError>)
      requires Valid()
      modifies this, raftLog
      ensures Valid() && raftLog == old(raftLog)
      ensures refusal == ProposeRefusal(old(State())) && State() == M.Propose(old(State()), cmd)
    {
      ghost var before := State();
      if crashed { return Some(NodeCrashed); }
      if role != Leader { return Some(NotLeader); }
      var lastIdx, _ := raftLog.Last();
      ProposeAppends(before, cmd);
      var _ := raftLog.AppendBatch([Entry(currentTerm, lastIdx + 1, cmd)]);
      return None;
    }

    method ReplicateNow() returns (out: seq<Message>)
      requires Valid()
      ensures out == M.ReplicateNow(State())
    {
      if role != Leader || crashed { return []; }
      out := Broadcast();
    }

    method Crash()
      modifies this
      ensures raftLog == old(raftLog) && State() == M.Crash(old(State()))
    {
      if crashed { return; }
      crashed := true;
      role := Follower;
      leaderID := 0;
      votesGranted := {};
      nextIndex := map[];
      matchIndex := map[];
      electionElapsed := 0;
    }

    /** Serialize what survives a power loss and read it back. */
    method Reload() returns (restored: Decoded)
      requires Valid()
      ensures restored == Deserialize(Serialize(Durable(State())))
    {
      hide Serialize, Deserialize;
      var lastIdx, _ := raftLog.Last();
      var all := raftLog.CopyRange(1, lastIdx + 1);
      var data := SerializeState(PersistedState(currentTerm, votedFor, all));
      restored := DeserializeState(data);
    }

    /** Reboot through serialization. It never fails on a node whose integers fit 64 bits: term, vote and
        entries survive, the commit index returns to 0. */
    method Restart(draw: Draw) returns (ok: bool)
      requires Valid()
      modifies this
      ensures RestartOutcome(State(), ok) == M.Restart(old(State()), draw)
      ensures raftLog == old(raftLog) || fresh(raftLog)
      ensures Representable(old(State())) ==>
                && ok && Valid() && currentTerm == old(currentTerm) && votedFor == old(votedFor)
                && raftLog.entries == old(raftLog.entries)
                && (old(crashed) ==> raftLog.commitIndex == 0 && !crashed && role == Follower)
    {
      hide Append, Serialize, Deserialize, Aligned, Slice, Representable;
      ghost var before := State();
      if !crashed { return true; }
      if Representable(before) { RestartPreserves(before, draw); }
      var restored := Reload();
      if restored.Corrupt? { return false; }
      if Append(EMPTY_LOG, restored.state.entries).error.Some? {
        FailedAppendChangesNothing(EMPTY_LOG, restored.state.entries);
      }
      ok := Reboot(restored.state, draw);
    }

    /** Rebuild the log from the restored entries and come back up as a follower. */
    method Reboot(p: PersistedState, draw: Draw) returns (ok: bool)
      modifies this
      ensures fresh(raftLog)
      ensures var rebuilt := Append(EMPTY_LOG, p.entries);
              ok == rebuilt.error.None? && raftLog.State() == rebuilt.log
      ensures !ok ==> State() == old(State()).(log := raftLog.State())
      ensures ok ==> State() == M.ResetElectionTimer(
                old(State()).(log := raftLog.State(), currentTerm := p.currentTerm, votedFor := p.votedFor,
                  role := Follower,
                leaderID := 0, votesGranted := {}, nextIndex := map[], matchIndex := map[], crashed := false), draw)
    {
      hide Append;
      raftLog := new Log();
      var err := raftLog.AppendBatch(p.entries);
      if err.Some? { return false; }
      Resume(p, draw);
      return true;
    }

    method Resume(p: PersistedState, draw: Draw)
      modifies this
      ensures raftLog == old(raftLog)
      ensures State() == NodeState(id, peers, p.currentTerm, p.votedFor, old(raftLog.State()), Follower, 0,
                                   ELECTION_TIMEOUT_MIN + draw, 0, old(heartbeatElapsed), {}, map[], map[], false)
    {
      currentTerm, votedFor := p.currentTerm, p.votedFor;
      role, leaderID := Follower, 0;
      votesGranted, nextIndex, matchIndex := {}, map[], map[];
      crashed, electionElapsed := false, 0;
      ResetTimer(draw);
    }
  }
}
