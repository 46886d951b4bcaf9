/** Commit indexes under the acknowledgement hypothesis: every committed entry was chosen by a leader
    of its own term, a follower commits only what its leader committed, and no committed entry is
    ever truncated. */
module Commitment {
  import opened RaftLog
  import opened Quorum
  import opened NodeModel
  import opened NetworkModel
  import opened Effects
  import opened History
  import opened Election
  import opened LogMatching
  import opened Safety
  import opened Merging

  ghost predicate SafetyInv(w: World) {
    ElectionInv(w) && LogInv(w) && HoldInv(w) && CommitInv(w)
  }

  // ---------------------------------------------------------------- what every effect keeps

  lemma KeepBooks(w: World, id: nat, n': NodeState, out: seq<Message>, w': World)
    requires BooksOk(w) && Grows(w, w') && Moves(w, id, n', out, w') && BookOk(w', n')
    ensures BooksOk(w')
  {
    forall i | i in w'.net.nodes ensures BookOk(w', w'.net.nodes[i]) {
      if i != id { assert BookOk(w, w.net.nodes[i]); }
    }
  }

  lemma KeepCommits(w: World, id: nat, n': NodeState, out: seq<Message>, w': World)
    requires CommitsOk(w) && Grows(w, w') && Moves(w, id, n', out, w') && NodeCommitted(w', n') && LogInv(w)
    ensures CommitsOk(w')
  {
    forall i | i in w'.net.nodes ensures NodeCommitted(w', w'.net.nodes[i]) {
      if i != id {
        var n := w.net.nodes[i];
        NodeLogFacts(w, i);
        assert NodeCommitted(w, n);
        CommittedGrows(w, w', n.log.entries, n.log.commitIndex, n.currentTerm, n.log.entries, n.log.commitIndex,
          n.currentTerm);
      }
    }
  }

  lemma KeepHeartbeats(w: World, id: nat, n': NodeState, out: seq<Message>, w': World)
    requires HeartbeatsOk(w) && LogInv(w) && Grows(w, w') && Moves(w, id, n', out, w')
    requires forall m | m in out :: HeartbeatOk(w', m)
    ensures HeartbeatsOk(w')
  {
    hide LogInv, Committed;
    forall m | m in w'.net.pool ensures HeartbeatOk(w', m) {
      if m !in out && m.AppendEntries? {
        assert HeartbeatOk(w, m);
        AppendFacts(w, m);
        var log, log' := w.lead[m.term].log, w'.lead[m.term].log;
        assert log'[..m.leaderCommit + 1] == log[..m.leaderCommit + 1];
        CommittedGrows(w, w', log, m.leaderCommit, m.term, log', m.leaderCommit, m.term);
      }
    }
  }

  // ---------------------------------------------------------------- the leader's books

  lemma FindBook(w: World, id: nat, n': NodeState, out: seq<Message>, w': World, m: Message)
    requires Moves(w, id, n', out, w') && Grows(w, w') && w.net.nodes[id].id == id && BookOk(w, w.net.nodes[id])
    requires NodeLogOk(w, w.net.nodes[id]) && LeaderOk(w, w.net.nodes[id])
    requires var n := w.net.nodes[id];
             LocalEffect(n, n', out) || (m in w.net.pool && m.to == id && AckOk(w, m) && MessageEffect(n, n', out, m))
    ensures BookOk(w', n')
  {
    hide Broadcast, VoteRequests, Merged, Sound, Wins, CountIn;
    var n := w.net.nodes[id];
    if n'.role == Leader {
      forall p | p in n'.peers
        ensures 1 <= Get(n'.nextIndex, p) <= |n'.log.entries|
        ensures Get(n'.matchIndex, p) == 0
                || AppendEntriesResp(p, n'.id, n'.currentTerm, true, Get(n'.matchIndex, p)) in w'.net.pool
      {
        if Elected(n, n', out, m) {
          AlignedLast(w, n);
          FreshIndexesAt(n.peers, |n.log.entries|, p);
          FreshIndexesAt(n.peers, 0, p);
        }
      }
    }
  }

  lemma AlignedLast(w: World, n: NodeState)
    requires NodeLogOk(w, n)
    ensures LastIndex(n.log.entries) == |n.log.entries| - 1
  {
  }

  // ---------------------------------------------------------------- the leader commits

  /** The scan stops at an entry of the current term that a majority holds, or changes nothing. */
  lemma {:induction false} ScanFinds(n: NodeState, idx: nat)
    ensures var r := ScanCommit(n, idx);
            || r == n.log.commitIndex
            || (n.log.commitIndex < r < |n.log.entries| && n.log.entries[r].term == n.currentTerm
               && ReplicatedOnMajority(n, r))
  {
    if idx > n.log.commitIndex && idx < |n.log.entries| { ScanFinds(n, idx - 1); }
  }

  /** A replicated entry of the current term is chosen. */
  lemma ReplicatedIsChosen(w: World, id: nat, n: NodeState, r: nat)
    requires WellWired(w.net) && id in w.net.nodes && n.id == id && n.peers == w.net.nodes[id].peers
    requires n.role == Leader && LeaderOk(w, n) && BookOk(w, n) && w.lead[n.currentTerm].log == n.log.entries
    requires 1 <= r < |n.log.entries| && n.log.entries[r].term == n.currentTerm && ReplicatedOnMajority(n, r)
    ensures Chosen(w, n.currentTerm, r)
  {
    hide CountIn, Distinct, WellWired, BookOk, Holder, Elements;
    WiredMembers(w.net, id);
    var at := AtLeast(n, r);
    var q := at + {id};
    AtLeastArePeers(n, r);
    CountedWithSelf(id, n.peers, at);
    LeaderIsHolder(w, n, r);
    forall x | x in q ensures Holder(w, n.currentTerm, x, r) {
      if x != id { AckIsHolder(w, n, x, r); }
    }
    assert AllHold(w, n.currentTerm, q, r);
  }

  lemma AtLeastArePeers(n: NodeState, r: nat)
    ensures AtLeast(n, r) <= Elements(n.peers)
  {
  }

  lemma LeaderIsHolder(w: World, n: NodeState, r: nat)
    requires n.role == Leader && LeaderOk(w, n) && r < |w.lead[n.currentTerm].log|
    ensures Holder(w, n.currentTerm, n.id, r)
  {
  }

  lemma AckIsHolder(w: World, n: NodeState, x: nat, r: nat)
    requires n.role == Leader && LeaderOk(w, n) && BookOk(w, n) && w.lead[n.currentTerm].log == n.log.entries
    requires 1 <= r < |n.log.entries| && x in AtLeast(n, r)
    ensures Holder(w, n.currentTerm, x, r)
  {
    assert IsAck(AppendEntriesResp(x, n.id, n.currentTerm, true, Get(n.matchIndex, x)), n.currentTerm, x, r);
  }

  lemma CountedCommits(w: World, id: nat, n': NodeState, out: seq<Message>, w': World, m: Message)
    requires Moves(w, id, n', out, w') && Grows(w, w') && Counted(w.net.nodes[id], n', out, m)
    requires WellWired(w'.net) && LeaderOk(w', n') && NodeLogOk(w', n') && BookOk(w', n') && n'.id == id
    requires NodeLogOk(w, w.net.nodes[id]) && NodeCommitted(w, w.net.nodes[id])
    ensures NodeCommitted(w', n') && n'.log.commitIndex >= w.net.nodes[id].log.commitIndex
  {
    hide Sound, BookOk, WellWired, Chosen, ReplicatedOnMajority;
    var n := w.net.nodes[id];
    var scanned := n'.(log := n.log);
    ScanFinds(scanned, LastIndex(n.log.entries));
    var r := n'.log.commitIndex;
    if r == n.log.commitIndex {
      CommittedGrows(w, w', n.log.entries, r, n.currentTerm, n.log.entries, r, n.currentTerm);
    } else {
      SameReplication(scanned, n', r);
      ReplicatedIsChosen(w', id, n', r);
      assert Agree(n'.log.entries, w'.lead[n'.currentTerm].log, r);
    }
  }

  lemma SameReplication(a: NodeState, b: NodeState, r: nat)
    requires a.peers == b.peers && a.matchIndex == b.matchIndex && ReplicatedOnMajority(a, r)
    ensures ReplicatedOnMajority(b, r)
  {
    assert AtLeast(a, r) == AtLeast(b, r);
  }

  // ---------------------------------------------------------------- the follower commits

  /** What is committed on a follower also stands in the log of any leader of its term or a later one. */
  lemma CommittedInLeader(w: World, es: seq<Entry>, c: nat, t: nat, u: nat)
    requires HoldInv(w) && LogInv(w) && LeadershipsOk(w)
    requires Committed(w, es, c, t) && t <= u && u in w.lead && c > 0
    ensures Agree(es, w.lead[u].log, c)
  {
    hide HoldInv, LogInv, LeadershipsOk, AllHold;
    var x: nat, k: nat :| Chosen(w, x, k) && c <= k && x <= t && Agree(es, w.lead[x].log, c);
    if x < u {
      LeaderCompleteness(w, x, k, u);
      AgreeAt(w.lead[x].log, w.lead[u].log, k, c);
    }
  }

  lemma FollowedCommits(w: World, id: nat, n': NodeState, out: seq<Message>, w': World, m: Message)
    requires HoldInv(w) && LogInv(w) && LeadershipsOk(w) && Grows(w, w') && w'.lead == w.lead
    requires Moves(w, id, n', out, w') && m in w.net.pool && Followed(w.net.nodes[id], n', out, m)
    requires NodeCommitted(w, w.net.nodes[id]) && HeartbeatOk(w, m)
    ensures NodeCommitted(w', n') && n'.log.commitIndex >= w.net.nodes[id].log.commitIndex
  {
    hide HoldInv, LeadershipsOk, NodeLogsOk, LeadLogsOk, VoteLogsOk, AppendsOk, Append, FollowerCommit, Traced,
      WellFormed, Committed, Stretch, MatchesPrevLogTerm;
    var n := w.net.nodes[id];
    NodeLogFacts(w, id);
    AppendFacts(w, m);
    LeadLogFacts(w, m.term);
    var es, c, log := n.log.entries, n.log.commitIndex, w.lead[m.term].log;
    if n'.log == n.log {
      CommittedGrows(w, w', es, c, n.currentTerm, es, c, n'.currentTerm);
    } else {
      MergedCommits(w, n, n', out, m, w');
    }
  }

  lemma MergedCommits(w: World, n: NodeState, n': NodeState, out: seq<Message>, m: Message, w': World)
    requires HoldInv(w) && LogInv(w) && LeadershipsOk(w) && Grows(w, w') && w'.lead == w.lead
    requires m.AppendEntries? && n'.currentTerm == m.term >= n.currentTerm && Merged(n, n', out, m)
    requires NodeLogOk(w, n) && AppendOk(w, m) && LeadLogOk(w, m.term)
    requires NodeCommitted(w, n) && HeartbeatOk(w, m)
    ensures NodeCommitted(w', n') && n'.log.commitIndex >= n.log.commitIndex
  {
    hide HoldInv, LogInv, LeadershipsOk, Append, FollowerCommit, Traced, WellFormed, Committed, Stretch,
      MatchesPrevLogTerm, DivergesAt, Matching;
    var es, c, log := n.log.entries, n.log.commitIndex, w.lead[m.term].log;
    var r, end := Append(n.log, m.entries).log, m.prevLogIndex + |m.entries|;
    WellFormedIsAligned(es);
    WellFormedIsAligned(log);
    TracedMatch(w.lead, es, log);
    var d := MergeYieldsLeaderPrefix(n.log, log, m);
    MergedLogSound(w.lead, n.log, log, m, n.currentTerm);
    WellFormedIsAligned(r.entries);
    if c > 0 {
      CommittedInLeader(w, es, c, n.currentTerm, m.term);
    } else {
      assert es[..1] == [DUMMY] == log[..1];
      assert Agree(es, log, c);
    }
    MergeKeepsShared(n.log, log, m, c);
    FollowerCommitInLog(r, m.leaderCommit);
    var c' := n'.log.commitIndex;
    if c' == c {
      AgreeTransitive(r.entries, log, es, c);
      CommittedGrows(w, w', es, c, n.currentTerm, r.entries, c, m.term);
    } else {
      AgreeAt(r.entries, log, end, c');
      CommittedGrows(w, w', log, m.leaderCommit, m.term, r.entries, c', m.term);
    }
  }

  // ---------------------------------------------------------------- one event

  /** The commit index of a node never falls, except that a restart forgets it. */
  lemma FindCommitted(w: World, id: nat, n': NodeState, out: seq<Message>, w': World, m: Message)
    requires SafetyInv(w) && Grows(w, w') && Moves(w, id, n', out, w') && Records(w, w.net.nodes[id], n', out, w')
    requires ElectionInv(w') && LogInv(w') && BookOk(w', n')
    requires var n := w.net.nodes[id];
             LocalEffect(n, n', out) || (m in w.net.pool && MessageEffect(n, n', out, m))
    ensures NodeCommitted(w', n')
    ensures n'.log.commitIndex >= w.net.nodes[id].log.commitIndex || Rebooted(w.net.nodes[id], n', out)
  {
    hide LogInv, HoldInv, BookOk, Merged, Broadcast, VoteRequests, Sound, Committed, WellWired;
    hide Wired, AlignedNet, BallotsPlaced, OneVote, VoteKept, RolesOk, LeadershipsOk, MessagesOk, CandidateOk, LeaderOk;
    hide BooksOk, CommitsOk, HeartbeatsOk;
    var n := w.net.nodes[id];
    CommitFacts(w, id);
    NodeLogFacts(w, id);
    NodeLogFacts(w', id);
    NodeFacts(w', id);
    if !LocalEffect(n, n', out) && Counted(n, n', out, m) {
      CountedCommits(w, id, n', out, w', m);
    } else if !LocalEffect(n, n', out) && Followed(n, n', out, m) {
      HeartbeatFacts(w, m);
      assert w'.lead == w.lead;
      FollowedCommits(w, id, n', out, w', m);
    } else if !Rebooted(n, n', out) {
      var c := n.log.commitIndex;
      ExtendedAgree(n.log.entries, n'.log.entries, c);
      CommittedGrows(w, w', n.log.entries, c, n.currentTerm, n'.log.entries, c, n'.currentTerm);
    } else {
      NothingCommitted(w', n');
    }
  }

  lemma NothingCommitted(w: World, n: NodeState)
    requires n.log.commitIndex == 0
    ensures NodeCommitted(w, n)
  {
  }

  lemma ExtendedAgree(a: seq<Entry>, b: seq<Entry>, k: nat)
    requires k < |a| && a <= b
    ensures Agree(b, a, k)
  {
    assert a == b[..|a|];
  }

  lemma CommitFacts(w: World, id: nat)
    requires CommitInv(w) && id in w.net.nodes
    ensures BookOk(w, w.net.nodes[id]) && NodeCommitted(w, w.net.nodes[id])
  {
  }

  lemma HeartbeatFacts(w: World, m: Message)
    requires CommitInv(w) && m in w.net.pool
    ensures HeartbeatOk(w, m)
  {
  }

  lemma AckFacts(w: World, m: Message)
    requires HoldInv(w) && m in w.net.pool
    ensures AckOk(w, m)
  {
  }

  /** Every heartbeat reaches the leader's last index, so its commit index is covered. */
  lemma BroadcastIsCovered(w: World, n: NodeState, m: Message)
    requires LeaderOk(w, n) && n.role == Leader && NodeLogOk(w, n) && BookOk(w, n) && NodeCommitted(w, n)
             && m in Broadcast(n)
    ensures HeartbeatOk(w, m)
  {
    hide Committed;
    BroadcastMember(n, m);
    BroadcastIsStretch(n, m);
    var es, ni := n.log.entries, Get(n.nextIndex, m.to);
    if ni <= LastIndex(es) { assert Slice(es, ni, LastIndex(es) + 1) == es[ni..]; }
    assert m.prevLogIndex + |m.entries| == |es| - 1;
  }

  lemma FindHeartbeats(w': World, n: NodeState, n': NodeState, out: seq<Message>, m: Message)
    requires LocalEffect(n, n', out) || MessageEffect(n, n', out, m)
    requires LeaderOk(w', n') && NodeLogOk(w', n') && BookOk(w', n') && NodeCommitted(w', n')
    ensures forall x | x in out :: HeartbeatOk(w', x)
  {
    hide Committed, Merged, NodeLogOk, BookOk, LeaderOk, HeartbeatOk;
    forall x | x in out ensures HeartbeatOk(w', x) {
      if Beat(n, n', out) || Elected(n, n', out, m) {
        BroadcastIsCovered(w', n', x);
      } else if Campaigned(n, n', out) {
        VoteRequestMember(n', x);
        NotHeartbeat(w', x);
      } else {
        if Followed(n, n', out, m) { FollowAnswers(n, n', out, m); }
        NotHeartbeat(w', x);
      }
    }
  }

  lemma NotHeartbeat(w: World, m: Message)
    requires !m.AppendEntries?
    ensures HeartbeatOk(w, m)
  {
  }

  lemma EffectKeepsCommit(w: World, id: nat, n': NodeState, out: seq<Message>, w': World, m: Message)
    requires SafetyInv(w) && Grows(w, w') && Moves(w, id, n', out, w') && Records(w, w.net.nodes[id], n', out, w')
    requires ElectionInv(w') && LogInv(w')
    requires var n := w.net.nodes[id];
             LocalEffect(n, n', out) || (m in w.net.pool && m.to == id && MessageEffect(n, n', out, m))
    ensures CommitInv(w')
    ensures n'.log.commitIndex >= w.net.nodes[id].log.commitIndex || Rebooted(w.net.nodes[id], n', out)
  {
    hide LogInv, HoldInv, BookOk, LocalEffect, MessageEffect, NodeCommitted, NodeLogOk, LeaderOk, CandidateOk,
      HeartbeatOk, WellWired, AckOk;
    hide Wired, AlignedNet, BallotsPlaced, OneVote, VoteKept, RolesOk, LeadershipsOk, MessagesOk, BooksOk, CommitsOk,
      HeartbeatsOk, Records;
    var n := w.net.nodes[id];
    NodeFacts(w, id);
    NodeFacts(w', id);
    NodeLogFacts(w, id);
    NodeLogFacts(w', id);
    CommitFacts(w, id);
    if !LocalEffect(n, n', out) { AckFacts(w, m); }
    FindBook(w, id, n', out, w', m);
    FindCommitted(w, id, n', out, w', m);
    FindHeartbeats(w', n, n', out, m);
    KeepBooks(w, id, n', out, w');
    KeepCommits(w, id, n', out, w');
    KeepHeartbeats(w, id, n', out, w');
  }

  lemma FindGrows(w: World, e: Event)
    requires ElectionInv(w) && LogInv(w)
    ensures Grows(w, Advance(w, e))
  {
    hide React, LogInv, VotesGrow, LeadsKept, LogsExtend, RecordLead, RecordVotes;
    hide Wired, AlignedNet, BallotsPlaced, OneVote, VoteKept, RolesOk, LeadershipsOk, MessagesOk;
    AdvanceRemembers(w, e);
    AdvanceExtendsLogs(w, e);
  }

  /** The hypothesis on one event of a run. */
  ghost predicate AckInsideEvent(w: World, e: Event) {
    Enabled(w.net, e) ==>
      var o := React(w.net.nodes[Target(e)], e); AckInside(w, o.node, o.out)
  }

  lemma AdvanceKeepsSafety(w: World, e: Event)
    requires SafetyInv(w) && AckInsideEvent(w, e)
    ensures SafetyInv(Advance(w, e))
    ensures forall id | id in w.net.nodes ::
              id in Advance(w, e).net.nodes &&
              (Advance(w, e).net.nodes[id].log.commitIndex >= w.net.nodes[id].log.commitIndex || e.RestartEvent?)
  {
    hide React, LogInv, HoldInv, CommitInv, AckInside, LocalEffect, MessageEffect, RecordVotes, RecordLead;
    hide Wired, AlignedNet, BallotsPlaced, OneVote, VoteKept, RolesOk, LeadershipsOk, MessagesOk, Grows;
    if Enabled(w.net, e) {
      var id, w' := Target(e), Advance(w, e);
      var n := w.net.nodes[id];
      var o := React(n, e);
      NodeFacts(w, id);
      MovesKeepsWiring(w, e, w');
      Classify(n, e);
      AdvanceKeepsElection(w, e);
      AdvanceKeepsLogs(w, e);
      FindGrows(w, e);
      var m := if e.DeliverEvent? then e.m else RequestVote(0, 0, 0, 0, 0);
      EffectKeepsHold(w, id, o.node, o.out, w', m);
      EffectKeepsCommit(w, id, o.node, o.out, w', m);
      OnlyRestartForgets(w, n, e);
    }
  }

  lemma OnlyRestartForgets(w: World, n: NodeState, e: Event)
    ensures Rebooted(n, React(n, e).node, React(n, e).out) && React(n, e).node.log.commitIndex < n.log.commitIndex
            ==> e.RestartEvent?
  {
  }
}
