/** Log Matching: in every reachable state, if two logs hold an entry with the same index and term,
    they are identical, commands included, up to that index.

    The invariant behind it is stronger: every entry of every log was copied, with everything before
    it, from the log of the leader of the entry's term (`Traced`).
 */
module LogMatching {
  import opened RaftLog
  import opened Quorum
  import opened NodeModel
  import opened NetworkModel
  import opened Effects
  import opened History
  import opened Election
  import opened Merging

  // ---------------------------------------------------------------- traced logs

  /** Every entry, with everything before it, stands in the log of the leader of its term. */
  ghost predicate Traced(lead: map<nat, Leadership>, es: seq<Entry>) {
    forall i | 1 <= i < |es| :: es[i].term in lead && Agree(es, lead[es[i].term].log, i)
  }

  ghost predicate TermsUpTo(es: Entries, t: nat) {
    es[|es| - 1].term <= t
  }

  ghost predicate Sound(lead: map<nat, Leadership>, es: Entries, t: nat) {
    WellFormed(es) && TermsUpTo(es, t) && Traced(lead, es)
  }

  /** Leader logs only extend. */
  ghost predicate LogsExtend(lead: map<nat, Leadership>, lead': map<nat, Leadership>) {
    forall t | t in lead :: t in lead' && lead[t].log <= lead'[t].log
  }

  lemma PrefixKeepsAgree(a: seq<Entry>, b: seq<Entry>, b': seq<Entry>, k: nat)
    requires Agree(a, b, k) && b <= b'
    ensures Agree(a, b', k)
  {
    assert b'[..k + 1] == b[..k + 1];
  }

  lemma TracedExtends(lead: map<nat, Leadership>, lead': map<nat, Leadership>, es: seq<Entry>)
    requires Traced(lead, es) && LogsExtend(lead, lead')
    ensures Traced(lead', es)
  {
    forall i | 1 <= i < |es| ensures es[i].term in lead' && Agree(es, lead'[es[i].term].log, i) {
      PrefixKeepsAgree(es, lead[es[i].term].log, lead'[es[i].term].log, i);
    }
  }

  lemma AgreeTransitive(a: seq<Entry>, b: seq<Entry>, c: seq<Entry>, k: nat)
    requires Agree(a, b, k) && Agree(b, c, k)
    ensures Agree(a, c, k) && Agree(c, a, k)
  {
  }

  /** Two traced logs with the same term at an index are identical up to it. */
  lemma SameTermAgree(lead: map<nat, Leadership>, a: Entries, b: Entries, i: nat)
    requires Aligned(a) && Aligned(b) && Traced(lead, a) && Traced(lead, b)
    requires i < |a| && i < |b| && a[i].term == b[i].term
    ensures Agree(a, b, i)
  {
    if i == 0 {
      assert a[..1] == [DUMMY] == b[..1];
    } else {
      var l := lead[a[i].term].log;
      assert Agree(a, l, i) && Agree(b, l, i);
    }
  }

  lemma PrefixIsTraced(lead: map<nat, Leadership>, es: seq<Entry>, n: nat)
    requires Traced(lead, es) && n <= |es|
    ensures Traced(lead, es[..n])
  {
    forall i | 1 <= i < n ensures es[..n][i].term in lead && Agree(es[..n], lead[es[..n][i].term].log, i) {
      assert es[..n][i] == es[i];
      assert es[..n][..i + 1] == es[..i + 1];
    }
  }

  lemma PrefixIsSound(lead: map<nat, Leadership>, es: Entries, t: nat, n: nat)
    requires Sound(lead, es, t) && 1 <= n <= |es|
    ensures Sound(lead, es[..n], t)
  {
    PrefixIsTraced(lead, es, n);
    var p := es[..n];
    assert forall i | 0 <= i < n :: p[i] == es[i];
    assert es[n - 1].term <= es[|es| - 1].term;
  }

  lemma TracedMatch(lead: map<nat, Leadership>, a: Entries, b: Entries)
    requires Aligned(a) && Aligned(b) && Traced(lead, a) && Traced(lead, b)
    ensures Matching(a, b)
  {
    forall i | 0 <= i < |a| && i < |b| && a[i].term == b[i].term ensures Agree(a, b, i) {
      SameTermAgree(lead, a, b, i);
    }
  }

  // ---------------------------------------------------------------- the invariant

  ghost predicate NodeLogOk(w: World, n: NodeState) {
    && Sound(w.lead, n.log.entries, n.currentTerm)
    && n.log.commitIndex < |n.log.entries|
    && (n.role == Leader && n.currentTerm in w.lead ==> w.lead[n.currentTerm].log == n.log.entries)
  }

  /** A leader's log is the log it was elected with followed by entries of its own term. */
  ghost predicate LeadLogOk(w: World, t: nat)
    requires t in w.lead
  {
    var l := w.lead[t];
    var b := Ballot(t, l.id, l.id);
    && Sound(w.lead, l.log, t)
    && b in w.votes && w.votes[b] <= l.log
    && forall i | |w.votes[b]| <= i < |l.log| :: l.log[i].term == t
  }

  ghost predicate VoteLogOk(w: World, b: Ballot)
    requires b in w.votes
  {
    && WellFormed(w.votes[b]) && Traced(w.lead, w.votes[b])
    && (b.voter == b.candidate ==> w.votes[b][|w.votes[b]| - 1].term < b.term)
  }

  ghost predicate AppendOk(w: World, m: Message) {
    m.AppendEntries? ==> m.term in w.lead && Stretch(m, w.lead[m.term].log)
  }

  ghost predicate NodeLogsOk(w: World) {
    forall id | id in w.net.nodes :: NodeLogOk(w, w.net.nodes[id])
  }
  ghost predicate LeadLogsOk(w: World) {
    forall t | t in w.lead :: LeadLogOk(w, t)
  }
  ghost predicate VoteLogsOk(w: World) {
    forall b | b in w.votes :: VoteLogOk(w, b)
  }
  ghost predicate AppendsOk(w: World) {
    forall m | m in w.net.pool :: AppendOk(w, m)
  }

  ghost predicate LogInv(w: World) {
    NodeLogsOk(w) && LeadLogsOk(w) && VoteLogsOk(w) && AppendsOk(w)
  }

  lemma NodeLogFacts(w: World, id: nat)
    requires LogInv(w) && id in w.net.nodes
    ensures NodeLogOk(w, w.net.nodes[id])
  {
  }

  lemma LeadLogFacts(w: World, t: nat)
    requires LogInv(w) && t in w.lead
    ensures LeadLogOk(w, t)
  {
  }

  lemma AppendFacts(w: World, m: Message)
    requires LogInv(w) && m in w.net.pool
    ensures AppendOk(w, m)
  {
  }

  // ---------------------------------------------------------------- what every effect keeps

  /** Only the leaderships of `id` may have changed, and only by extending their logs; new ones are
      `id`'s too. */
  ghost predicate LeadsMove(w: World, w': World, id: nat) {
    && LogsExtend(w.lead, w'.lead)
    && forall t | t in w'.lead ::
         if t in w.lead then w'.lead[t].id == w.lead[t].id && (w.lead[t].id == id || w'.lead[t] == w.lead[t])
         else w'.lead[t].id == id
  }

  lemma KeepNodeLogs(w: World, id: nat, n': NodeState, out: seq<Message>, w': World)
    requires NodeLogsOk(w) && RolesOk(w) && WellWired(w.net) && Moves(w, id, n', out, w') && LeadsMove(w, w', id)
    requires NodeLogOk(w', n')
    ensures NodeLogsOk(w')
  {
    forall i | i in w'.net.nodes ensures NodeLogOk(w', w'.net.nodes[i]) {
      if i != id {
        var n := w.net.nodes[i];
        assert NodeLogOk(w, n) && LeaderOk(w, n);
        TracedExtends(w.lead, w'.lead, n.log.entries);
      }
    }
  }

  lemma KeepVoteLogs(w: World, w': World, id: nat)
    requires VoteLogsOk(w) && LeadsMove(w, w', id)
    requires forall b | b in w'.votes :: (b in w.votes && w'.votes[b] == w.votes[b]) || VoteLogOk(w', b)
    ensures VoteLogsOk(w')
  {
    forall b | b in w'.votes ensures VoteLogOk(w', b) {
      if b in w.votes && w'.votes[b] == w.votes[b] {
        assert VoteLogOk(w, b);
        TracedExtends(w.lead, w'.lead, w.votes[b]);
      }
    }
  }

  lemma KeepAppends(w: World, id: nat, n': NodeState, out: seq<Message>, w': World)
    requires AppendsOk(w) && Moves(w, id, n', out, w') && LeadsMove(w, w', id)
    requires forall m | m in out :: AppendOk(w', m)
    ensures AppendsOk(w')
  {
    forall m | m in w'.net.pool ensures AppendOk(w', m) {
      if m !in out && m.AppendEntries? {
        assert AppendOk(w, m);
        StretchExtends(m, w.lead[m.term].log, w'.lead[m.term].log);
      }
    }
  }

  lemma KeepLeadLogs(w: World, w': World, id: nat)
    requires LeadLogsOk(w) && VotesGrow(w, w') && LeadsMove(w, w', id)
    requires forall t | t in w'.lead && (t !in w.lead || w'.lead[t] != w.lead[t]) :: LeadLogOk(w', t)
    ensures LeadLogsOk(w')
  {
    forall t | t in w'.lead ensures LeadLogOk(w', t) {
      if t in w.lead && w'.lead[t] == w.lead[t] {
        assert LeadLogOk(w, t);
        TracedExtends(w.lead, w'.lead, w.lead[t].log);
      }
    }
  }

  // ---------------------------------------------------------------- effect by effect

  /** Effects that leave every leader log as it is. */
  lemma SteadyKeepsLogs(w: World, id: nat, n': NodeState, out: seq<Message>, w': World)
    requires LogInv(w) && ElectionInv(w) && Moves(w, id, n', out, w') && w'.lead == w.lead && VotesGrow(w, w')
    requires NodeLogOk(w', n')
    requires forall b | b in w'.votes && b !in w.votes :: VoteLogOk(w', b)
    requires forall m | m in out :: AppendOk(w', m)
    ensures LogInv(w')
  {
    hide NodeLogsOk, LeadLogsOk, VoteLogsOk, AppendsOk, NodeLogOk, VoteLogOk, AppendOk;
    hide AlignedNet, BallotsPlaced, OneVote, VoteKept, RolesOk, LeadershipsOk, MessagesOk;
    assert LeadsMove(w, w', id);
    KeepNodeLogs(w, id, n', out, w');
    KeepVoteLogs(w, w', id);
    KeepAppends(w, id, n', out, w');
    KeepLeadLogs(w, w', id);
  }

  lemma BroadcastIsStretch(n: NodeState, m: Message)
    requires Aligned(n.log.entries) && m in Broadcast(n)
    ensures m.AppendEntries? && m.term == n.currentTerm && Stretch(m, n.log.entries)
  {
    BroadcastMember(n, m);
    AppendForIsStretch(n, m.to);
  }

  /** A leader that keeps its entries keeps its leadership record. */
  lemma SteadyLead(w: World, n: NodeState, n': NodeState)
    requires LeaderOk(w, n) && NodeLogOk(w, n) && n'.log.entries == n.log.entries
    requires n'.role == Leader ==> n.role == Leader && n'.currentTerm == n.currentTerm
    ensures RecordLead(w.lead, n, n') == w.lead
  {
  }

  lemma LocalKeepsLogs(w: World, id: nat, n': NodeState, out: seq<Message>, w': World)
    requires LogInv(w) && ElectionInv(w) && Moves(w, id, n', out, w')
    requires var n := w.net.nodes[id];
             Calm(n, n', out) || Bumped(n, n', out) || Beat(n, n', out) || Rebooted(n, n', out)
    requires Records(w, w.net.nodes[id], n', out, w')
    ensures LogInv(w')
  {
    hide NodeLogsOk, LeadLogsOk, VoteLogsOk, AppendsOk;
    hide Wired, AlignedNet, BallotsPlaced, OneVote, VoteKept, RolesOk, LeadershipsOk, MessagesOk;
    var n := w.net.nodes[id];
    NodeFacts(w, id);
    NodeLogFacts(w, id);
    SteadyLead(w, n, n');
    NoVoteRecorded(w, n, n', out, RequestVote(0, 0, 0, 0, 0));
    forall m | m in out ensures AppendOk(w', m) {
      if Beat(n, n', out) { BroadcastIsStretch(n', m); }
    }
    SteadyKeepsLogs(w, id, n', out, w');
  }

  lemma CampaignKeepsLogs(w: World, id: nat, n': NodeState, out: seq<Message>, w': World)
    requires LogInv(w) && ElectionInv(w) && Moves(w, id, n', out, w')
    requires Campaigned(w.net.nodes[id], n', out) && Records(w, w.net.nodes[id], n', out, w')
    ensures LogInv(w')
  {
    hide NodeLogsOk, LeadLogsOk, VoteLogsOk, AppendsOk;
    hide Wired, AlignedNet, BallotsPlaced, OneVote, VoteKept, RolesOk, LeadershipsOk, MessagesOk;
    NodeFacts(w, id);
    NodeLogFacts(w, id);
    forall m | m in out ensures AppendOk(w', m) {
      var i :| 0 <= i < |out| && out[i] == m;
    }
    SteadyKeepsLogs(w, id, n', out, w');
  }

  lemma GrantKeepsLogs(w: World, id: nat, n': NodeState, out: seq<Message>, w': World, m: Message)
    requires LogInv(w) && ElectionInv(w) && Moves(w, id, n', out, w') && m in w.net.pool && m.to == id
    requires Granted(w.net.nodes[id], n', out, m) && Records(w, w.net.nodes[id], n', out, w')
    ensures LogInv(w')
  {
    hide NodeLogsOk, LeadLogsOk, VoteLogsOk, AppendsOk;
    hide Wired, AlignedNet, BallotsPlaced, OneVote, VoteKept, RolesOk, LeadershipsOk, MessagesOk;
    var n := w.net.nodes[id];
    NodeFacts(w, id);
    MessageFacts(w, m);
    NodeLogFacts(w, id);
    SteadyLead(w, n, n');
    SteadyKeepsLogs(w, id, n', out, w');
  }

  lemma {:induction false} ScanStaysInLog(n: NodeState, idx: nat)
    requires n.log.commitIndex < |n.log.entries|
    ensures n.log.commitIndex <= ScanCommit(n, idx) < |n.log.entries|
  {
    if idx > n.log.commitIndex && idx < |n.log.entries| { ScanStaysInLog(n, idx - 1); }
  }

  lemma ReplyKeepsLogs(w: World, id: nat, n': NodeState, out: seq<Message>, w': World, m: Message)
    requires LogInv(w) && ElectionInv(w) && Moves(w, id, n', out, w')
    requires var n := w.net.nodes[id]; Tallied(n, n', out, m) || Counted(n, n', out, m)
    requires Records(w, w.net.nodes[id], n', out, w')
    ensures LogInv(w')
  {
    hide NodeLogsOk, LeadLogsOk, VoteLogsOk, AppendsOk;
    hide Wired, AlignedNet, BallotsPlaced, OneVote, VoteKept, RolesOk, LeadershipsOk, MessagesOk;
    var n := w.net.nodes[id];
    NodeFacts(w, id);
    NodeLogFacts(w, id);
    SteadyLead(w, n, n');
    NoVoteRecorded(w, n, n', out, m);
    if Counted(n, n', out, m) { ScanStaysInLog(n'.(log := n.log), LastIndex(n.log.entries)); }
    SteadyKeepsLogs(w, id, n', out, w');
  }

  /** A log after merging a leader's entries. */
  lemma MergedLogSound(lead: map<nat, Leadership>, l: LogState, log: Entries, m: Message, t: nat)
    requires m.AppendEntries? && Stretch(m, log) && Sound(lead, log, m.term)
    requires Sound(lead, l.entries, t) && t <= m.term && l.commitIndex < |l.entries|
    requires MatchesPrevLogTerm(l.entries, m.prevLogIndex, m.prevLogTerm)
    ensures var r := Append(l, m.entries).log; Sound(lead, r.entries, m.term) && r.commitIndex < |r.entries|
  {
    hide Traced, WellFormed, Agree, Matching;
    assert Aligned(l.entries) && Aligned(log) by { WellFormedIsAligned(l.entries); WellFormedIsAligned(log); }
    TracedMatch(lead, l.entries, log);
    var d := MergeYieldsLeaderPrefix(l, log, m);
    var end := m.prevLogIndex + |m.entries|;
    var r := Append(l, m.entries).log;
    if r != l {
      PrefixIsSound(lead, log, m.term, end + 1);
      assert |r.entries| == end + 1;
    }
  }

  lemma WellFormedIsAligned(es: seq<Entry>)
    requires WellFormed(es)
    ensures Aligned(es)
  {
  }

  /** The node that merged a leader's entries. */
  lemma MergedNodeLogOk(w: World, n: NodeState, n': NodeState, out: seq<Message>, m: Message)
    requires NodeLogOk(w, n) && m.AppendEntries? && AppendOk(w, m) && LeadLogOk(w, m.term)
    requires Followed(n, n', out, m)
    ensures NodeLogOk(w, n')
  {
    hide Traced, WellFormed, Append, FollowerCommit, Stretch;
    if n'.log != n.log {
      MergedLogSound(w.lead, n.log, w.lead[m.term].log, m, n.currentTerm);
      var r := Append(n.log, m.entries).log;
      WellFormedIsAligned(r.entries);
      FollowerCommitInLog(r, m.leaderCommit);
    }
  }

  lemma FollowKeepsLogs(w: World, id: nat, n': NodeState, out: seq<Message>, w': World, m: Message)
    requires LogInv(w) && ElectionInv(w) && Moves(w, id, n', out, w') && m in w.net.pool
    requires Followed(w.net.nodes[id], n', out, m) && Records(w, w.net.nodes[id], n', out, w')
    ensures LogInv(w')
  {
    hide NodeLogsOk, LeadLogsOk, VoteLogsOk, AppendsOk, Merged, LeadLogOk;
    hide Wired, AlignedNet, BallotsPlaced, OneVote, VoteKept, RolesOk, LeadershipsOk, MessagesOk;
    var n := w.net.nodes[id];
    NodeLogFacts(w, id);
    AppendFacts(w, m);
    LeadLogFacts(w, m.term);
    NoVoteRecorded(w, n, n', out, m);
    MergedNodeLogOk(w, n, n', out, m);
    assert w'.lead == w.lead;
    FollowAnswers(n, n', out, m);
    SteadyKeepsLogs(w, id, n', out, w');
  }

  lemma FollowAnswers(n: NodeState, n': NodeState, out: seq<Message>, m: Message)
    requires Followed(n, n', out, m)
    ensures forall x | x in out :: !x.AppendEntries?
  {
  }

  /** A new leader: its log is the one it stood with, and holds no entry of its own term yet. */
  lemma WinKeepsLogs(w: World, id: nat, n': NodeState, out: seq<Message>, w': World, m: Message)
    requires LogInv(w) && ElectionInv(w) && Moves(w, id, n', out, w') && m in w.net.pool && m.to == id
    requires Elected(w.net.nodes[id], n', out, m) && Records(w, w.net.nodes[id], n', out, w')
    ensures LogInv(w')
  {
    hide NodeLogsOk, LeadLogsOk, VoteLogsOk, AppendsOk, NodeLogOk, Broadcast, FreshIndexes, Voters, Wins;
    hide AlignedNet, BallotsPlaced, OneVote, VoteKept, RolesOk, LeadershipsOk, MessagesOk;
    var n := w.net.nodes[id];
    var t := n.currentTerm;
    NodeFacts(w, id);
    NoSecondLeader(w, id, n', m);
    NoVoteRecorded(w, n, n', out, m);
    NodeLogFacts(w, id);
    assert LeadsMove(w, w', id);
    NewLeadLogOk(w, n, n', w');
    KeepNodeLogs(w, id, n', out, w');
    KeepVoteLogs(w, w', id);
    forall x | x in out ensures AppendOk(w', x) { BroadcastIsStretch(n', x); }
    KeepAppends(w, id, n', out, w');
    KeepLeadLogs(w, w', id);
  }

  lemma NewLeadLogOk(w: World, n: NodeState, n': NodeState, w': World)
    requires NodeLogOk(w, n) && CandidateOk(w, n) && n.role == Candidate && n'.role == Leader
    requires SameBallot(n, n') && n'.log == n.log && n'.id == n.id && w'.votes == w.votes
    requires n.currentTerm !in w.lead && w'.lead == RecordLead(w.lead, n, n') && LogsExtend(w.lead, w'.lead)
    ensures LeadLogOk(w', n.currentTerm) && NodeLogOk(w', n')
  {
    TracedExtends(w.lead, w'.lead, n.log.entries);
  }

  lemma ProposeKeepsLogs(w: World, id: nat, n': NodeState, out: seq<Message>, w': World)
    requires LogInv(w) && ElectionInv(w) && Moves(w, id, n', out, w')
    requires Proposed(w.net.nodes[id], n', out) && Records(w, w.net.nodes[id], n', out, w')
    ensures LogInv(w')
  {
    hide NodeLogsOk, LeadLogsOk, VoteLogsOk, AppendsOk, NodeLogOk, LeadLogOk;
    hide AlignedNet, BallotsPlaced, OneVote, VoteKept, RolesOk, LeadershipsOk, MessagesOk;
    var n := w.net.nodes[id];
    NodeFacts(w, id);
    NodeLogFacts(w, id);
    LeadLogFacts(w, n.currentTerm);
    NoVoteRecorded(w, n, n', out, RequestVote(0, 0, 0, 0, 0));
    GrownLeadLogOk(w, n, n', out, w');
    KeepNodeLogs(w, id, n', out, w');
    KeepVoteLogs(w, w', id);
    KeepAppends(w, id, n', out, w');
    KeepLeadLogs(w, w', id);
  }

  /** Appending an entry of term `t` keeps a log traced, once that leader's log is the result. */
  lemma SnocIsSound(lead: map<nat, Leadership>, es: Entries, es': Entries, t: nat)
    requires Sound(lead, es, t) && t in lead && lead[t].log == es'
    requires |es'| == |es| + 1 && es'[..|es|] == es && es'[|es|].term == t && es'[|es|].index == |es|
    ensures Sound(lead, es', t)
  {
    assert forall i | 0 <= i < |es| :: es'[i] == es[i];
    forall i | 1 <= i < |es'| ensures es'[i].term in lead && Agree(es', lead[es'[i].term].log, i) {
      if i < |es| {
        assert Agree(es, lead[es[i].term].log, i);
        assert es'[..i + 1] == es[..i + 1];
      }
    }
  }

  lemma GrownLeadLogOk(w: World, n: NodeState, n': NodeState, out: seq<Message>, w': World)
    requires NodeLogOk(w, n) && LeaderOk(w, n) && Proposed(n, n', out) && n'.id == n.id
    requires LeadLogOk(w, n.currentTerm) && w'.votes == w.votes && w'.lead == RecordLead(w.lead, n, n')
    ensures LeadsMove(w, w', n.id) && LeadLogOk(w', n.currentTerm) && NodeLogOk(w', n')
  {
    hide Traced, WellFormed;
    var es, es' := n.log.entries, n'.log.entries;
    assert es <= es';
    assert LogsExtend(w.lead, w'.lead);
    TracedExtends(w.lead, w'.lead, es);
    SnocIsSound(w'.lead, es, es', n.currentTerm);
    var b := Ballot(n.currentTerm, n.id, n.id);
    forall i | |w.votes[b]| <= i < |es'| ensures es'[i].term == n.currentTerm {
      if i < |es| { assert es'[i] == es[i]; }
    }
  }

  lemma AdvanceKeepsLogs(w: World, e: Event)
    requires LogInv(w) && ElectionInv(w)
    ensures LogInv(Advance(w, e))
  {
    hide React, LogInv, NodeLogOk, LeadLogOk, VoteLogOk, AppendOk, RecordVotes, RecordLead;
    hide Wired, AlignedNet, BallotsPlaced, OneVote, VoteKept, RolesOk, LeadershipsOk, MessagesOk;
    hide Calm, Bumped, Campaigned, Beat, Proposed, Rebooted, Granted, Tallied, Elected, Followed, Counted;
    if Enabled(w.net, e) {
      var id, w' := Target(e), Advance(w, e);
      var n := w.net.nodes[id];
      var o := React(n, e);
      NodeFacts(w, id);
      MovesKeepsWiring(w, e, w');
      Classify(n, e);
      if Campaigned(n, o.node, o.out) {
        CampaignKeepsLogs(w, id, o.node, o.out, w');
      } else if Proposed(n, o.node, o.out) {
        ProposeKeepsLogs(w, id, o.node, o.out, w');
      } else if LocalEffect(n, o.node, o.out) {
        LocalKeepsLogs(w, id, o.node, o.out, w');
      } else if Granted(n, o.node, o.out, e.m) {
        GrantKeepsLogs(w, id, o.node, o.out, w', e.m);
      } else if Elected(n, o.node, o.out, e.m) {
        WinKeepsLogs(w, id, o.node, o.out, w', e.m);
      } else if Followed(n, o.node, o.out, e.m) {
        FollowKeepsLogs(w, id, o.node, o.out, w', e.m);
      } else {
        ReplyKeepsLogs(w, id, o.node, o.out, w', e.m);
      }
    }
  }

  // ---------------------------------------------------------------- every run

  lemma {:induction false} LogsHold(init: Net, es: seq<Event>)
    requires Initial(init) && WellWired(init)
    ensures LogInv(Chronicle(init, es)) && ElectionInv(Chronicle(init, es))
  {
    ElectionHolds(init, es);
    if es == [] {
      forall id | id in init.nodes ensures NodeLogOk(Start(init), init.nodes[id]) {
        var draw: Draw :| init.nodes[id] == InitNode(id, init.nodes[id].peers, draw);
      }
    } else {
      LogsHold(init, es[..|es| - 1]);
      AdvanceKeepsLogs(Chronicle(init, es[..|es| - 1]), es[|es| - 1]);
    }
  }

  /** Log shape in every reachable state: entries sit at their own index below the dummy entry, terms
      never decrease, none exceeds the current term, and the commit index stays inside the log. */
  lemma ReachableLogShape(init: Net, es: seq<Event>, id: nat)
    requires Initial(init) && WellWired(init) && id in Exec(init, es).nodes
    ensures var n := Exec(init, es).nodes[id];
            && WellFormed(n.log.entries)
            && (forall i | 0 <= i < |n.log.entries| :: n.log.entries[i].term <= n.currentTerm)
            && n.log.commitIndex <= LastIndex(n.log.entries)
  {
    ChronicleIsExec(init, es);
    LogsHold(init, es);
    NodeLogFacts(Chronicle(init, es), id);
  }

  /** In every run a crashed node whose integers fit 64 bits comes back without an error: its term, vote
      and log survive, its commit index returns to 0, and it is a follower again. */
  lemma ReachableRestart(init: Net, es: seq<Event>, id: nat, draw: Draw)
    requires Initial(init) && WellWired(init) && id in Exec(init, es).nodes
    requires Exec(init, es).nodes[id].crashed && Representable(Exec(init, es).nodes[id])
    ensures var n := Exec(init, es).nodes[id]; var r := Restart(n, draw);
            && r.ok && !r.node.crashed && r.node.role == Follower
            && r.node.currentTerm == n.currentTerm && r.node.votedFor == n.votedFor
            && r.node.log == LogState(n.log.entries, 0)
  {
    hide Restart, Representable, Exec, TermsAscend;
    ReachableLogShape(init, es, id);
    RestartPreserves(Exec(init, es).nodes[id], draw);
  }

  /** Log Matching over every run: logs of any two nodes, at any two points of it. */
  lemma LogMatchingHolds(init: Net, es: seq<Event>, i: nat, j: nat, a: nat, b: nat, k: nat)
    requires Initial(init) && WellWired(init) && i <= |es| && j <= |es|
    requires a in Exec(init, es[..i]).nodes && b in Exec(init, es[..j]).nodes
    requires var la, lb := Exec(init, es[..i]).nodes[a].log.entries, Exec(init, es[..j]).nodes[b].log.entries;
             k < |la| && k < |lb| && la[k].term == lb[k].term
    ensures var la, lb := Exec(init, es[..i]).nodes[a].log.entries, Exec(init, es[..j]).nodes[b].log.entries;
            Agree(la, lb, k)
  {
    var w := Chronicle(init, es);
    TracedLater(init, es, i, a);
    TracedLater(init, es, j, b);
    SameTermAgree(w.lead, Exec(init, es[..i]).nodes[a].log.entries, Exec(init, es[..j]).nodes[b].log.entries, k);
  }

  /** A log of an earlier state stays traced in the final history. */
  lemma TracedLater(init: Net, es: seq<Event>, i: nat, id: nat)
    requires Initial(init) && WellWired(init) && i <= |es| && id in Exec(init, es[..i]).nodes
    ensures var log := Exec(init, es[..i]).nodes[id].log.entries;
            Aligned(log) && Traced(Chronicle(init, es).lead, log)
  {
    ChronicleIsExec(init, es[..i]);
    LogsHold(init, es[..i]);
    NodeLogFacts(Chronicle(init, es[..i]), id);
    LeadLogsGrow(init, es, i);
    TracedExtends(Chronicle(init, es[..i]).lead, Chronicle(init, es).lead, Exec(init, es[..i]).nodes[id].log.entries);
  }

  lemma {:induction false} LeadLogsGrow(init: Net, es: seq<Event>, i: nat)
    requires Initial(init) && WellWired(init) && i <= |es|
    ensures LogsExtend(Chronicle(init, es[..i]).lead, Chronicle(init, es).lead)
    decreases |es|
  {
    if i == |es| {
      assert es[..i] == es;
    } else {
      var most := es[..|es| - 1];
      LeadLogsGrow(init, most, i);
      assert most[..i] == es[..i];
      LogsHold(init, most);
      AdvanceExtendsLogs(Chronicle(init, most), es[|es| - 1]);
      ExtendsTransitive(Chronicle(init, es[..i]).lead, Chronicle(init, most).lead, Chronicle(init, es).lead);
    }
  }

  lemma ExtendsTransitive(a: map<nat, Leadership>, b: map<nat, Leadership>, c: map<nat, Leadership>)
    requires LogsExtend(a, b) && LogsExtend(b, c)
    ensures LogsExtend(a, c)
  {
  }

  lemma AdvanceExtendsLogs(w: World, e: Event)
    requires LogInv(w) && ElectionInv(w)
    ensures LogsExtend(w.lead, Advance(w, e).lead)
  {
    hide React, NodeLogsOk, LeadLogsOk, VoteLogsOk, AppendsOk;
    hide Wired, AlignedNet, BallotsPlaced, OneVote, VoteKept, RolesOk, LeadershipsOk, MessagesOk, Broadcast,
      VoteRequests;
    if Enabled(w.net, e) {
      var id := Target(e);
      var n := w.net.nodes[id];
      var o := React(n, e);
      NodeFacts(w, id);
      NodeLogFacts(w, id);
      Classify(n, e);
      if o.node.role == Leader && n.role != Leader {
        NoSecondLeader(w, id, o.node, e.m);
      }
    }
  }
}
