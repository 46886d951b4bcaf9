/** The safety theorems over whole runs, stated on the run alone. */
module StateMachineSafety {
  import opened RaftLog
  import opened NodeModel
  import opened NetworkModel
  import opened Effects
  import opened History
  import opened Election
  import opened LogMatching
  import opened Safety
  import opened Commitment
  import opened Merging

  /** The `i`th event of the run sent the successful acknowledgement `m` for the first time. */
  ghost predicate NewAck(init: Net, es: seq<Event>, i: nat, m: Message)
    requires i < |es|
  {
    m in Exec(init, es[..i + 1]).pool && m !in Exec(init, es[..i]).pool && m.AppendEntriesResp? && m.success
  }

  /** Some leader of the acknowledged term had, at or before event `i`, a log that the follower shares
      through the acknowledged index once event `i` has happened. */
  ghost predicate InsideSharedPrefix(init: Net, es: seq<Event>, i: nat, m: Message)
    requires i < |es| && m.AppendEntriesResp?
  {
    exists j: nat, l: nat :: j <= i && SharesWith(init, es, i, m, j, l)
  }

  ghost predicate SharesWith(init: Net, es: seq<Event>, i: nat, m: Message, j: nat, l: nat)
    requires i < |es| && j <= i && m.AppendEntriesResp?
  {
    && LeaderAt(Exec(init, es[..j]), l, m.term)
    && m.from in Exec(init, es[..i + 1]).nodes
    && Agree(Exec(init, es[..j]).nodes[l].log.entries, Exec(init, es[..i + 1]).nodes[m.from].log.entries, m.matchIndex)
  }

  /** The run hypothesis. */
  ghost predicate AcksInside(init: Net, es: seq<Event>) {
    forall i: nat, m | i < |es| && NewAck(init, es, i, m) :: InsideSharedPrefix(init, es, i, m)
  }

  lemma AcksInsidePrefix(init: Net, es: seq<Event>, n: nat)
    requires AcksInside(init, es) && n <= |es|
    ensures AcksInside(init, es[..n])
  {
    var p := es[..n];
    forall i: nat, m | i < |p| && NewAck(init, p, i, m) ensures InsideSharedPrefix(init, p, i, m) {
      assert p[..i + 1] == es[..i + 1] && p[..i] == es[..i];
      assert NewAck(init, es, i, m);
      var j: nat, l: nat :| j <= i && SharesWith(init, es, i, m, j, l);
      assert p[..j] == es[..j];
      assert SharesWith(init, p, i, m, j, l);
    }
  }

  // ---------------------------------------------------------------- the invariant over runs

  /** A leader's log, at any point, is a prefix of what the history finally holds for its term. */
  lemma LeaderLogRecorded(init: Net, es: seq<Event>, j: nat, l: nat, t: nat)
    requires Initial(init) && WellWired(init) && j <= |es| && LeaderAt(Exec(init, es[..j]), l, t)
    ensures var w := Chronicle(init, es);
            && t in w.lead && Exec(init, es[..j]).nodes[l].log.entries <= w.lead[t].log
            && t in Chronicle(init, es[..j]).lead
               && Chronicle(init, es[..j]).lead[t].log == Exec(init, es[..j]).nodes[l].log.entries
  {
    hide LogsExtend, Sound;
    hide Wired, AlignedNet, BallotsPlaced, OneVote, VoteKept, RolesOk, LeadershipsOk, MessagesOk, NodeLogsOk,
      LeadLogsOk, VoteLogsOk, AppendsOk;
    ChronicleIsExec(init, es[..j]);
    LogsHold(init, es[..j]);
    var w := Chronicle(init, es[..j]);
    NodeFacts(w, l);
    NodeLogFacts(w, l);
    LeadLogsGrow(init, es, j);
    ExtendsAt(w.lead, Chronicle(init, es).lead, t);
  }

  lemma ExtendsAt(a: map<nat, Leadership>, b: map<nat, Leadership>, t: nat)
    requires LogsExtend(a, b) && t in a
    ensures t in b && a[t].log <= b[t].log
  {
  }

  lemma LastAckInside(init: Net, es: seq<Event>)
    requires Initial(init) && WellWired(init) && es != [] && AcksInside(init, es)
    ensures AckInsideEvent(Chronicle(init, es[..|es| - 1]), es[|es| - 1])
  {
    hide React, Agree, Apply, Chronicle, WellWired, Initial, Enabled;
    var i := |es| - 1;
    var w, e := Chronicle(init, es[..i]), es[i];
    ChronicleIsExec(init, es[..i]);
    LogsHold(init, es[..i]);
    assert es[..i + 1] == es;
    if Enabled(w.net, e) {
      var id := Target(e);
      assert id in w.net.nodes by { EnabledTarget(w.net, e); }
      var n := w.net.nodes[id];
      var o := React(n, e);
      NodeFacts(w, id);
      ReactAddresses(n, e);
      ApplyIs(w.net, e);
      forall m | m in o.out && m !in w.net.pool && m.AppendEntriesResp? && m.success
        ensures m.term in w.lead && Agree(w.lead[m.term].log, o.node.log.entries, m.matchIndex)
      {
        assert NewAck(init, es, i, m);
        var j: nat, l: nat :| j <= i && SharesWith(init, es, i, m, j, l);
        assert es[..i][..j] == es[..j];
        LeaderLogRecorded(init, es[..i], j, l, m.term);
        var log := Exec(init, es[..j]).nodes[l].log.entries;
        AgreeSymmetric(log, o.node.log.entries, m.matchIndex);
        PrefixKeepsAgree(o.node.log.entries, log, w.lead[m.term].log, m.matchIndex);
        AgreeSymmetric(o.node.log.entries, w.lead[m.term].log, m.matchIndex);
      }
    }
  }

  lemma EnabledTarget(net: Net, e: Event)
    requires Enabled(net, e)
    ensures Target(e) in net.nodes
  {
  }

  lemma ApplyIs(net: Net, e: Event)
    requires Enabled(net, e)
    ensures var o := React(net.nodes[Target(e)], e);
            Apply(net, e).nodes == net.nodes[Target(e) := o.node] && Apply(net, e).pool == net.pool + Sent(o.out)
  {
  }

  lemma StartIsSafe(init: Net)
    requires Initial(init) && WellWired(init)
    ensures HoldInv(Start(init)) && CommitInv(Start(init))
  {
    var w := Start(init);
    forall id | id in init.nodes ensures BookOk(w, init.nodes[id]) && NodeCommitted(w, init.nodes[id]) {
      var draw: Draw :| init.nodes[id] == InitNode(id, init.nodes[id].peers, draw);
    }
  }

  lemma {:induction false} SafetyHolds(init: Net, es: seq<Event>)
    requires Initial(init) && WellWired(init) && AcksInside(init, es)
    ensures SafetyInv(Chronicle(init, es))
  {
    hide SafetyInv, AckInsideEvent, Advance, AcksInside;
    if es == [] {
      LogsHold(init, es);
      StartIsSafe(init);
      SafetyIntro(Chronicle(init, es));
    } else {
      var most := es[..|es| - 1];
      AcksInsidePrefix(init, es, |es| - 1);
      SafetyHolds(init, most);
      LastAckInside(init, es);
      AdvanceKeepsSafety(Chronicle(init, most), es[|es| - 1]);
    }
  }

  lemma SafetyIntro(w: World)
    requires ElectionInv(w) && LogInv(w) && HoldInv(w) && CommitInv(w)
    ensures SafetyInv(w)
  {
  }

  lemma GrowsTransitive(a: World, b: World, c: World)
    requires Grows(a, b) && Grows(b, c)
    ensures Grows(a, c)
  {
    ExtendsTransitive(a.lead, b.lead, c.lead);
  }

  lemma {:induction false} RunGrows(init: Net, es: seq<Event>, i: nat)
    requires Initial(init) && WellWired(init) && i <= |es|
    ensures Grows(Chronicle(init, es[..i]), Chronicle(init, es))
    decreases |es|
  {
    hide Grows, Advance, ElectionInv, LogInv;
    if i == |es| {
      assert es[..i] == es;
      GrowsReflexive(Chronicle(init, es));
    } else {
      var most := es[..|es| - 1];
      RunGrows(init, most, i);
      assert most[..i] == es[..i];
      LogsHold(init, most);
      FindGrows(Chronicle(init, most), es[|es| - 1]);
      GrowsTransitive(Chronicle(init, es[..i]), Chronicle(init, most), Chronicle(init, es));
    }
  }

  lemma GrowsReflexive(w: World)
    ensures Grows(w, w)
  {
  }

  /** What a node has committed at some point of the run, in the light of the whole run. */
  lemma CommittedLater(init: Net, es: seq<Event>, i: nat, id: nat)
    requires Initial(init) && WellWired(init) && AcksInside(init, es) && i <= |es| && id in Exec(init, es[..i]).nodes
    ensures var n := Exec(init, es[..i]).nodes[id];
            && n.log.commitIndex < |n.log.entries| && WellFormed(n.log.entries)
               && TermsUpTo(n.log.entries, n.currentTerm)
            && Committed(Chronicle(init, es), n.log.entries, n.log.commitIndex, n.currentTerm)
  {
    hide Grows, ElectionInv, LogInv, HoldInv, CommitInv, Committed, AcksInside;
    var w := Chronicle(init, es[..i]);
    ChronicleIsExec(init, es[..i]);
    AcksInsidePrefix(init, es, i);
    SafetyHolds(init, es[..i]);
    CommitFacts(w, id);
    NodeLogFacts(w, id);
    RunGrows(init, es, i);
    var n := w.net.nodes[id];
    CommittedGrows(w, Chronicle(init, es), n.log.entries, n.log.commitIndex, n.currentTerm, n.log.entries,
      n.log.commitIndex, n.currentTerm);
  }

  // ---------------------------------------------------------------- the theorems

  /** State Machine Safety: whatever two nodes have committed at two points of a run, across crashes and
      restarts, is identical wherever both commit indexes reach. */
  lemma StateMachineSafetyHolds(init: Net, es: seq<Event>, i: nat, j: nat, a: nat, b: nat, k: nat)
    requires Initial(init) && WellWired(init) && AcksInside(init, es) && i <= |es| && j <= |es|
    requires a in Exec(init, es[..i]).nodes && b in Exec(init, es[..j]).nodes
    requires var la, lb := Exec(init, es[..i]).nodes[a].log, Exec(init, es[..j]).nodes[b].log;
             k <= la.commitIndex && k <= lb.commitIndex
    ensures Agree(Exec(init, es[..i]).nodes[a].log.entries, Exec(init, es[..j]).nodes[b].log.entries, k)
  {
    hide ElectionInv, LogInv, HoldInv, CommitInv, Committed, AcksInside;
    var w := Chronicle(init, es);
    var na, nb := Exec(init, es[..i]).nodes[a], Exec(init, es[..j]).nodes[b];
    CommittedLater(init, es, i, a);
    CommittedLater(init, es, j, b);
    SafetyHolds(init, es);
    if k == 0 {
      assert na.log.entries[..1] == [DUMMY] == nb.log.entries[..1];
    } else {
      ElectionGivesLeaderships(w);
      CommittedAgree(w, na.log.entries, na.log.commitIndex, na.currentTerm, nb.log.entries, nb.log.commitIndex,
        nb.currentTerm, k);
    }
  }

  /** What two nodes report as committed, at any two points of a run: one list is a prefix of the other. */
  lemma CommittedListsAgree(init: Net, es: seq<Event>, i: nat, j: nat, a: nat, b: nat)
    requires Initial(init) && WellWired(init) && AcksInside(init, es) && i <= |es| && j <= |es|
    requires a in Exec(init, es[..i]).nodes && b in Exec(init, es[..j]).nodes
    ensures var ca, cb := CommittedEntries(Exec(init, es[..i]).nodes[a].log),
            CommittedEntries(Exec(init, es[..j]).nodes[b].log);
            ca <= cb || cb <= ca
  {
    hide AcksInside, Exec, Initial, WellWired, TermsAscend, Agree;
    var la, lb := Exec(init, es[..i]).nodes[a].log, Exec(init, es[..j]).nodes[b].log;
    ReachableLogShape(init, es[..i], a);
    ReachableLogShape(init, es[..j], b);
    if la.commitIndex <= lb.commitIndex {
      StateMachineSafetyHolds(init, es, i, j, a, b, la.commitIndex);
      CommittedPrefix(la, lb);
    } else {
      StateMachineSafetyHolds(init, es, j, i, b, a, lb.commitIndex);
      CommittedPrefix(lb, la);
    }
  }

  lemma CommittedPrefix(a: LogState, b: LogState)
    requires Aligned(a.entries) && Aligned(b.entries)
    requires a.commitIndex <= b.commitIndex <= LastIndex(b.entries) && a.commitIndex <= LastIndex(a.entries)
    requires Agree(a.entries, b.entries, a.commitIndex)
    ensures CommittedEntries(a) <= CommittedEntries(b)
  {
    CommittedSlice(a);
    CommittedSlice(b);
    var k := a.commitIndex + 1;
    assert a.entries[1..k] == a.entries[..k][1..] == b.entries[..k][1..] == b.entries[1..k];
    assert b.entries[1..k] == b.entries[1..b.commitIndex + 1][..k - 1];
  }

  lemma CommittedSlice(l: LogState)
    requires Aligned(l.entries) && l.commitIndex <= LastIndex(l.entries)
    ensures CommittedEntries(l) == l.entries[1..l.commitIndex + 1]
  {
  }

  lemma ElectionGivesLeaderships(w: World)
    requires ElectionInv(w)
    ensures LeadershipsOk(w)
  {
  }

  /** Leader Completeness: what a node has committed in some term stands in the log of every leader of a
      later term, whenever in the run that leader is observed. */
  lemma LeaderCompletenessHolds(init: Net, es: seq<Event>, i: nat, j: nat, a: nat, l: nat, t: nat)
    requires Initial(init) && WellWired(init) && AcksInside(init, es) && i <= |es| && j <= |es|
    requires a in Exec(init, es[..i]).nodes && LeaderAt(Exec(init, es[..j]), l, t)
    requires Exec(init, es[..i]).nodes[a].currentTerm < t
    ensures var n := Exec(init, es[..i]).nodes[a];
            Agree(n.log.entries, Exec(init, es[..j]).nodes[l].log.entries, n.log.commitIndex)
  {
    hide ElectionInv, LogInv, HoldInv, CommitInv, Committed, AcksInside, Agree;
    var w := Chronicle(init, es);
    var n := Exec(init, es[..i]).nodes[a];
    var c, log := n.log.commitIndex, Exec(init, es[..j]).nodes[l].log.entries;
    CommittedLater(init, es, i, a);
    SafetyHolds(init, es);
    LeaderLogRecorded(init, es, j, l, t);
    LogsHold(init, es[..j]);
    if c == 0 {
      ChronicleIsExec(init, es[..j]);
      NodeLogFacts(Chronicle(init, es[..j]), l);
      assert n.log.entries[..1] == [DUMMY] == log[..1];
      AgreeIntro(n.log.entries, log, 0);
    } else {
      ElectionGivesLeaderships(w);
      CommittedInLeader(w, n.log.entries, c, n.currentTerm, t);
      RunGrows(init, es, j);
      HeldByShorter(Chronicle(init, es[..j]), w, n.log.entries, n.currentTerm, c, t);
    }
  }

  /** A leader that finally holds entries of earlier terms held them from the start. */
  lemma HeldByShorter(w: World, w': World, es: Entries, s: nat, c: nat, t: nat)
    requires LogInv(w) && LogInv(w') && Grows(w, w') && t in w.lead && t in w'.lead && s < t
    requires WellFormed(es) && TermsUpTo(es, s) && Agree(es, w'.lead[t].log, c)
    ensures Agree(es, w.lead[t].log, c)
  {
    hide NodeLogsOk, VoteLogsOk, AppendsOk, Traced;
    LeadLogFacts(w, t);
    LeadLogFacts(w', t);
    var i := |w.lead[t].log|;
    if i <= c {
      AgreeAt(es, w'.lead[t].log, c, i);
    } else {
      assert w.lead[t].log[..c + 1] == w'.lead[t].log[..c + 1];
    }
  }

  /** As long as a node is not restarted its commit index never falls, and what it has committed stays
      in its log. */
  lemma {:induction false} CommittedEntriesSurvive(init: Net, es: seq<Event>, i: nat, id: nat)
    requires Initial(init) && WellWired(init) && AcksInside(init, es) && i <= |es| && id in Exec(init, es[..i]).nodes
    requires forall x | i <= x < |es| :: !(es[x].RestartEvent? && es[x].id == id)
    ensures id in Exec(init, es).nodes
    ensures var was, now := Exec(init, es[..i]).nodes[id].log, Exec(init, es).nodes[id].log;
            was.commitIndex <= now.commitIndex && Agree(was.entries, now.entries, was.commitIndex)
    decreases |es|
  {
    CommitNeverFalls(init, es, i, id);
    assert es[..|es|] == es;
    StateMachineSafetyHolds(init, es, i, |es|, id, id, Exec(init, es[..i]).nodes[id].log.commitIndex);
  }

  lemma {:induction false} CommitNeverFalls(init: Net, es: seq<Event>, i: nat, id: nat)
    requires Initial(init) && WellWired(init) && AcksInside(init, es) && i <= |es| && id in Exec(init, es[..i]).nodes
    requires forall x | i <= x < |es| :: !(es[x].RestartEvent? && es[x].id == id)
    ensures id in Exec(init, es).nodes
    ensures Exec(init, es[..i]).nodes[id].log.commitIndex <= Exec(init, es).nodes[id].log.commitIndex
    decreases |es|
  {
    hide SafetyInv, AckInsideEvent, Advance, AcksInside, React, Initial, WellWired;
    if i == |es| {
      assert es[..i] == es;
    } else {
      var most, e := es[..|es| - 1], es[|es| - 1];
      assert most[..i] == es[..i];
      AcksInsidePrefix(init, es, |es| - 1);
      CommitNeverFalls(init, most, i, id);
      SafetyHolds(init, most);
      LastAckInside(init, es);
      ChronicleIsExec(init, most);
      ChronicleIsExec(init, es);
      AdvanceKeepsSafety(Chronicle(init, most), e);
      if id != Target(e) { OthersUntouched(Exec(init, most), e, id); }
    }
  }

  lemma OthersUntouched(net: Net, e: Event, id: nat)
    requires id in net.nodes && id != Target(e)
    ensures id in Apply(net, e).nodes && Apply(net, e).nodes[id] == net.nodes[id]
  {
  }

  // ---------------------------------------------------------------- the hypothesis as a check before each call

  /** What is true before the call when a follower is about to overstate: it is handed an AppendEntries it
      accepts, already holds the whole batch, and has a surplus tail that does not end in the leader's entry. */
  ghost predicate Overstates(f: NodeState, m: Message, log: Entries)
    requires m.AppendEntries?
  {
    var last := LastIndex(f.log.entries);
    && !f.crashed && f.currentTerm <= m.term && MatchesPrevLogTerm(f.log.entries, m.prevLogIndex, m.prevLogTerm)
    && HoldsBatch(f.log.entries, m) && last > m.prevLogIndex + |m.entries|
    && last < |f.log.entries| && (last >= |log| || f.log.entries[last].term != log[last].term)
  }

  /** The acknowledgement a follower sends that already holds the whole batch. */
  function AckOf(f: NodeState, m: Message): Message
    requires m.AppendEntries?
  {
    AppendEntriesResp(f.id, m.from, m.term, true, LastIndex(f.log.entries))
  }

  /** The `i`th event is about to make a follower overstate, in an acknowledgement not sent before. */
  ghost predicate OverstatingEvent(init: Net, es: seq<Event>, i: nat)
    requires i < |es|
  {
    var w, e := Chronicle(init, es[..i]), es[i];
    && Enabled(w.net, e) && e.DeliverEvent? && e.m.AppendEntries? && e.m.term in w.lead
    && Overstates(w.net.nodes[e.m.to], e.m, w.lead[e.m.term].log)
    && AckOf(w.net.nodes[e.m.to], e.m) !in w.net.pool
  }

  /** Every log in the history of leaders was the log of a leader at some point of the run. */
  lemma {:induction false} LeadWasReal(init: Net, es: seq<Event>, t: nat) returns (j: nat)
    requires Initial(init) && WellWired(init) && t in Chronicle(init, es).lead
    ensures j <= |es| && LeaderAt(Exec(init, es[..j]), Chronicle(init, es).lead[t].id, t)
    ensures Exec(init, es[..j]).nodes[Chronicle(init, es).lead[t].id].log.entries == Chronicle(init, es).lead[t].log
  {
    hide React, ElectionInv, LogInv, Initial, WellWired, RecordVotes, Records, Enabled;
    var most, e := es[..|es| - 1], es[|es| - 1];
    var w, w' := Chronicle(init, most), Chronicle(init, es);
    ChronicleIsExec(init, es);
    ElectionHolds(init, most);
    ElectionHolds(init, es);
    if t in w.lead && w'.lead[t] == w.lead[t] {
      j := LeadWasReal(init, most, t);
      assert most[..j] == es[..j];
    } else {
      j := |es|;
      assert es[..j] == es;
      assert Enabled(w.net, e);
      EnabledTarget(w.net, e);
      LeadChangeIsOwn(w, e, t);
    }
  }

  lemma LeadChangeIsOwn(w: World, e: Event, t: nat)
    requires ElectionInv(w) && ElectionInv(Advance(w, e)) && Enabled(w.net, e)
    requires var w' := Advance(w, e); t in w'.lead && !(t in w.lead && w'.lead[t] == w.lead[t])
    ensures var w' := Advance(w, e); var id := Target(e);
            w'.lead[t].id == id && LeaderAt(w'.net, id, t) && w'.net.nodes[id].log.entries == w'.lead[t].log
  {
    hide React, Wired, AlignedNet, BallotsPlaced, OneVote, VoteKept, RolesOk, LeadershipsOk, MessagesOk;
    NodeFacts(Advance(w, e), Target(e));
  }

  lemma LeaderShares(init: Net, es: seq<Event>, i: nat, m: Message)
    requires Initial(init) && WellWired(init) && i < |es| && m.AppendEntriesResp?
    requires var w := Chronicle(init, es[..i]);
             && m.term in w.lead && m.from in Exec(init, es[..i + 1]).nodes
             && Agree(w.lead[m.term].log, Exec(init, es[..i + 1]).nodes[m.from].log.entries, m.matchIndex)
    ensures InsideSharedPrefix(init, es, i, m)
  {
    hide Initial, WellWired, Chronicle, Exec, Agree;
    var w := Chronicle(init, es[..i]);
    var j := LeadWasReal(init, es[..i], m.term);
    assert es[..i][..j] == es[..j];
    assert SharesWith(init, es, i, m, j, w.lead[m.term].id);
  }

  lemma SharedWithLead(init: Net, es: seq<Event>, i: nat, m: Message)
    requires Initial(init) && WellWired(init) && i < |es| && m.AppendEntriesResp? && InsideSharedPrefix(init, es, i, m)
    ensures var w := Chronicle(init, es[..i]);
            && m.term in w.lead && m.from in Exec(init, es[..i + 1]).nodes
            && Agree(w.lead[m.term].log, Exec(init, es[..i + 1]).nodes[m.from].log.entries, m.matchIndex)
  {
    hide Initial, WellWired, Chronicle, Exec, Agree;
    var j: nat, l: nat :| j <= i && SharesWith(init, es, i, m, j, l);
    assert es[..i][..j] == es[..j];
    LeaderLogRecorded(init, es[..i], j, l, m.term);
    var log, mine := Exec(init, es[..j]).nodes[l].log.entries, Exec(init, es[..i + 1]).nodes[m.from].log.entries;
    AgreeSymmetric(log, mine, m.matchIndex);
    PrefixKeepsAgree(mine, log, Chronicle(init, es[..i]).lead[m.term].log, m.matchIndex);
    AgreeSymmetric(mine, Chronicle(init, es[..i]).lead[m.term].log, m.matchIndex);
  }

  /** The index a follower acknowledges, against the leader's log. */
  lemma AckShares(f: LogState, f': LogState, log: Entries, m: Message, k: nat)
    requires m.AppendEntries? && Stretch(m, log) && Aligned(f.entries) && Aligned(log) && Matching(f.entries, log)
    requires MatchesPrevLogTerm(f.entries, m.prevLogIndex, m.prevLogTerm)
    requires f' == FollowerCommit(Append(f, m.entries).log, m.leaderCommit)
    requires k == LastIndex(Append(f, m.entries).log.entries)
    ensures var last := LastIndex(f.entries);
            && last < |f.entries| && (HoldsBatch(f.entries, m) ==> k == last)
            && (Agree(log, f'.entries, k) <==>
                !(HoldsBatch(f.entries, m) && last > m.prevLogIndex + |m.entries|
                  && (last >= |log| || f.entries[last].term != log[last].term)))
  {
    assert LastIndex(f.entries) < |f.entries|;
    hide Append, FollowerCommit, Stretch, Matching, MatchesPrevLogTerm, HoldsBatch, Agree, Aligned, LastIndex;
    AckTruthfulIff(f, log, m);
    StretchFollows(m, log);
    if HoldsBatch(f.entries, m) { HeldIsAbsorbed(f, m); }
    FollowerCommitKeepsEntries(Append(f, m.entries).log, m.leaderCommit);
    if Agree(f'.entries, log, k) { AgreeSymmetric(f'.entries, log, k); }
    if Agree(log, f'.entries, k) { AgreeSymmetric(log, f'.entries, k); }
  }

  lemma HeldIsAbsorbed(f: LogState, m: Message)
    requires m.AppendEntries? && Aligned(f.entries) && RaftLog.Follows(m.entries, m.prevLogIndex)
             && HoldsBatch(f.entries, m)
    ensures Append(f, m.entries) == LogOutcome(f, None)
  {
    AbsorbHeld(f, m.entries, m.prevLogIndex);
  }

  /** Only a live node answers, and a successful answer to an AppendEntries comes from a merge. */
  lemma AnswersLive(n: NodeState, m: Message, draw: Draw, x: Message)
    requires x in Step(n, m, draw).out && x.AppendEntriesResp? && x.success
    requires Followed(n, Step(n, m, draw).node, Step(n, m, draw).out, m)
    ensures !n.crashed && n.currentTerm <= m.term && Merged(n, Step(n, m, draw).node, Step(n, m, draw).out, m)
  {
    hide Merged, HandleRequestVote, HandleRequestVoteResp, HandleAppendEntries, HandleAppendEntriesResp;
  }

  /** A successful acknowledgement answers an accepted AppendEntries of a recorded leader, and lies inside
      what the follower then shares with that leader exactly when the follower was not about to overstate. */
  lemma AckEventIff(w: World, e: Event, x: Message)
    requires ElectionInv(w) && LogInv(w) && Enabled(w.net, e)
    requires x in React(w.net.nodes[Target(e)], e).out && x.AppendEntriesResp? && x.success
    ensures e.DeliverEvent? && e.m.AppendEntries? && x.from == Target(e) && x.term == e.m.term && x.term in w.lead
    ensures var f := w.net.nodes[Target(e)];
            && (Agree(w.lead[x.term].log, React(f, e).node.log.entries, x.matchIndex) <==>
                !Overstates(f, e.m, w.lead[x.term].log))
            && (Overstates(f, e.m, w.lead[x.term].log) ==> x == AckOf(f, e.m))
  {
    hide Step, ElectionInv, LogInv;
    hide Broadcast, VoteRequests, Append, FollowerCommit, Traced, WellFormed, Stretch, MatchesPrevLogTerm;
    hide Matching, Agree, HoldsBatch, LastIndex;
    var n := w.net.nodes[Target(e)];
    var m := AckAnswers(w, e, x);
    AppendFacts(w, m);
    LeadLogFacts(w, m.term);
    NodeLogFacts(w, Target(e));
    var log := w.lead[m.term].log;
    WellFormedIsAligned(log);
    WellFormedIsAligned(n.log.entries);
    TracedMatch(w.lead, n.log.entries, log);
    AckShares(n.log, React(n, e).node.log, log, m, x.matchIndex);
  }

  lemma AckAnswers(w: World, e: Event, x: Message) returns (m: Message)
    requires ElectionInv(w) && Enabled(w.net, e)
    requires x in React(w.net.nodes[Target(e)], e).out && x.AppendEntriesResp? && x.success
    ensures e.DeliverEvent? && e.m == m && m.AppendEntries? && m in w.net.pool
    ensures var n, o := w.net.nodes[Target(e)], React(w.net.nodes[Target(e)], e);
            && !n.crashed && n.currentTerm <= m.term && Merged(n, o.node, o.out, m)
            && n.id == Target(e)
               && x == AppendEntriesResp(n.id, m.from, m.term, true, LastIndex(Append(n.log, m.entries).log.entries))
  {
    hide Step, ElectionInv;
    hide Broadcast, VoteRequests, Append, FollowerCommit, MatchesPrevLogTerm, LastIndex;
    var id := Target(e);
    var n := w.net.nodes[id];
    var o := React(n, e);
    NodeFacts(w, id);
    Classify(n, e);
    if o.out == Broadcast(o.node) { BroadcastMember(o.node, x); }
    if o.out == VoteRequests(o.node) { VoteRequestMember(o.node, x); }
    assert e.DeliverEvent?;
    m := e.m;
    MergedAnswer(n, o.node, o.out, m, x);
    AnswersLive(n, m, e.draw, x);
  }

  /** A follower that is about to overstate does. */
  lemma OverstaterAcks(f: NodeState, m: Message, draw: Draw, log: Entries)
    requires m.AppendEntries? && Overstates(f, m, log) && Aligned(f.log.entries)
             && RaftLog.Follows(m.entries, m.prevLogIndex)
    ensures Step(f, m, draw).out == [AckOf(f, m)]
  {
    hide Append, HoldsBatch, Aligned, RaftLog.Follows, FollowerCommit, LastIndex;
    HeldIsAbsorbed(f.log, m);
  }

  /** A new acknowledgement was sent by the event itself. */
  lemma NewAckIsSent(init: Net, es: seq<Event>, i: nat, m: Message)
    requires i < |es| && NewAck(init, es, i, m)
    ensures var net := Exec(init, es[..i]);
            Enabled(net, es[i]) && m in React(net.nodes[Target(es[i])], es[i]).out
    ensures Exec(init, es[..i + 1]) == Apply(Exec(init, es[..i]), es[i])
  {
    hide React, Enabled;
    assert es[..i + 1][..i] == es[..i];
    if Enabled(Exec(init, es[..i]), es[i]) {
      EnabledTarget(Exec(init, es[..i]), es[i]);
      ApplyIs(Exec(init, es[..i]), es[i]);
    }
  }

  lemma AckInsideUnlessOverstated(init: Net, es: seq<Event>, i: nat, m: Message)
    requires Initial(init) && WellWired(init) && i < |es| && NewAck(init, es, i, m)
    ensures OverstatingEvent(init, es, i) || InsideSharedPrefix(init, es, i, m)
  {
    hide React, Initial, WellWired, ElectionInv, LogInv, Enabled, Overstates, Agree, InsideSharedPrefix, Apply;
    var w, e := Chronicle(init, es[..i]), es[i];
    ChronicleIsExec(init, es[..i]);
    LogsHold(init, es[..i]);
    NewAckIsSent(init, es, i, m);
    EnabledTarget(w.net, e);
    ApplyIs(w.net, e);
    AckEventIff(w, e, m);
    if !Overstates(w.net.nodes[Target(e)], e.m, w.lead[m.term].log) {
      LeaderShares(init, es, i, m);
    }
  }

  lemma OverstatedAckOutside(init: Net, es: seq<Event>, i: nat)
    requires Initial(init) && WellWired(init) && i < |es| && OverstatingEvent(init, es, i)
    ensures var m := AckOf(Chronicle(init, es[..i]).net.nodes[es[i].m.to], es[i].m);
            NewAck(init, es, i, m) && !InsideSharedPrefix(init, es, i, m)
  {
    hide Step, Initial, WellWired, ElectionInv, LogInv, Enabled, Overstates, Agree, InsideSharedPrefix, Apply;
    var w, e := Chronicle(init, es[..i]), es[i];
    EnabledTarget(w.net, e);
    var f := w.net.nodes[e.m.to];
    var m := AckOf(f, e.m);
    ChronicleIsExec(init, es[..i]);
    LogsHold(init, es[..i]);
    assert e.m in w.net.pool by { DeliveredWasSent(w.net, e); }
    MessageFacts(w, e.m);
    NodeFacts(w, e.m.to);
    OverstaterAcks(f, e.m, e.draw, w.lead[e.m.term].log);
    assert m in React(f, e).out;
    ApplyIs(w.net, e);
    assert es[..i + 1][..i] == es[..i];
    AckEventIff(w, e, m);
    if InsideSharedPrefix(init, es, i, m) { SharedWithLead(init, es, i, m); }
  }

  lemma DeliveredWasSent(net: Net, e: Event)
    requires Enabled(net, e) && e.DeliverEvent?
    ensures e.m in net.pool
  {
  }

  /** The run hypothesis, exactly: it holds if and only if no event of the run finds a follower about to
      overstate, a check on the follower, the message and the leader's log before the call. */
  lemma AcksInsideIff(init: Net, es: seq<Event>)
    requires Initial(init) && WellWired(init)
    ensures AcksInside(init, es) <==> forall i: nat | i < |es| :: !OverstatingEvent(init, es, i)
  {
    hide OverstatingEvent, InsideSharedPrefix, Chronicle, Exec, Initial, WellWired;
    if AcksInside(init, es) {
      forall i: nat | i < |es| ensures !OverstatingEvent(init, es, i) {
        if OverstatingEvent(init, es, i) { OverstatedAckOutside(init, es, i); }
      }
    }
    if forall i: nat | i < |es| :: !OverstatingEvent(init, es, i) {
      forall i: nat, m | i < |es| && NewAck(init, es, i, m) ensures InsideSharedPrefix(init, es, i, m) {
        AckInsideUnlessOverstated(init, es, i, m);
      }
    }
  }

  /** The `i`th event hands no follower a batch that it holds in full below a surplus tail: no
      acknowledgement will then exceed the end of the batch it answers (`AckPastBatchIff`). */
  ghost predicate NoSurplus(init: Net, es: seq<Event>, i: nat)
    requires i < |es|
  {
    var net, e := Exec(init, es[..i]), es[i];
    Enabled(net, e) && e.DeliverEvent? && e.m.AppendEntries? && HoldsBatch(net.nodes[e.m.to].log.entries, e.m) ==>
      LastIndex(net.nodes[e.m.to].log.entries) <= e.m.prevLogIndex + |e.m.entries|
  }

  /** A check that needs no leader's log: if no batch is ever held in full below a surplus tail, the
      hypothesis holds. */
  lemma WithinBatchSuffices(init: Net, es: seq<Event>)
    requires Initial(init) && WellWired(init) && forall i: nat | i < |es| :: NoSurplus(init, es, i)
    ensures AcksInside(init, es)
  {
    hide AcksInside, Initial, WellWired, HoldsBatch, LastIndex, Enabled;
    AcksInsideIff(init, es);
    forall i: nat | i < |es| ensures !OverstatingEvent(init, es, i) {
      assert NoSurplus(init, es, i);
      ChronicleIsExec(init, es[..i]);
    }
  }

  // ---------------------------------------------------------------- follower commit soundness over runs

  /** The leader of `t` had, at some point of the run, a log that agrees with `es'` through `k`. */
  ghost predicate LeaderHad(init: Net, es: seq<Event>, t: nat, es': Entries, k: nat) {
    exists j: nat, l: nat :: j <= |es| && LeaderAt(Exec(init, es[..j]), l, t)
                          && Agree(es', Exec(init, es[..j]).nodes[l].log.entries, k)
  }

  /** What a merge lets a follower commit, against the leader's log. */
  lemma MergeCommitsShared(f: LogState, f': LogState, log: Entries, m: Message, k: nat)
    requires m.AppendEntries? && Stretch(m, log) && Aligned(f.entries) && Aligned(log) && Matching(f.entries, log)
    requires MatchesPrevLogTerm(f.entries, m.prevLogIndex, m.prevLogTerm) && f.commitIndex < |f.entries|
    requires f' == FollowerCommit(Append(f, m.entries).log, m.leaderCommit)
    requires m.leaderCommit <= m.prevLogIndex + |m.entries| && f.commitIndex < k <= f'.commitIndex
    ensures Agree(f'.entries, log, k)
  {
    hide Append, FollowerCommit, Stretch, Matching, MatchesPrevLogTerm, Agree, DivergesAt;
    StretchFollows(m, log);
    PrevAgrees(f.entries, log, m);
    PrevIsHeld(f.entries, log, m.prevLogIndex);
    var d := MergeYieldsLeaderPrefix(f, log, m);
    var r := Append(f, m.entries).log;
    CommitAfterMerge(f, m, r);
    FollowerCommitInLog(r, m.leaderCommit);
    AgreeAt(r.entries, log, m.prevLogIndex + |m.entries|, k);
  }

  lemma PrevIsHeld(a: seq<Entry>, b: seq<Entry>, k: nat)
    requires Agree(a, b, k)
    ensures k < |a|
  {
  }

  /** Follower commit soundness, over every run and with no hypothesis on acknowledgements: however late, often
      and out of order an AppendEntries arrives, if its commit index does not exceed the end of its batch, the
      follower newly commits only entries on which it agrees with the leader of the message's term. */
  lemma FollowerCommitsSoundly(init: Net, es: seq<Event>, m: Message, draw: Draw, k: nat)
    requires Initial(init) && WellWired(init) && m in Exec(init, es).pool && m.AppendEntries?
             && m.to in Exec(init, es).nodes
    requires m.leaderCommit <= m.prevLogIndex + |m.entries|
    requires var f := Exec(init, es).nodes[m.to]; f.log.commitIndex < k <= Step(f, m, draw).node.log.commitIndex
    ensures LeaderHad(init, es, m.term, Step(Exec(init, es).nodes[m.to], m, draw).node.log.entries, k)
  {
    hide Step, Initial, WellWired, ElectionInv, LogInv;
    hide Append, FollowerCommit, Traced, WellFormed, Stretch, MatchesPrevLogTerm, Matching, Agree;
    var w := Chronicle(init, es);
    ChronicleIsExec(init, es);
    LogsHold(init, es);
    var f := w.net.nodes[m.to];
    var f' := Step(f, m, draw).node;
    NodeFacts(w, m.to);
    NodeLogFacts(w, m.to);
    MessageFacts(w, m);
    AppendFacts(w, m);
    LeadLogFacts(w, m.term);
    var log := w.lead[m.term].log;
    WellFormedIsAligned(log);
    WellFormedIsAligned(f.log.entries);
    TracedMatch(w.lead, f.log.entries, log);
    CommitComesFromMerge(f, m, draw);
    MergeCommitsShared(f.log, f'.log, log, m, k);
    var j := LeadWasReal(init, es, m.term);
    assert Agree(f'.log.entries, Exec(init, es[..j]).nodes[w.lead[m.term].id].log.entries, k);
  }

  lemma CommitComesFromMerge(f: NodeState, m: Message, draw: Draw)
    requires m.AppendEntries? && Step(f, m, draw).node.log.commitIndex > f.log.commitIndex
    ensures MatchesPrevLogTerm(f.log.entries, m.prevLogIndex, m.prevLogTerm)
    ensures Step(f, m, draw).node.log == FollowerCommit(Append(f.log, m.entries).log, m.leaderCommit)
  {
    hide Append, FollowerCommit, MatchesPrevLogTerm, LastIndex;
  }

  /** In this network no leader's next index for a peer is beyond the end of its log. */
  ghost predicate NextInside(net: Net) {
    forall id, p | id in net.nodes && net.nodes[id].role == Leader && p in net.nodes[id].peers ::
      Get(net.nodes[id].nextIndex, p) <= LastIndex(net.nodes[id].log.entries) + 1
  }

  /** In every run in which no next index ever passes the leader's end, every AppendEntries reaches its
      leader's last index, so its commit index does not exceed the end of its batch. */
  lemma {:induction false} AppendsCoverCommit(init: Net, es: seq<Event>, m: Message)
    requires Initial(init) && WellWired(init) && forall i: nat | i <= |es| :: NextInside(Exec(init, es[..i]))
    requires m in Exec(init, es).pool && m.AppendEntries?
    ensures m.leaderCommit <= m.prevLogIndex + |m.entries|
  {
    if es != [] {
      hide React, NextInside, Initial, WellWired, Enabled;
      var most, e := es[..|es| - 1], es[|es| - 1];
      assert es[..|es|] == es;
      assert NextInside(Exec(init, es));
      if m in Exec(init, most).pool {
        forall i: nat | i <= |most| ensures NextInside(Exec(init, most[..i])) {
          assert most[..i] == es[..i];
        }
        AppendsCoverCommit(init, most, m);
      } else {
        SentAppendCovers(init, most, e, m);
      }
    }
  }

  lemma SentAppendCovers(init: Net, es: seq<Event>, e: Event, m: Message)
    requires Initial(init) && WellWired(init) && m.AppendEntries?
    requires m in Apply(Exec(init, es), e).pool && m !in Exec(init, es).pool && NextInside(Apply(Exec(init, es), e))
    ensures m.leaderCommit <= m.prevLogIndex + |m.entries|
  {
    hide React, Initial, WellWired, Exec, TermsAscend, AppendFor, Broadcast, VoteRequests;
    var net := Exec(init, es);
    var id := Target(e);
    var n := net.nodes[id];
    var o := React(n, e);
    ReachableLogShape(init, es, id);
    Classify(n, e);
    if o.out == VoteRequests(o.node) { VoteRequestMember(o.node, m); }
    assert o.out == Broadcast(o.node) && o.node.role == Leader;
    BroadcastMember(o.node, m);
    var es' := es + [e];
    assert Exec(init, es') == Apply(net, e) by { ExecMore(init, es, e); }
    ReachableLogShape(init, es', id);
    AppendForShape(o.node, m.to);
    AppendReachesLast(o.node, m.to);
  }

  lemma ExecMore(init: Net, es: seq<Event>, e: Event)
    ensures Exec(init, es + [e]) == Apply(Exec(init, es), e)
  {
    assert (es + [e])[..|es|] == es;
  }

  /** So in such a run every follower commits soundly, whatever is delivered when. */
  lemma FollowersCommitSoundly(init: Net, es: seq<Event>, m: Message, draw: Draw, k: nat)
    requires Initial(init) && WellWired(init) && forall i: nat | i <= |es| :: NextInside(Exec(init, es[..i]))
    requires m in Exec(init, es).pool && m.AppendEntries? && m.to in Exec(init, es).nodes
    requires var f := Exec(init, es).nodes[m.to]; f.log.commitIndex < k <= Step(f, m, draw).node.log.commitIndex
    ensures LeaderHad(init, es, m.term, Step(Exec(init, es).nodes[m.to], m, draw).node.log.entries, k)
  {
    hide Step, Exec, Initial, WellWired, NextInside, LeaderHad;
    AppendsCoverCommit(init, es, m);
    FollowerCommitsSoundly(init, es, m, draw, k);
  }
}
