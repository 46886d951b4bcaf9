/** A majority that is up can make progress. From any state, a live node whose log is at least as recent as those
    of a majority of live nodes in no later term wins the next election it stands in; and if their logs are equal
    it goes on to commit any command. */
module Availability {
  import opened RaftLog
  import opened Quorum
  import opened NodeModel
  import opened NetworkModel
  import opened Simulator
  import opened NodeLaws

  /** `v` is up, in an earlier term than `t`, and the log `es` is at least as recent as its own. */
  ghost predicate CanVote(v: NodeState, id: nat, t: nat, es: Entries) {
    && v.id == id && !v.crashed && v.currentTerm < t && Aligned(v.log.entries)
    && AtLeastAsRecent(v.log.entries, |es| - 1, es[|es| - 1].term)
  }

  /** A node that can stand: up, not leading, and wired to others only. */
  ghost predicate CanStand(n: NodeState, c: nat) {
    n.id == c && !n.crashed && n.role != Leader && Aligned(n.log.entries) && Distinct(n.peers) && c !in n.peers
  }

  // ---------------------------------------------------------------- standing

  lemma OneTick(net: Net, c: nat, n': NodeState, out: seq<Message>)
    requires c in net.nodes && Tick(net.nodes[c], 0) == Outcome(n', out)
    ensures Exec(net, [TickEvent(c, 0)]) == Net(net.nodes[c := n'], net.pool + Sent(out))
  {
    hide Tick;
    ExecOne(net, TickEvent(c, 0));
  }

  /** Ticks until the timer runs out: the node stands for the next term. */
  lemma {:induction false} Stands(net: Net, c: nat) returns (es: seq<Event>, x: NodeState, out: seq<Message>)
    requires c in net.nodes && CanStand(net.nodes[c], c)
    ensures Exec(net, es) == Net(net.nodes[c := x], net.pool + Sent(out)) && StartsElection(net.nodes[c], x, out, 0)
    decreases net.nodes[c].electionTimeout - net.nodes[c].electionElapsed
  {
    var n := net.nodes[c];
    CampaignsIff(n, 0);
    var o := Tick(n, 0);
    OneTick(net, c, o.node, o.out);
    if n.electionElapsed + 1 >= n.electionTimeout {
      es, x, out := [TickEvent(c, 0)], o.node, o.out;
    } else {
      var net1 := Exec(net, [TickEvent(c, 0)]);
      assert Sent([]) == {};
      var rest;
      hide Tick, StartsElection;
      rest, x, out := Stands(net1, c);
      es := [TickEvent(c, 0)] + rest;
      ExecJoin(net, [TickEvent(c, 0)], rest);
      assert net1.nodes[c := x] == net.nodes[c := x];
      assert StartsElection(n, x, out, 0) by { OlderStarts(n, net1.nodes[c], x, out); }
    }
  }

  lemma OlderStarts(n: NodeState, m: NodeState, x: NodeState, out: seq<Message>)
    requires m == n.(electionElapsed := n.electionElapsed + 1) && StartsElection(m, x, out, 0)
    ensures StartsElection(n, x, out, 0)
  {
  }

  // ---------------------------------------------------------------- voting

  function Ask(n: NodeState, v: nat): Message {
    RequestVote(n.id, v, n.currentTerm + 1, |n.log.entries| - 1, n.log.entries[|n.log.entries| - 1].term)
  }

  /** The candidate once `i` of the voters have answered it: it leads if they make a majority, and otherwise it
      has counted them. */
  ghost predicate Tallying(x: NodeState, n: NodeState, vs: seq<nat>, i: nat)
    requires i <= |vs|
  {
    && SameIdentity(n, x) && x.currentTerm == n.currentTerm + 1 && x.log == n.log
    && (x.role == Leader || (x.role == Candidate && x.votesGranted == {n.id} + Elements(vs[..i])))
    && (i > 0 && 2 * (i + 1) > |n.peers| + 1 ==> x.role == Leader)
    && (x.role == Leader ==> forall p | p in n.peers :: Get(x.nextIndex, p) == |n.log.entries|)
  }

  /** A voter that has answered is in the candidate's term, with the log it had. */
  ghost predicate Voted(v: NodeState, was: NodeState, t: nat) {
    v.id == was.id && !v.crashed && v.currentTerm == t && v.log == was.log
  }

  /** `net` is the state before the election, `r` the one in which `i` voters have answered. */
  ghost predicate Voting(net: Net, r: Net, c: nat, vs: seq<nat>, i: nat)
    requires c in net.nodes && i <= |vs|
  {
    && c in r.nodes && Tallying(r.nodes[c], net.nodes[c], vs, i)
    && (forall j | i <= j < |vs| :: vs[j] in r.nodes && vs[j] in net.nodes && r.nodes[vs[j]] == net.nodes[vs[j]])
    && (forall j | 0 <= j < i ::
          && vs[j] in r.nodes && vs[j] in net.nodes
          && Voted(r.nodes[vs[j]], net.nodes[vs[j]], net.nodes[c].currentTerm + 1))
    && (forall j | 0 <= j < |vs| :: Ask(net.nodes[c], vs[j]) in r.pool)
  }

  ghost predicate Electorate(net: Net, c: nat, vs: seq<nat>)
    requires c in net.nodes
  {
    Distinct(vs) && forall j | 0 <= j < |vs| ::
      && vs[j] in net.nodes && vs[j] in net.nodes[c].peers && vs[j] != c
      && CanVote(net.nodes[vs[j]], vs[j], net.nodes[c].currentTerm + 1, net.nodes[c].log.entries)
  }

  lemma VotingStarts(net: Net, c: nat, vs: seq<nat>, x: NodeState, out: seq<Message>)
    requires c in net.nodes && CanStand(net.nodes[c], c) && Electorate(net, c, vs)
             && StartsElection(net.nodes[c], x, out, 0)
    ensures Voting(net, Net(net.nodes[c := x], net.pool + Sent(out)), c, vs, 0)
  {
    var n := net.nodes[c];
    assert Elements(vs[..0]) == {} && {n.id} + {} == {n.id};
    forall j | 0 <= j < |vs| ensures Ask(n, vs[j]) in out {
      var i :| 0 <= i < |n.peers| && n.peers[i] == vs[j];
      assert out[i] == Ask(n, vs[j]);
    }
    hide CanVote, StartsElection;
    assert x.currentTerm == n.currentTerm + 1 by { StartedTerm(n, x, out); }
  }

  lemma StartedTerm(n: NodeState, x: NodeState, out: seq<Message>)
    requires StartsElection(n, x, out, 0)
    ensures x.role == Candidate && x.currentTerm == n.currentTerm + 1 && x.votesGranted == {n.id}
    ensures SameIdentity(n, x) && x.log == n.log
  {
  }

  /** The candidate takes the grant of the next voter. */
  lemma TallyOne(x: NodeState, n: NodeState, c: nat, vs: seq<nat>, i: nat)
    requires i < |vs| && Tallying(x, n, vs, i) && CanStand(n, c) && Distinct(vs)
    requires forall j | 0 <= j < |vs| :: vs[j] in n.peers && vs[j] != c
    ensures Tallying(Step(x, RequestVoteResp(vs[i], c, n.currentTerm + 1, true), 0).node, n, vs, i + 1)
  {
    hide Step, Distinct, Aligned, FirstBeats, TimerReset, Elements;
    var m := RequestVoteResp(vs[i], c, n.currentTerm + 1, true);
    if x.role == Leader {
      StaleReplyIgnored(x, m, 0);
    } else {
      CountedSoFar(n, c, vs, i);
      assert x.votesGranted + {vs[i]} == {c} + Elements(vs[..i + 1]);
      LeadsIffMajority(x, m, 0);
    }
  }

  /** The votes of the first `i + 1` voters and the candidate, among the members of the cluster. */
  lemma CountedSoFar(n: NodeState, c: nat, vs: seq<nat>, i: nat)
    requires i < |vs| && CanStand(n, c) && Distinct(vs) && forall j | 0 <= j < |vs| :: vs[j] in n.peers && vs[j] != c
    ensures var votes := {c} + Elements(vs[..i + 1]); var all := Elements(n.peers) + {c};
            && Elements(vs[..i]) + {vs[i]} == Elements(vs[..i + 1])
            && votes * all == votes && |votes| == i + 2 && |all| == |n.peers| + 1
  {
    hide Aligned, Distinct, Elements, CountIn;
    assert Distinct(n.peers) && c !in n.peers;
    CountIsCardinality(n.peers, {});
    PrefixOf(vs, i + 1, n.peers, c);
    CountIsCardinality(vs[..i + 1], {});
    PrefixGrows(vs, i);
    NotAmong(n.peers, c);
    WithOne(Elements(vs[..i + 1]), c);
    WithOne(Elements(n.peers), c);
    var votes := {c} + Elements(vs[..i + 1]);
    assert votes <= Elements(n.peers) + {c};
  }

  lemma PrefixOf(vs: seq<nat>, k: nat, ps: seq<nat>, c: nat)
    requires k <= |vs| && Distinct(vs) && forall j | 0 <= j < |vs| :: vs[j] in ps && vs[j] != c
    ensures Distinct(vs[..k]) && Elements(vs[..k]) <= Elements(ps) && c !in Elements(vs[..k])
  {
  }

  lemma PrefixGrows(vs: seq<nat>, i: nat)
    requires i < |vs|
    ensures Elements(vs[..i]) + {vs[i]} == Elements(vs[..i + 1])
  {
    assert vs[..i + 1] == vs[..i] + [vs[i]];
  }

  lemma NotAmong(ps: seq<nat>, c: nat)
    requires c !in ps
    ensures c !in Elements(ps)
  {
  }

  lemma WithOne(s: set<nat>, c: nat)
    requires c !in s
    ensures |{c} + s| == |s| + 1 && |s + {c}| == |s| + 1
  {
    assert {c} + s == s + {c};
  }

  lemma DistinctAt(vs: seq<nat>, i: nat, j: nat)
    requires Distinct(vs) && i < |vs| && j < |vs| && i != j
    ensures vs[i] != vs[j]
  {
  }

  lemma VoterGrants(v: NodeState, n: NodeState, c: nat, id: nat)
    requires CanVote(v, id, n.currentTerm + 1, n.log.entries) && n.id == c
    ensures var o := Step(v, Ask(n, id), 0);
            Voted(o.node, v, n.currentTerm + 1) && o.out == [RequestVoteResp(id, c, n.currentTerm + 1, true)]
  {
    GrantIff(v, Ask(n, id), 0);
    hide Step;
  }

  /** One more voter is asked and its answer delivered. */
  lemma VotingStep(net: Net, r: Net, c: nat, vs: seq<nat>, i: nat) returns (es: seq<Event>)
    requires c in net.nodes && CanStand(net.nodes[c], c) && Electorate(net, c, vs) && i < |vs|
    requires Voting(net, r, c, vs, i)
    ensures Voting(net, Exec(r, es), c, vs, i + 1)
  {
    var n, v := net.nodes[c], vs[i];
    var ask, yes := Ask(n, v), RequestVoteResp(v, c, n.currentTerm + 1, true);
    VoterGrants(r.nodes[v], n, c, v);
    TallyOne(r.nodes[c], n, c, vs, i);
    hide Step, CanVote, CanStand, Tallying, Voted, Ask, Distinct;
    var e1, e2 := DeliverEvent(ask, 0), DeliverEvent(yes, 0);
    var v', x := Step(r.nodes[v], ask, 0).node, Step(r.nodes[c], yes, 0);
    assert Sent([yes]) == {yes};
    var r1 := Net(r.nodes[v := v'], r.pool + {yes});
    ExecOne(r, e1);
    ExecOne(r1, e2);
    ExecJoin(r, [e1], [e2]);
    es := [e1] + [e2];
    assert Exec(r, es) == Net(r1.nodes[c := x.node], r1.pool + Sent(x.out));
    forall j | 0 <= j < |vs| && j != i ensures vs[j] != v && vs[j] != c { DistinctAt(vs, i, j); }
  }

  lemma {:induction false} VotingRun(net: Net, r: Net, c: nat, vs: seq<nat>, i: nat) returns (es: seq<Event>)
    requires c in net.nodes && CanStand(net.nodes[c], c) && Electorate(net, c, vs) && i <= |vs|
    requires Voting(net, r, c, vs, i)
    ensures Voting(net, Exec(r, es), c, vs, |vs|)
    decreases |vs| - i
  {
    if i == |vs| {
      es := [];
    } else {
      hide Voting, Electorate, CanStand;
      var a := VotingStep(net, r, c, vs, i);
      var b := VotingRun(net, Exec(r, a), c, vs, i + 1);
      ExecJoin(r, a, b);
      es := a + b;
    }
  }

  /** From any state: a live node that does not lead, and voters that with it make a majority, all up, in no later
      term and with logs no more recent than its own. Then a run elects it in its next term, its log untouched. */
  lemma MajorityElects(net: Net, c: nat, vs: seq<nat>) returns (es: seq<Event>)
    requires c in net.nodes && CanStand(net.nodes[c], c) && Electorate(net, c, vs)
    requires vs != [] && 2 * (|vs| + 1) > |net.nodes[c].peers| + 1
    ensures LeaderAt(Exec(net, es), c, net.nodes[c].currentTerm + 1)
    ensures Exec(net, es).nodes[c].log == net.nodes[c].log
    ensures Voting(net, Exec(net, es), c, vs, |vs|)
  {
    hide CanStand, Electorate;
    var a, x, out := Stands(net, c);
    VotingStarts(net, c, vs, x, out);
    var b := VotingRun(net, Exec(net, a), c, vs, 0);
    ExecJoin(net, a, b);
    es := a + b;
  }

  /** In particular nodes with equal logs, whatever they hold, can elect any of them. */
  lemma EqualLogsElect(net: Net, c: nat, vs: seq<nat>) returns (es: seq<Event>)
    requires c in net.nodes && CanStand(net.nodes[c], c) && Distinct(vs)
    requires vs != [] && 2 * (|vs| + 1) > |net.nodes[c].peers| + 1
    requires forall j | 0 <= j < |vs| ::
               && vs[j] in net.nodes && vs[j] in net.nodes[c].peers
               && var v := net.nodes[vs[j]];
                  && v.id == vs[j] && !v.crashed && v.currentTerm <= net.nodes[c].currentTerm
                  && v.log.entries == net.nodes[c].log.entries
    ensures LeaderAt(Exec(net, es), c, net.nodes[c].currentTerm + 1)
    ensures Exec(net, es).nodes[c].log == net.nodes[c].log
    ensures Voting(net, Exec(net, es), c, vs, |vs|)
  {
    es := MajorityElects(net, c, vs);
  }

  // ---------------------------------------------------------------- committing

  /** `v` holds all of `es` but its last entry, and is up in no later term than `t`. */
  ghost predicate Synced(v: NodeState, id: nat, t: nat, es: Entries) {
    && v.id == id && !v.crashed && v.currentTerm <= t && v.log.entries == es[..|es| - 1]
    && v.log.commitIndex < |es| - 1
  }

  /** The message that brings `v` the last entry of `es`. */
  function Bring(c: nat, t: nat, es: Entries, commit: nat, v: nat): Message
    requires |es| >= 2
  {
    AppendEntries(c, v, t, |es| - 2, es[|es| - 2].term, [es[|es| - 1]], commit)
  }

  /** The leader once `i` of the voters have acknowledged the last entry of `es`: it has committed it if they make a
      majority. */
  ghost predicate Replicating(x: NodeState, c: nat, t: nat, peers: seq<nat>, es: Entries, vs: seq<nat>, i: nat)
    requires i <= |vs|
  {
    && x.id == c && x.peers == peers && !x.crashed && x.role == Leader && x.currentTerm == t
    && x.log.entries == es && x.log.commitIndex < |es|
    && (forall j | 0 <= j < i :: Get(x.matchIndex, vs[j]) == |es| - 1)
    && (i > 0 && 2 * (i + 1) > |peers| + 1 ==> x.log.commitIndex == |es| - 1)
  }

  ghost predicate Spreading(r: Net, c: nat, t: nat, peers: seq<nat>, es: Entries, commit: nat, vs: seq<nat>, i: nat)
    requires i <= |vs| && |es| >= 2
  {
    && c in r.nodes && Replicating(r.nodes[c], c, t, peers, es, vs, i)
    && (forall j | i <= j < |vs| :: vs[j] in r.nodes && Synced(r.nodes[vs[j]], vs[j], t, es))
    && (forall j | 0 <= j < |vs| :: Bring(c, t, es, commit, vs[j]) in r.pool)
  }

  /** A synced follower takes the entry and acknowledges it. */
  lemma TakesEntry(v: NodeState, id: nat, c: nat, t: nat, es: Entries, commit: nat)
    requires Synced(v, id, t, es) && Aligned(es) && |es| >= 2
    ensures Step(v, Bring(c, t, es, commit, id), 0).out == [AppendEntriesResp(id, c, t, true, |es| - 1)]
  {
    var m := Bring(c, t, es, commit, id);
    assert Aligned(v.log.entries);
    EntriesAcceptedIff(v, m, 0);
    var d := AppendHoldsBatch(v.log, m.entries, m.prevLogIndex);
    assert m.entries[0].index == |es| - 1;
    hide Step, Append;
  }

  /** The leader counts the acknowledgement of the next voter. */
  lemma ReplicateOne(x: NodeState, c: nat, t: nat, peers: seq<nat>, es: Entries, vs: seq<nat>, i: nat)
    requires i < |vs| && Replicating(x, c, t, peers, es, vs, i) && |es| >= 2 && es[|es| - 1].term == t && Aligned(es)
    requires Distinct(peers) && c !in peers && Distinct(vs) && forall j | 0 <= j < |vs| :: vs[j] in peers && vs[j] != c
    ensures Replicating(Step(x, AppendEntriesResp(vs[i], c, t, true, |es| - 1), 0).node, c, t, peers, es, vs, i + 1)
  {
    var m := AppendEntriesResp(vs[i], c, t, true, |es| - 1);
    AckIsCounted(x, m, 0);
    var x' := Step(x, m, 0).node;
    if 2 * (i + 2) > |peers| + 1 {
      AckedCount(x', peers, es, vs, i + 1);
      AckCommitsLast(x, m, |es| - 1);
    }
    hide Step, Distinct, ReplicatedOnMajority, Aligned;
    forall j | 0 <= j < i + 1 ensures Get(x'.matchIndex, vs[j]) == |es| - 1 {
      if j != i { DistinctAt(vs, i, j); }
    }
  }

  lemma AckCommitsLast(x: NodeState, m: Message, last: nat)
    requires !x.crashed && x.role == Leader && m.AppendEntriesResp? && m.success && m.term == x.currentTerm
    requires last == LastIndex(x.log.entries) < |x.log.entries| && x.log.entries[last].term == x.currentTerm
    requires x.log.commitIndex <= last && ReplicatedOnMajority(Step(x, m, 0).node, last)
    ensures Step(x, m, 0).node.log.commitIndex == last
  {
    hide ReplicatedOnMajority, AtLeast;
    var k := x.(matchIndex := x.matchIndex[m.from := m.matchIndex],
      nextIndex := x.nextIndex[m.from := m.matchIndex + 1]);
    SameCount(k, Step(x, m, 0).node);
  }

  /** The first `k` voters and the leader are counted as a majority. */
  lemma AckedCount(x: NodeState, peers: seq<nat>, es: Entries, vs: seq<nat>, k: nat)
    requires x.peers == peers && 0 < k <= |vs| && Distinct(peers) && Distinct(vs) && 2 * (k + 1) > |peers| + 1
             && |es| >= 1
    requires forall j | 0 <= j < |vs| :: vs[j] in peers
    requires forall j | 0 <= j < k :: Get(x.matchIndex, vs[j]) == |es| - 1
    ensures ReplicatedOnMajority(x, |es| - 1)
  {
    var at := AtLeast(x, |es| - 1);
    CountIsCardinality(peers, at);
    assert at * Elements(peers) == at;
    CountIsCardinality(vs[..k], {});
    assert Elements(vs[..k]) <= at;
    SubsetCard(Elements(vs[..k]), at);
  }

  /** What stays fixed while the entry spreads. */
  ghost predicate Spreadable(c: nat, t: nat, peers: seq<nat>, es: Entries, vs: seq<nat>) {
    && |es| >= 2 && es[|es| - 1].term == t && Aligned(es) && Distinct(peers) && c !in peers
    && Distinct(vs) && forall j | 0 <= j < |vs| :: vs[j] in peers && vs[j] != c
  }

  /** One more voter is brought the entry and its acknowledgement delivered. */
  lemma SpreadStep(r: Net, c: nat, t: nat, peers: seq<nat>, es: Entries, commit: nat, vs: seq<nat>, i: nat)
    returns (run: seq<Event>)
    requires Spreadable(c, t, peers, es, vs) && i < |vs| && Spreading(r, c, t, peers, es, commit, vs, i)
    ensures Spreading(Exec(r, run), c, t, peers, es, commit, vs, i + 1)
  {
    var v := vs[i];
    var bring, ack := Bring(c, t, es, commit, v), AppendEntriesResp(v, c, t, true, |es| - 1);
    TakesEntry(r.nodes[v], v, c, t, es, commit);
    ReplicateOne(r.nodes[c], c, t, peers, es, vs, i);
    hide Step, Synced, Replicating, Distinct, Aligned, Bring;
    assert bring.to == v by { BringTo(c, t, es, commit, v); }
    var e1, e2 := DeliverEvent(bring, 0), DeliverEvent(ack, 0);
    var v', x := Step(r.nodes[v], bring, 0).node, Step(r.nodes[c], ack, 0);
    assert Sent([ack]) == {ack};
    var r1 := Net(r.nodes[v := v'], r.pool + {ack});
    ExecOne(r, e1);
    ExecOne(r1, e2);
    ExecJoin(r, [e1], [e2]);
    run := [e1] + [e2];
    assert Exec(r, run) == Net(r1.nodes[c := x.node], r1.pool + Sent(x.out));
    forall j | i + 1 <= j < |vs| ensures vs[j] != v && vs[j] != c { DistinctAt(vs, i, j); }
  }

  lemma BringTo(c: nat, t: nat, es: Entries, commit: nat, v: nat)
    requires |es| >= 2
    ensures Bring(c, t, es, commit, v).to == v
  {
  }

  lemma {:induction false} SpreadRun(r: Net, c: nat, t: nat, peers: seq<nat>, es: Entries, commit: nat, vs: seq<nat>,
    i: nat)
    returns (run: seq<Event>)
    requires Spreadable(c, t, peers, es, vs) && i <= |vs| && Spreading(r, c, t, peers, es, commit, vs, i)
    ensures Spreading(Exec(r, run), c, t, peers, es, commit, vs, |vs|)
    decreases |vs| - i
  {
    if i == |vs| {
      run := [];
    } else {
      var a := SpreadStep(r, c, t, peers, es, commit, vs, i);
      hide Spreading;
      var b := SpreadRun(Exec(r, a), c, t, peers, es, commit, vs, i + 1);
      ExecJoin(r, a, b);
      run := a + b;
    }
  }

  /** A leader that proposes and sends: the entry is on its way to every peer whose next index was its end. */
  lemma ProposesAndSends(r: Net, c: nat, cmd: seq<Byte>) returns (run: seq<Event>, x: NodeState, out: seq<Message>)
    requires c in r.nodes && r.nodes[c].id == c && r.nodes[c].role == Leader && !r.nodes[c].crashed
    requires Aligned(r.nodes[c].log.entries)
    requires forall p | p in r.nodes[c].peers :: Get(r.nodes[c].nextIndex, p) == |r.nodes[c].log.entries|
    ensures Exec(r, run) == Net(r.nodes[c := x], r.pool + Sent(out))
    ensures var n := r.nodes[c]; var es := n.log.entries + [Entry(n.currentTerm, |n.log.entries|, cmd)];
            && x == n.(log := n.log.(entries := es))
            && forall p | p in n.peers :: Bring(c, n.currentTerm, es, n.log.commitIndex, p) in out
  {
    var n := r.nodes[c];
    var e1, e2 := ProposeEvent(c, cmd), ReplicateEvent(c);
    ProposalLaw(n, cmd);
    x := NodeModel.Propose(n, cmd);
    ReplicationLaw(x);
    out := ReplicateNow(x);
    forall p | p in n.peers ensures Bring(c, n.currentTerm, x.log.entries, n.log.commitIndex, p) in out {
      var i :| 0 <= i < |n.peers| && n.peers[i] == p;
      assert out[i] == AppendFor(x, p);
      SendsLast(x, p);
    }
    hide NodeModel.Propose, ReplicateNow, Aligned;
    var r1 := Net(r.nodes[c := x], r.pool + Sent([]));
    ExecOne(r, e1);
    ExecOne(r1, e2);
    ExecJoin(r, [e1], [e2]);
    run := [e1] + [e2];
    assert r1.nodes[c := x] == r1.nodes && r.pool + Sent([]) == r.pool;
  }

  lemma SendsLast(x: NodeState, p: nat)
    requires Aligned(x.log.entries) && |x.log.entries| >= 2 && Get(x.nextIndex, p) == |x.log.entries| - 1
    ensures AppendFor(x, p) == Bring(x.id, x.currentTerm, x.log.entries, x.log.commitIndex, p)
  {
    var es := x.log.entries;
    assert LastIndex(es) == |es| - 1;
    assert Slice(es, |es| - 1, |es|) == [es[|es| - 1]];
  }

  /** Members of a cluster of which `c` and `vs` are a majority, all up, with equal logs, `vs` in no later term. */
  ghost predicate EqualMajority(net: Net, c: nat, vs: seq<nat>) {
    && c in net.nodes && CanStand(net.nodes[c], c) && Distinct(vs)
    && vs != [] && 2 * (|vs| + 1) > |net.nodes[c].peers| + 1
    && net.nodes[c].log.commitIndex < |net.nodes[c].log.entries|
    && forall j | 0 <= j < |vs| ::
         && vs[j] in net.nodes && vs[j] in net.nodes[c].peers
         && var v := net.nodes[vs[j]];
            && v.id == vs[j] && !v.crashed && v.currentTerm <= net.nodes[c].currentTerm
            && v.log.entries == net.nodes[c].log.entries && v.log.commitIndex < |v.log.entries|
  }

  /** Progress: from any state, a live majority with equal logs can elect any of its members in that member's next
      term and commit any command behind what they hold. */
  lemma MajorityCommits(net: Net, c: nat, vs: seq<nat>, cmd: seq<Byte>) returns (run: seq<Event>)
    requires EqualMajority(net, c, vs)
    ensures var n := net.nodes[c]; var t := n.currentTerm + 1; var r := Exec(net, run);
            && LeaderAt(r, c, t)
            && r.nodes[c].log == LogState(n.log.entries + [Entry(t, |n.log.entries|, cmd)], |n.log.entries|)
  {
    var n := net.nodes[c];
    var t, es := n.currentTerm + 1, n.log.entries + [Entry(n.currentTerm + 1, |n.log.entries|, cmd)];
    var a := EqualLogsElect(net, c, vs);
    var r := Exec(net, a);
    var b, x, out := ProposesAndSends(r, c, cmd);
    var r1 := Exec(r, b);
    SpreadStarts(net, r, c, vs, x, out, es);
    var d := SpreadRun(r1, c, t, n.peers, es, n.log.commitIndex, vs, 0);
    hide Exec, EqualMajority, Spreadable, Voting;
    ExecJoin(net, a, b);
    ExecJoin(net, a + b, d);
    run := a + b + d;
  }

  lemma SpreadStarts(net: Net, r: Net, c: nat, vs: seq<nat>, x: NodeState, out: seq<Message>, es: Entries)
    requires EqualMajority(net, c, vs) && Voting(net, r, c, vs, |vs|)
    requires |es| >= 1
    requires es == net.nodes[c].log.entries + [Entry(net.nodes[c].currentTerm + 1, |es| - 1, es[|es| - 1].command)]
    requires r.nodes[c].role == Leader && x == r.nodes[c].(log := r.nodes[c].log.(entries := es))
    requires forall p | p in net.nodes[c].peers ::
               |es| >= 2 && Bring(c, net.nodes[c].currentTerm + 1, es, net.nodes[c].log.commitIndex, p) in out
    ensures var n := net.nodes[c]; var t := n.currentTerm + 1;
            && Spreadable(c, t, n.peers, es, vs)
            && Spreading(Net(r.nodes[c := x], r.pool + Sent(out)), c, t, n.peers, es, n.log.commitIndex, vs, 0)
  {
    var n := net.nodes[c];
    assert es[..|es| - 1] == n.log.entries;
    assert Aligned(es);
    hide Bring, Distinct, Aligned;
  }
}
