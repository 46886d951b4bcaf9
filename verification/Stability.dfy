/** An established leader stays: its heartbeats outrun every follower's election timer, however the
    queues are drained and whatever is proposed. */
module Stability {
  import opened RaftLog
  import opened Quorum
  import opened Persistence
  import opened NodeModel
  import opened NetworkModel
  import opened Effects
  import opened History
  import opened Election
  import opened Simulator
  import opened Merging

  /** Ticks until the election timer of `n` fires. */
  function Left(n: NodeState): int {
    n.electionTimeout - n.electionElapsed
  }

  ghost predicate Leads(n: NodeState, l: nat, t: nat) {
    && n.id == l && n.role == Leader && n.currentTerm == t && !n.crashed
    && n.heartbeatElapsed < HEARTBEAT_INTERVAL && l !in n.peers
  }

  ghost predicate Obeys(n: NodeState, t: nat) {
    n.role == Follower && n.currentTerm == t && !n.crashed
  }

  /** A message that cannot unseat the leader `l` of term `t`. */
  ghost predicate Tame(m: Message, l: nat, t: nat) {
    m.term <= t && (m.AppendEntries? && m.term == t ==> m.to != l)
  }

  ghost predicate AllTame(ms: seq<Message>, l: nat, t: nat) {
    forall m | m in ms :: Tame(m, l, t)
  }

  /** No election was started. */
  ghost predicate NoCampaign(ms: seq<Message>) {
    forall m | m in ms :: !m.RequestVote?
  }

  predicate Heartbeat(m: Message, t: nat) {
    m.AppendEntries? && m.term == t
  }

  // ---------------------------------------------------------------- one node

  lemma StepKeepsLeader(n: NodeState, m: Message, draw: Draw, l: nat, t: nat)
    requires Leads(n, l, t) && Tame(m, l, t) && m.to == l
    ensures var o := Step(n, m, draw);
            && Leads(o.node, l, t) && o.node.heartbeatElapsed == n.heartbeatElapsed && o.node.peers == n.peers
            && AllTame(o.out, l, t) && NoCampaign(o.out)
  {
    hide ScanCommit, HandleAppendEntries, UpToDate;
    if m.AppendEntries? {
      LateAppend(n, m, draw);
    }
  }

  lemma LateAppend(n: NodeState, m: Message, draw: Draw)
    requires m.AppendEntries? && m.term < n.currentTerm
    ensures HandleAppendEntries(n, m, draw) == Outcome(n, [AppendEntriesResp(n.id, m.from, n.currentTerm, false, 0)])
  {
  }

  lemma StepKeepsFollower(n: NodeState, m: Message, draw: Draw, l: nat, t: nat)
    requires Obeys(n, t) && Tame(m, l, t)
    ensures var o := Step(n, m, draw);
            && Obeys(o.node, t) && o.node.id == n.id
            && (Left(o.node) == Left(n) || Left(o.node) >= ELECTION_TIMEOUT_MIN)
            && (Heartbeat(m, t) ==> Left(o.node) >= ELECTION_TIMEOUT_MIN)
            && AllTame(o.out, l, t) && NoCampaign(o.out)
  {
    hide Append, FollowerCommit, MatchesPrevLogTerm, UpToDate, ScanCommit;
  }

  lemma TickKeepsFollower(n: NodeState, draw: Draw, t: nat)
    requires Obeys(n, t) && Left(n) >= 2
    ensures var o := Tick(n, draw); Obeys(o.node, t) && Left(o.node) == Left(n) - 1 && o.out == []
  {
  }

  lemma TickKeepsLeader(n: NodeState, draw: Draw, l: nat, t: nat)
    requires Leads(n, l, t)
    ensures var o := Tick(n, draw);
            && Leads(o.node, l, t) && o.node.peers == n.peers && o.node.heartbeatElapsed == 1 - n.heartbeatElapsed
            && AllTame(o.out, l, t) && NoCampaign(o.out)
            && (n.heartbeatElapsed == 1 ==> o.out == Broadcast(o.node))
  {
    var o := Tick(n, draw);
    if o.out != [] {
      BroadcastIsTame(o.node, l, t);
    }
  }

  lemma BroadcastIsTame(n: NodeState, l: nat, t: nat)
    requires Leads(n, l, t)
    ensures AllTame(Broadcast(n), l, t) && NoCampaign(Broadcast(n))
    ensures forall p | p in n.peers :: AppendFor(n, p) in Broadcast(n) && Heartbeat(AppendFor(n, p), t)
  {
    hide AppendFor;
    forall m | m in Broadcast(n) ensures Tame(m, l, t) && !m.RequestVote? {
      BroadcastMember(n, m);
      AppendForShape(n, m.to);
    }
    forall p | p in n.peers ensures AppendFor(n, p) in Broadcast(n) && Heartbeat(AppendFor(n, p), t) {
      var i :| 0 <= i < |n.peers| && n.peers[i] == p;
      assert Broadcast(n)[i] == AppendFor(n, p);
      AppendForShape(n, p);
    }
  }

  // ---------------------------------------------------------------- the whole cluster

  /** One leader, everybody else its follower, and nothing queued that could change this. */
  ghost predicate Steady(s: Sim, l: nat, t: nat) {
    && l in s.nodes && Leads(s.nodes[l], l, t)
    && (forall f | f in s.nodes && f != l :: Obeys(s.nodes[f], t) && f in s.nodes[l].peers)
    && QueuesTame(s.queues, l, t)
  }

  ghost predicate QueuesTame(qs: Queues, l: nat, t: nat) {
    forall id, m | m in Queue(qs, id) :: m.to == id && Tame(m, l, t)
  }

  /** The timer of `f` outlasts the wait for the next heartbeat. */
  ghost predicate Fresh(s: Sim, l: nat, f: nat)
    requires l in s.nodes && f in s.nodes
  {
    Left(s.nodes[f]) >= 3 - s.nodes[l].heartbeatElapsed
  }

  /** A heartbeat is on its way to `f`, whose timer has not run out. */
  ghost predicate Awaits(s: Sim, t: nat, f: nat)
    requires f in s.nodes
  {
    Left(s.nodes[f]) >= 1 && exists m :: m in Queue(s.queues, f) && Heartbeat(m, t)
  }

  /** Before a tick. */
  ghost predicate Ready(s: Sim, l: nat, t: nat) {
    Steady(s, l, t) && forall f | f in s.nodes && f != l :: Fresh(s, l, f)
  }

  /** Between a tick and the delivery that follows it. */
  ghost predicate Pending(s: Sim, l: nat, t: nat) {
    Steady(s, l, t) && forall f | f in s.nodes && f != l :: Fresh(s, l, f) || Awaits(s, t, f)
  }

  /** No timer moved closer to firing, and the leader's heartbeat clock stands still. */
  ghost predicate Rests(s: Sim, s': Sim, l: nat) {
    && s'.nodes.Keys == s.nodes.Keys
    && l in s.nodes && s'.nodes[l].heartbeatElapsed == s.nodes[l].heartbeatElapsed
    && forall f | f in s.nodes && f != l ::
       Left(s'.nodes[f]) == Left(s.nodes[f]) || Left(s'.nodes[f]) >= ELECTION_TIMEOUT_MIN
  }

  lemma {:induction false} RouteKeepsTame(qs: Queues, ms: seq<Message>, cut: Links, l: nat, t: nat)
    requires QueuesTame(qs, l, t) && AllTame(ms, l, t)
    ensures QueuesTame(Route(qs, ms, cut), l, t)
  {
    var qs' := Route(qs, ms, cut);
    forall id, m | m in Queue(qs', id) ensures m.to == id && Tame(m, l, t) {
      RouteMember(qs, ms, cut, id, m);
    }
  }

  lemma {:induction false} RouteAdds(qs: Queues, ms: seq<Message>, id: nat, m: Message)
    requires m in Queue(qs, id) || (m in ms && m.to == id)
    ensures m in Queue(Route(qs, ms, {}), id)
  {
    if ms != [] {
      var init, x := ms[..|ms| - 1], ms[|ms| - 1];
      if m in Queue(qs, id) || m in init { RouteAdds(qs, init, id, m); } else { assert m == x; }
    }
  }

  /** A node that keeps its part, with what it sends routed, keeps the cluster steady. */
  lemma FireKeepsSteady(s: Sim, id: nat, e: Event, l: nat, t: nat)
    requires Steady(s, l, t) && id in s.nodes
    requires var o := React(s.nodes[id], e);
             && AllTame(o.out, l, t)
             && (id == l ==> Leads(o.node, l, t) && o.node.peers == s.nodes[l].peers)
             && (id != l ==> Obeys(o.node, t))
    ensures Steady(Fire(s, id, e, {}).sim, l, t)
  {
    hide React, Route, Leads, Obeys, QueuesTame, AllTame;
    RouteKeepsTame(s.queues, React(s.nodes[id], e).out, {}, l, t);
  }

  lemma DeliverKeepsSteady(s: Sim, id: nat, m: Message, draw: Draw, l: nat, t: nat)
    requires Steady(s, l, t) && id in s.nodes && m.to == id && Tame(m, l, t)
    ensures var r := Fire(s, id, DeliverEvent(m, draw), {});
            && Steady(r.sim, l, t) && Rests(s, r.sim, l) && NoCampaign(r.sent)
            && (id != l && Heartbeat(m, t) ==> Left(r.sim.nodes[id]) >= ELECTION_TIMEOUT_MIN)
  {
    hide Step, Leads, Obeys, QueuesTame, AllTame, Tame, Left, Heartbeat;
    if id == l {
      StepKeepsLeader(s.nodes[l], m, draw, l, t);
    } else {
      StepKeepsFollower(s.nodes[id], m, draw, l, t);
    }
    FireKeepsSteady(s, id, DeliverEvent(m, draw), l, t);
  }

  lemma RestsThen(a: Sim, b: Sim, c: Sim, l: nat)
    requires Rests(a, b, l) && Rests(b, c, l)
    ensures Rests(a, c, l)
  {
  }

  /** Queued messages stay queued. */
  ghost predicate Keeps(s: Sim, s': Sim, id: nat) {
    forall m | m in Queue(s.queues, id) :: m in Queue(s'.queues, id)
  }

  lemma FireKeepsQueues(s: Sim, at: nat, e: Event, id: nat)
    requires at in s.nodes
    ensures Keeps(s, Fire(s, at, e, {}).sim, id)
  {
    hide React;
    var out := React(s.nodes[at], e).out;
    forall m | m in Queue(s.queues, id) ensures m in Queue(Route(s.queues, out, {}), id) {
      RouteAdds(s.queues, out, id, m);
    }
  }

  lemma SteadyFacts(s: Sim, l: nat, t: nat)
    requires Steady(s, l, t)
    ensures l in s.nodes && Leads(s.nodes[l], l, t) && QueuesTame(s.queues, l, t)
    ensures forall f | f in s.nodes && f != l :: Obeys(s.nodes[f], t) && f in s.nodes[l].peers
  {
  }

  // ---------------------------------------------------------------- delivery

  lemma {:induction false} StepAllKeepsSteady(s: Sim, id: nat, msgs: seq<Message>, tape: Tape, l: nat, t: nat, x: nat)
    requires Steady(s, l, t) && id in s.nodes
    requires AllTame(msgs, l, t) && forall m | m in msgs :: m.to == id
    ensures var r := StepAll(s, id, msgs, tape, {});
            && Steady(r.sim, l, t) && Rests(s, r.sim, l) && NoCampaign(r.sent) && Keeps(s, r.sim, x)
            && (id != l && (exists m :: m in msgs && Heartbeat(m, t)) ==> Left(r.sim.nodes[id]) >= ELECTION_TIMEOUT_MIN)
  {
    if msgs != [] {
      hide Fire, Steady, Left, Heartbeat;
      var k := |msgs| - 1;
      var r, m := StepAll(s, id, msgs[..k], tape, {}), msgs[k];
      StepAllKeepsSteady(s, id, msgs[..k], tape, l, t, x);
      assert m in msgs;
      var e := DeliverEvent(m, tape(id, k));
      DeliverKeepsSteady(r.sim, id, m, tape(id, k), l, t);
      FireKeepsQueues(r.sim, id, e, x);
      RestsThen(s, r.sim, Fire(r.sim, id, e, {}).sim, l);
    } else {
      SteadyFacts(s, l, t);
    }
  }

  lemma ClearKeepsSteady(s: Sim, id: nat, l: nat, t: nat)
    requires Steady(s, l, t)
    ensures Steady(s.(queues := s.queues[id := []]), l, t)
  {
    hide Leads, Obeys, Tame;
    var qs := s.queues[id := []];
    forall x, m | m in Queue(qs, x) ensures m.to == x && Tame(m, l, t) {
      assert m in Queue(s.queues, x);
    }
  }

  /** Draining the queue of `at` freshens its owner and leaves the other queues' messages in place. */
  lemma VisitKeepsSteady(s: Sim, at: nat, tape: Tape, l: nat, t: nat, f: nat)
    requires Steady(s, l, t)
    ensures var r := Visit(s, at, tape, {});
            && Steady(r.sim, l, t) && Rests(s, r.sim, l) && NoCampaign(r.sent)
            && (at != f ==> Keeps(s, r.sim, f))
            && (at == f && f in s.nodes && f != l && Awaits(s, t, f) ==> Left(r.sim.nodes[f]) >= ELECTION_TIMEOUT_MIN)
  {
    SteadyFacts(s, l, t);
    hide Steady, StepAll, Leads, Obeys, Tame, Left, Heartbeat;
    var msgs := Queue(s.queues, at);
    if msgs == [] {
    } else if at !in s.nodes {
      ClearKeepsSteady(s, at, l, t);
    } else {
      StepAllKeepsSteady(s, at, msgs, tape, l, t, f);
      ClearKeepsSteady(StepAll(s, at, msgs, tape, {}).sim, at, l, t);
    }
  }

  /** Fresh, or a heartbeat waits in a queue that is yet to be drained. */
  ghost predicate Served(s: Sim, l: nat, t: nat, f: nat, drained: bool)
    requires l in s.nodes && f in s.nodes
  {
    Fresh(s, l, f) || (!drained && Awaits(s, t, f))
  }

  lemma ServedContinues(s: Sim, s': Sim, l: nat, t: nat, f: nat, drained: bool, now: bool)
    requires l in s.nodes && f in s.nodes && f != l && s.nodes[l].heartbeatElapsed < HEARTBEAT_INTERVAL
    requires Served(s, l, t, f, drained) && Rests(s, s', l)
    requires if now then Awaits(s, t, f) ==> Left(s'.nodes[f]) >= ELECTION_TIMEOUT_MIN else Keeps(s, s', f)
    ensures Served(s', l, t, f, drained || now)
  {
    if !Fresh(s', l, f) {
      assert Awaits(s, t, f);
      var m :| m in Queue(s.queues, f) && Heartbeat(m, t);
      assert m in Queue(s'.queues, f);
    }
  }

  lemma {:induction false} DeliverAllKeepsSteady(s: Sim, order: seq<nat>, tape: Tape, l: nat, t: nat, f: nat)
    requires Pending(s, l, t)
    ensures var r := DeliverAll(s, order, tape, {});
            && Steady(r.sim, l, t) && Rests(s, r.sim, l) && NoCampaign(r.sent)
            && (f in s.nodes && f != l ==> Served(r.sim, l, t, f, f in order))
  {
    if order != [] {
      var init, at := order[..|order| - 1], order[|order| - 1];
      DeliverAllKeepsSteady(s, init, tape, l, t, f);
      var a := DeliverAll(s, init, tape, {});
      SteadyFacts(a.sim, l, t);
      hide Pending, Steady, Visit, Served, Obeys, Keeps, Awaits, Left;
      VisitKeepsSteady(a.sim, at, tape, l, t, f);
      var b := Visit(a.sim, at, tape, {});
      RestsThen(s, a.sim, b.sim, l);
      if f in s.nodes && f != l {
        ServedContinues(a.sim, b.sim, l, t, f, f in init, at == f);
        assert f in order <==> f in init || at == f by { assert order == init + [at]; }
      }
    }
  }

  /** A delivery that visits every node's queue leaves every timer fresh. */
  lemma DeliverAllReadies(s: Sim, order: seq<nat>, tape: Tape, l: nat, t: nat)
    requires Pending(s, l, t) && s.nodes.Keys <= Elements(order)
    ensures var r := DeliverAll(s, order, tape, {});
            Ready(r.sim, l, t) && NoCampaign(r.sent) && r.sim.nodes.Keys == s.nodes.Keys
  {
    hide Pending, Steady, DeliverAll, Awaits, NoCampaign;
    var r := DeliverAll(s, order, tape, {});
    DeliverAllKeepsSteady(s, order, tape, l, t, l);
    assert l in r.sim.nodes by { SteadyFacts(r.sim, l, t); }
    forall f | f in r.sim.nodes && f != l ensures Fresh(r.sim, l, f) {
      DeliverAllKeepsSteady(s, order, tape, l, t, f);
      assert f in Elements(order);
    }
  }

  // ---------------------------------------------------------------- ticks

  /** What a partial round of ticks has done to follower `f`. */
  ghost predicate Ticked(s: Sim, s': Sim, l: nat, t: nat, f: nat, ids: seq<nat>)
    requires l in s.nodes && l in s'.nodes && f in s.nodes && f in s'.nodes
  {
    && (if f in ids then Left(s'.nodes[f]) == Left(s.nodes[f]) - 1 else s'.nodes[f] == s.nodes[f])
    && (if l in ids then s'.nodes[l].heartbeatElapsed == 1 - s.nodes[l].heartbeatElapsed else s'.nodes[l] == s.nodes[l])
    && (l in ids && s.nodes[l].heartbeatElapsed == 1 ==> exists m :: m in Queue(s'.queues, f) && Heartbeat(m, t))
  }

  lemma TickLeaderFires(s: Sim, draw: Draw, l: nat, t: nat, f: nat)
    requires Steady(s, l, t)
    ensures var r := Fire(s, l, TickEvent(l, draw), {});
            && Steady(r.sim, l, t) && NoCampaign(r.sent) && r.sim.nodes == s.nodes[l := r.sim.nodes[l]]
            && r.sim.nodes[l].heartbeatElapsed == 1 - s.nodes[l].heartbeatElapsed
            && (f in s.nodes && f != l && s.nodes[l].heartbeatElapsed == 1 ==>
                  exists m :: m in Queue(r.sim.queues, f) && Heartbeat(m, t))
  {
    SteadyFacts(s, l, t);
    hide Steady, Tick, Leads, Obeys, Tame, Heartbeat, Broadcast, AppendFor, AllTame;
    var e := TickEvent(l, draw);
    var o := Tick(s.nodes[l], draw);
    TickKeepsLeader(s.nodes[l], draw, l, t);
    FireKeepsSteady(s, l, e, l, t);
    if f in s.nodes && f != l && s.nodes[l].heartbeatElapsed == 1 {
      BroadcastIsTame(o.node, l, t);
      AppendForShape(o.node, f);
      RouteAdds(s.queues, o.out, f, AppendFor(o.node, f));
    }
  }

  lemma TickFollowerFires(s: Sim, draw: Draw, l: nat, t: nat, f: nat)
    requires Steady(s, l, t) && f in s.nodes && f != l && Left(s.nodes[f]) >= 2
    ensures var r := Fire(s, f, TickEvent(f, draw), {});
            && Steady(r.sim, l, t) && NoCampaign(r.sent) && r.sim.nodes == s.nodes[f := r.sim.nodes[f]]
            && Left(r.sim.nodes[f]) == Left(s.nodes[f]) - 1
  {
    SteadyFacts(s, l, t);
    hide Steady, Tick, Leads, Obeys, Tame, Left;
    TickKeepsFollower(s.nodes[f], draw, t);
    FireKeepsSteady(s, f, TickEvent(f, draw), l, t);
  }

  lemma ReadyLeft(s: Sim, l: nat, t: nat, f: nat)
    requires Ready(s, l, t) && f in s.nodes && f != l
    ensures Left(s.nodes[f]) >= 2
  {
    assert Fresh(s, l, f);
  }

  lemma UntickedStays(s: Sim, a: Sim, l: nat, t: nat, f: nat, ids: seq<nat>)
    requires l in s.nodes && l in a.nodes && f in s.nodes && f in a.nodes
    requires Ticked(s, a, l, t, f, ids) && f !in ids
    ensures a.nodes[f] == s.nodes[f]
  {
  }

  lemma TickedContinues(s: Sim, a: Sim, b: Sim, l: nat, t: nat, f: nat, ids: seq<nat>, id: nat)
    requires l in s.nodes && l in a.nodes && l in b.nodes && f in s.nodes && f in a.nodes && f in b.nodes && f != l
    requires Ticked(s, a, l, t, f, ids) && id !in ids && Keeps(a, b, f)
    requires id != f ==> b.nodes[f] == a.nodes[f]
    requires id == f ==> Left(b.nodes[f]) == Left(a.nodes[f]) - 1
    requires id != l ==> b.nodes[l] == a.nodes[l]
    requires id == l ==> b.nodes[l].heartbeatElapsed == 1 - a.nodes[l].heartbeatElapsed
    requires id == l && a.nodes[l].heartbeatElapsed == 1 ==> exists m :: m in Queue(b.queues, f) && Heartbeat(m, t)
    ensures Ticked(s, b, l, t, f, ids + [id])
  {
    hide Queue, Heartbeat;
    if l in ids && s.nodes[l].heartbeatElapsed == 1 {
      var m :| m in Queue(a.queues, f) && Heartbeat(m, t);
      assert m in Queue(b.queues, f);
    }
  }

  /** One more tick in a partial round. */
  lemma TickOne(s: Sim, a: Sim, ids: seq<nat>, id: nat, draw: Draw, l: nat, t: nat, f: nat)
    requires Steady(a, l, t) && l in s.nodes && a.nodes.Keys == s.nodes.Keys && id in s.nodes && id !in ids
    requires f in s.nodes && f != l ==> Ticked(s, a, l, t, f, ids)
    requires id != l ==> Left(a.nodes[id]) >= 2
    ensures var r := Fire(a, id, TickEvent(id, draw), {});
            && Steady(r.sim, l, t) && NoCampaign(r.sent) && r.sim.nodes.Keys == s.nodes.Keys
            && (f in s.nodes && f != l ==> Ticked(s, r.sim, l, t, f, ids + [id]))
  {
    hide Ticked, Steady, Left, Heartbeat, NoCampaign, Fire;
    var b := Fire(a, id, TickEvent(id, draw), {});
    if id == l {
      TickLeaderFires(a, draw, l, t, f);
    } else {
      TickFollowerFires(a, draw, l, t, id);
    }
    if f in s.nodes && f != l {
      FireKeepsQueues(a, id, TickEvent(id, draw), f);
      TickedContinues(s, a, b.sim, l, t, f, ids, id);
    }
  }

  lemma {:induction false} TickAllKeepsSteady(s: Sim, ids: seq<nat>, tape: Tape, l: nat, t: nat, f: nat)
    requires Ready(s, l, t) && Distinct(ids)
    ensures var r := TickAll(s, ids, tape);
            && Steady(r.sim, l, t) && NoCampaign(r.sent) && r.sim.nodes.Keys == s.nodes.Keys
            && (f in s.nodes && f != l ==> l in s.nodes && l in r.sim.nodes && Ticked(s, r.sim, l, t, f, ids))
  {
    SteadyFacts(s, l, t);
    if ids == [] {
      TickedNone(s, l, t, f);
    } else {
      var init, id := ids[..|ids| - 1], ids[|ids| - 1];
      assert ids == init + [id] && id !in init;
      var a := TickAll(s, init, tape);
      hide Ticked, Steady, Leads, Obeys, Ready, Left, Fire, QueuesTame;
      TickAllKeepsSteady(s, init, tape, l, t, f);
      if id in s.nodes {
        if id != l {
          TickAllKeepsSteady(s, init, tape, l, t, id);
          ReadyLeft(s, l, t, id);
          UntickedStays(s, a.sim, l, t, id, init);
        }
        TickOne(s, a.sim, init, id, tape(id, 0), l, t, f);
      } else if f in s.nodes && f != l {
        TickedSkips(s, a.sim, l, t, f, init, id);
      }
    }
  }

  lemma TickedSkips(s: Sim, a: Sim, l: nat, t: nat, f: nat, ids: seq<nat>, id: nat)
    requires l in s.nodes && l in a.nodes && f in s.nodes && f in a.nodes && id !in s.nodes
    requires Ticked(s, a, l, t, f, ids)
    ensures Ticked(s, a, l, t, f, ids + [id])
  {
    hide Left, Heartbeat, Queue;
  }

  lemma TickedNone(s: Sim, l: nat, t: nat, f: nat)
    requires l in s.nodes
    ensures f in s.nodes ==> Ticked(s, s, l, t, f, [])
  {
  }

  /** A round of ticks that includes the leader starts no election: each follower's timer still runs, and
      if it has become short a heartbeat is on its way. */
  lemma TickAllPends(s: Sim, ids: seq<nat>, tape: Tape, l: nat, t: nat)
    requires Ready(s, l, t) && Distinct(ids) && l in ids
    ensures var r := TickAll(s, ids, tape);
            Pending(r.sim, l, t) && NoCampaign(r.sent) && r.sim.nodes.Keys == s.nodes.Keys
  {
    hide TickAll, NoCampaign;
    var r := TickAll(s, ids, tape);
    TickAllKeepsSteady(s, ids, tape, l, t, l);
    forall f | f in r.sim.nodes && f != l ensures Fresh(r.sim, l, f) || Awaits(r.sim, t, f) {
      TickAllKeepsSteady(s, ids, tape, l, t, f);
      assert Fresh(s, l, f);
    }
  }

  // ---------------------------------------------------------------- proposals

  lemma {:induction false} OnlyLeader(s: Sim, ids: seq<nat>, l: nat, t: nat)
    requires Steady(s, l, t)
    ensures LeaderOf(s, ids) == 0 || LeaderOf(s, ids) == l
  {
    if ids != [] { OnlyLeader(s, ids[1..], l, t); }
  }

  /** An event of the leader that touches neither its heartbeat clock nor any queued message keeps the
      cluster in its phase. */
  lemma LeaderFires(s: Sim, e: Event, l: nat, t: nat)
    requires Pending(s, l, t)
    requires var o := React(s.nodes[l], e);
             && AllTame(o.out, l, t) && Leads(o.node, l, t)
             && o.node.peers == s.nodes[l].peers && o.node.heartbeatElapsed == s.nodes[l].heartbeatElapsed
    ensures var r := Fire(s, l, e, {});
            && Pending(r.sim, l, t) && (Ready(s, l, t) ==> Ready(r.sim, l, t)) && r.sim.nodes.Keys == s.nodes.Keys
  {
    hide React, Leads, Obeys, QueuesTame, AllTame, Heartbeat, Queue, Route;
    var r := Fire(s, l, e, {});
    FireKeepsSteady(s, l, e, l, t);
    forall f | f in s.nodes && f != l && Awaits(s, t, f) ensures Awaits(r.sim, t, f) {
      FireKeepsQueues(s, l, e, f);
      var m :| m in Queue(s.queues, f) && Heartbeat(m, t);
      assert m in Queue(r.sim.queues, f);
    }
  }

  lemma LeaderProposes(n: NodeState, e: Event, l: nat, t: nat)
    requires Leads(n, l, t) && (e.ProposeEvent? || e.ReplicateEvent?)
    ensures var o := React(n, e);
            && Leads(o.node, l, t) && AllTame(o.out, l, t) && NoCampaign(o.out)
            && o.node.peers == n.peers && o.node.heartbeatElapsed == n.heartbeatElapsed
  {
    hide Append, Broadcast;
    BroadcastIsTame(n, l, t);
  }

  lemma ProposeKeepsPhase(s: Sim, ids: seq<nat>, cmd: seq<Byte>, l: nat, t: nat)
    requires Pending(s, l, t)
    ensures var r := Simulator.Propose(s, ids, cmd).leg;
            && Pending(r.sim, l, t) && (Ready(s, l, t) ==> Ready(r.sim, l, t)) && NoCampaign(r.sent)
            && r.sim.nodes.Keys == s.nodes.Keys
  {
    OnlyLeader(s, ids, l, t);
    SteadyFacts(s, l, t);
    hide LeaderOf, React, Pending, Ready, Steady, Leads, Obeys, QueuesTame, Route;
    if LeaderOf(s, ids) == l && l != 0 && ProposeRefusal(s.nodes[l]) == None {
      var e, e' := ProposeEvent(l, cmd), ReplicateEvent(l);
      LeaderProposes(s.nodes[l], e, l, t);
      LeaderFires(s, e, l, t);
      var a := Fire(s, l, e, {});
      LeaderProposes(a.sim.nodes[l], e', l, t);
      LeaderFires(a.sim, e', l, t);
    }
  }

  // ---------------------------------------------------------------- every paced use of the driver

  /** The last round has ticked and not yet delivered. */
  predicate MidRound(cs: seq<Command>) {
    if cs == [] then false
    else match cs[|cs| - 1]
      case TickEach(_, _) => true
      case Drain(_, _, _) => false
      case _ => MidRound(cs[..|cs| - 1])
  }

  /** Rounds of ticking every node once and then draining every queue, with proposals anywhere and no
      crashes. Prefixes of such a use are such uses. */
  predicate Paced(cs: seq<Command>, members: set<nat>, l: nat) {
    cs == [] || (
      && Paced(cs[..|cs| - 1], members, l)
      && match cs[|cs| - 1]
         case TickEach(ids, _) => !MidRound(cs[..|cs| - 1]) && Distinct(ids) && l in ids
         case Drain(order, _, cut) => members <= Elements(order) && cut == {}
         case Submit(_, _) => true
         case _ => false)
  }

  ghost predicate InPhase(s: Sim, l: nat, t: nat, midRound: bool) {
    Pending(s, l, t) && (!midRound ==> Ready(s, l, t))
  }

  lemma ReadyIsPending(s: Sim, l: nat, t: nat)
    requires Ready(s, l, t)
    ensures Pending(s, l, t)
  {
  }

  lemma PerformKeepsPhase(s: Sim, c: Command, l: nat, t: nat, midRound: bool)
    requires InPhase(s, l, t, midRound)
    requires match c
             case TickEach(ids, _) => !midRound && Distinct(ids) && l in ids
             case Drain(order, _, cut) => s.nodes.Keys <= Elements(order) && cut == {}
             case Submit(_, _) => true
             case _ => false
    ensures var r := Perform(s, c);
            InPhase(r.sim, l, t, c.TickEach? || (c.Submit? && midRound)) && NoCampaign(r.sent)
              && r.sim.nodes.Keys == s.nodes.Keys
  {
    hide Pending, Ready, TickAll, DeliverAll, Simulator.Propose, NoCampaign;
    match c
    case TickEach(ids, tape) => TickAllPends(s, ids, tape, l, t);
    case Drain(order, tape, cut) =>
      DeliverAllReadies(s, order, tape, l, t);
      ReadyIsPending(DeliverAll(s, order, tape, {}).sim, l, t);
    case Submit(ids, cmd) => ProposeKeepsPhase(s, ids, cmd, l, t);
  }

  /** However long the cluster is driven, the leader and its term stay and no election is started. */
  lemma {:induction false} DriveKeepsPhase(s: Sim, cs: seq<Command>, l: nat, t: nat)
    requires Ready(s, l, t) && Paced(cs, s.nodes.Keys, l)
    ensures var r := Drive(s, cs);
            InPhase(r.sim, l, t, MidRound(cs)) && NoCampaign(r.sent) && r.sim.nodes.Keys == s.nodes.Keys
  {
    hide Ready, Pending, Perform;
    if cs == [] {
      ReadyIsPending(s, l, t);
    } else {
      var init, c := cs[..|cs| - 1], cs[|cs| - 1];
      DriveKeepsPhase(s, init, l, t);
      PerformKeepsPhase(Drive(s, init).sim, c, l, t, MidRound(init));
    }
  }

  // ---------------------------------------------------------------- from a reachable state

  /** The heartbeat clock never reaches its interval, and whoever is down does not lead. */
  ghost predicate Clocked(n: NodeState) {
    n.heartbeatElapsed < HEARTBEAT_INTERVAL && (n.crashed ==> n.role == Follower)
  }

  lemma ReactKeepsClocked(n: NodeState, e: Event)
    requires Clocked(n)
    ensures Clocked(React(n, e).node)
  {
    hide Serialize, Deserialize, Durable, Append, FollowerCommit, ScanCommit, Broadcast, VoteRequests, Wins,
      FreshIndexes;
  }

  lemma {:induction false} ExecKeepsClocked(init: Net, es: seq<Event>, id: nat)
    requires Initial(init) && id in Exec(init, es).nodes
    ensures Clocked(Exec(init, es).nodes[id])
  {
    if es == [] {
      var draw: Draw :| init.nodes[id] == InitNode(id, init.nodes[id].peers, draw);
    } else {
      hide React, Clocked;
      var net, e := Exec(init, es[..|es| - 1]), es[|es| - 1];
      if id in net.nodes {
        ExecKeepsClocked(init, es[..|es| - 1], id);
        ReactKeepsClocked(net.nodes[id], e);
      }
    }
  }

  /** A leader in the middle of a run: everybody else follows it in its term with at least three ticks
      left, nobody is down, and no message of a later term is queued. */
  ghost predicate Established(s: Sim, l: nat, t: nat) {
    && l in s.nodes && s.nodes[l].role == Leader && s.nodes[l].currentTerm == t
    && (forall f | f in s.nodes && f != l :: Obeys(s.nodes[f], t) && Left(s.nodes[f]) >= 3)
    && (forall id, m | m in Queue(s.queues, id) :: m.term <= t)
  }

  lemma LeaderIsWired(init: Net, es: seq<Event>, l: nat)
    requires Initial(init) && WellWired(init) && l in Exec(init, es).nodes && Exec(init, es).nodes[l].role == Leader
    ensures var net := Exec(init, es); var n := net.nodes[l];
            Leads(n, l, n.currentTerm) && forall f | f in net.nodes && f != l :: f in n.peers
  {
    hide Exec, WellWired, Initial, Distinct;
    ExecKeepsWiring(init, es);
    var net := Exec(init, es);
    WiredMembers(net, l);
    ExecKeepsClocked(init, es, l);
    assert net.nodes[l].id == l by { WiredId(net, l); }
    forall f | f in net.nodes && f != l ensures f in net.nodes[l].peers {
      assert f in Elements(net.nodes[l].peers) + {l};
    }
  }

  lemma WiredId(net: Net, l: nat)
    requires WellWired(net) && l in net.nodes
    ensures net.nodes[l].id == l
  {
  }

  lemma EstablishedIsReady(init: Net, es: seq<Event>, s: Sim, l: nat, t: nat)
    requires Initial(init) && WellWired(init) && Represents(s, Exec(init, es)) && Established(s, l, t)
    ensures Ready(s, l, t)
  {
    hide ElectionInv, Obeys, Left, Chronicle, Exec, WellWired, Initial;
    LeaderIsWired(init, es, l);
    var w := Chronicle(init, es);
    ChronicleIsExec(init, es);
    ElectionHolds(init, es);
    NodeFacts(w, l);
    forall id, m | m in Queue(s.queues, id) ensures m.to == id && Tame(m, l, t) {
      MessageFacts(w, m);
    }
    forall f | f in s.nodes && f != l ensures Fresh(s, l, f) {
      assert Left(s.nodes[f]) >= 3;
    }
  }

  /** Leader stability: from any reachable state of a properly wired cluster with an established leader,
      rounds of ticking and delivering, with any proposals, never start another election, and the same
      node leads the same term with everybody else following. */
  lemma LeaderStability(init: Net, es: seq<Event>, s: Sim, cs: seq<Command>, l: nat, t: nat)
    requires Initial(init) && WellWired(init) && Represents(s, Exec(init, es)) && Established(s, l, t)
    requires Paced(cs, s.nodes.Keys, l)
    ensures var r := Drive(s, cs);
            && NoCampaign(r.sent)
            && l in r.sim.nodes && r.sim.nodes[l].role == Leader && r.sim.nodes[l].currentTerm == t
            && (forall f | f in r.sim.nodes && f != l ::
               r.sim.nodes[f].role == Follower && r.sim.nodes[f].currentTerm == t)
            && Represents(r.sim, Exec(init, es + r.events))
  {
    hide Represents, Established, Drive, NoCampaign, Ready;
    var r := Drive(s, cs);
    EstablishedIsReady(init, es, s, l, t);
    DriveKeepsPhase(s, cs, l, t);
    DriveRefines(s, Exec(init, es), cs);
    ExecJoin(init, es, r.events);
    SteadyFacts(r.sim, l, t);
  }
}
