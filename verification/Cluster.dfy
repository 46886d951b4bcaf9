/** The simulated cluster: real nodes and the queues between them. Each method is proved against the
    function of Simulator with the same name. */
module ClusterDriver {
  import opened RaftLog
  import opened NodeModel
  import opened NetworkModel
  import opened Effects
  import opened PeerNode
  import S = Simulator
  import opened Simulator

  function FirstIds(n: nat): seq<nat> {
    if n == 0 then [] else FirstIds(n - 1) + [n]
  }

  lemma {:induction false} FirstIdsAt(n: nat)
    ensures |FirstIds(n)| == n && forall i | 0 <= i < n :: FirstIds(n)[i] == i + 1
  {
    if n > 0 { FirstIdsAt(n - 1); }
  }

  lemma IsMember(n: nat, x: nat)
    ensures x in FirstIds(n) <==> 1 <= x <= n
  {
    FirstIdsAt(n);
    if 1 <= x <= n { assert FirstIds(n)[x - 1] == x; }
  }

  /** Every queued message waits for its destination and leaves no gap in a log. */
  ghost predicate Sound(qs: Queues) {
    forall id, m | m in Queue(qs, id) :: m.to == id && WellIndexed(m)
  }

  lemma RouteKeepsSound(qs: Queues, m: Message)
    requires Sound(qs) && WellIndexed(m)
    ensures Sound(qs[m.to := Queue(qs, m.to) + [m]])
  {
    var qs' := qs[m.to := Queue(qs, m.to) + [m]];
    forall id, x | x in Queue(qs', id) ensures x.to == id && WellIndexed(x) {
      assert x in Queue(qs, id) || x == m;
    }
  }

  lemma ClearKeepsSound(qs: Queues, id: nat)
    requires Sound(qs)
    ensures Sound(qs[id := []])
  {
    var qs' := qs[id := []];
    forall x, m | m in Queue(qs', x) ensures m.to == x && WellIndexed(m) {
      assert m in Queue(qs, x);
    }
  }

  method AllIds(n: nat) returns (ids: seq<nat>)
    ensures ids == FirstIds(n)
  {
    ids := [];
    var i := 0;
    while i < n
      invariant i <= n && ids == FirstIds(i)
    {
      ids := ids + [i + 1];
      i := i + 1;
    }
  }

  /** A cluster as the constructor leaves it: an initial network of nodes 1 to `n`, each told about all of them,
      and nothing queued. */
  ghost predicate Built(s: Sim, n: nat) {
    && Represents(s, Net(s.nodes, {})) && Initial(Net(s.nodes, {}))
    && (forall id :: id in s.nodes <==> 1 <= id <= n)
    && (forall id | id in s.nodes :: s.nodes[id].peers == FirstIds(n))
  }

  /** Fresh nodes and empty queues stand for an initial network in which every node is its own peer. */
  lemma FreshIsInitial(s: Sim, n: nat, draws: nat -> Draw)
    requires forall id :: id in s.nodes <==> 1 <= id <= n
    requires forall id | id in s.nodes :: s.nodes[id] == InitNode(id, FirstIds(n), draws(id - 1))
    requires forall id | id in s.queues :: s.queues[id] == []
    ensures Built(s, n) && Sound(s.queues)
    ensures forall id | id in s.nodes :: id in s.nodes[id].peers
  {
    hide FirstIds;
    forall id | id in s.nodes ensures id in FirstIds(n) { IsMember(n, id); }
    assert Initial(Net(s.nodes, {})) by { FreshNodes(s, n, draws); }
    hide InitNode;
  }

  lemma FreshNodes(s: Sim, n: nat, draws: nat -> Draw)
    requires forall id | id in s.nodes :: 1 <= id && s.nodes[id] == InitNode(id, FirstIds(n), draws(id - 1))
    ensures Initial(Net(s.nodes, {}))
  {
    hide FirstIds;
    forall id | id in s.nodes ensures exists draw: Draw :: s.nodes[id] == InitNode(id, s.nodes[id].peers, draw) {
      assert s.nodes[id] == InitNode(id, s.nodes[id].peers, draws(id - 1));
    }
  }

  /** Fresh nodes with ids from 1, an empty queue for each, and their states by id. */
  method StartNodes(n: nat, peers: seq<nat>, draws: nat -> Draw)
    returns (ns: seq<Node>, qs: Queues, ghost states: map<nat, NodeState>)
    ensures |ns| == n && forall id :: id in states <==> 1 <= id <= n
    ensures forall k | 0 <= k < n ::
            fresh(ns[k]) && fresh(ns[k].raftLog) && ns[k].Valid() && ns[k].State() == states[k + 1]
    ensures forall id | id in states :: states[id] == InitNode(id, peers, draws(id - 1))
    ensures forall k | 0 <= k < n :: ns[k].id == k + 1
    ensures forall j, k | 0 <= j < k < n :: ns[j].raftLog != ns[k].raftLog
    ensures forall id | id in qs :: qs[id] == []
  {
    ns, qs, states := [], map[], map[];
    var i := 0;
    while i < n
      invariant i <= n && |ns| == i && forall id :: id in states <==> 1 <= id <= i
      invariant forall k | 0 <= k < i ::
                fresh(ns[k]) && fresh(ns[k].raftLog) && ns[k].Valid() && ns[k].State() == states[k + 1]
      invariant forall id | id in states :: states[id] == InitNode(id, peers, draws(id - 1))
      invariant forall k | 0 <= k < i :: ns[k].id == k + 1
      invariant forall j, k | 0 <= j < k < i :: ns[j].raftLog != ns[k].raftLog
      invariant forall id | id in qs :: qs[id] == []
    {
      var node := new Node(i + 1, peers, draws(i));
      states := states[i + 1 := node.State()];
      ns := ns + [node];
      qs := qs[i + 1 := []];
      i := i + 1;
    }
  }

  class Cluster {
    const nodes: seq<Node>
    var queues: Queues
    /** The cluster as a value. */
    ghost var sim: Sim

    ghost function Logs(): set<object>
      reads nodes
    {
      set n | n in nodes :: n.raftLog
    }

    ghost predicate Shows(i: nat)
      requires i < |nodes|
      reads this, nodes[i], nodes[i].raftLog
    {
      && nodes[i].id == i + 1
      && i + 1 in sim.nodes && sim.nodes[i + 1] == nodes[i].State()
      && nodes[i].Valid()
    }

    ghost predicate Valid()
      reads this, nodes, Logs()
    {
      && sim.queues == queues && Sound(queues)
      && (forall id :: id in sim.nodes <==> 1 <= id <= |nodes|)
      && (forall i | 0 <= i < |nodes| :: Shows(i))
      && (forall i, j | 0 <= i < j < |nodes| :: nodes[i].raftLog != nodes[j].raftLog)
    }

    /** A new cluster: `n` fresh nodes, each told about all `n` ids, its own included. */
    constructor (n: nat, draws: nat -> Draw)
      ensures Valid() && |nodes| == n && fresh(nodes) && fresh(Logs())
      ensures Built(sim, n)
      ensures forall id | id in sim.nodes :: id in sim.nodes[id].peers
    {
      hide InitNode, Initial, Represents, FirstIds;
      var peers := AllIds(n);
      var ns, qs, states := StartNodes(n, peers, draws);
      nodes := ns;
      queues := qs;
      sim := Sim(states, qs);
      FreshIsInitial(Sim(states, qs), n, draws);
    }

    method NodeIndex(id: nat) returns (at: Option<nat>)
      requires Valid()
      ensures at.Some? <==> id in sim.nodes
      ensures at.Some? ==> at.value < |nodes| && nodes[at.value].id == id && at.value + 1 == id
    {
      var i := 0;
      while i < |nodes|
        invariant i <= |nodes| && (id == 0 || id > i)
      {
        assert Shows(i);
        if nodes[i].id == id { return Some(i); }
        i := i + 1;
      }
      return None;
    }

    method Enqueue(m: Message)
      requires Valid() && WellIndexed(m)
      modifies this
      ensures Valid() && sim == old(sim).(queues := old(queues)[m.to := Queue(old(queues), m.to) + [m]])
    {
      RouteKeepsSound(queues, m);
      queues := queues[m.to := Queue(queues, m.to) + [m]];
      sim := sim.(queues := queues);
      forall i | 0 <= i < |nodes| ensures Shows(i) { assert old(Shows(i)); }
    }

    /** Append each message to the queue of its destination. */
    method RouteAll(msgs: seq<Message>)
      requires Valid() && forall m | m in msgs :: WellIndexed(m)
      modifies this
      ensures Valid() && sim == old(sim).(queues := Route(old(queues), msgs, {}))
    {
      var k := 0;
      while k < |msgs|
        invariant k <= |msgs| && Valid()
        invariant sim == old(sim).(queues := Route(old(queues), msgs[..k], {}))
      {
        assert msgs[k] in msgs && msgs[..k + 1][..k] == msgs[..k];
        Enqueue(msgs[k]);
        k := k + 1;
      }
      assert msgs[..|msgs|] == msgs;
    }

    /** Record in `sim` that node `i` moved, once the node itself has. */
    ghost method Refresh(i: nat)
      requires i < |nodes| && nodes[i].id == i + 1 && nodes[i].Valid()
      requires sim.queues == queues && Sound(queues)
      requires forall id :: id in sim.nodes <==> 1 <= id <= |nodes|
      requires forall j | 0 <= j < |nodes| && j != i :: Shows(j)
      requires forall j, k | 0 <= j < k < |nodes| :: nodes[j].raftLog != nodes[k].raftLog
      modifies this`sim
      ensures Valid() && sim == old(sim).(nodes := old(sim).nodes[i + 1 := nodes[i].State()])
    {
      var before := sim;
      sim := sim.(nodes := sim.nodes[i + 1 := nodes[i].State()]);
      forall j | 0 <= j < |nodes| ensures Shows(j) {
        if j != i { assert old(Shows(j)); }
      }
    }

    method TickNode(i: nat, draw: Draw) returns (out: seq<Message>)
      requires Valid() && i < |nodes|
      modifies this`sim, nodes[i]
      ensures Valid() && Logs() == old(Logs())
      ensures var o := React(old(sim).nodes[i + 1], TickEvent(i + 1, draw));
              out == o.out && sim == old(sim).(nodes := old(sim).nodes[i + 1 := o.node])
      ensures forall m | m in out :: WellIndexed(m)
    {
      hide Tick;
      assert Shows(i);
      ReactKeepsAligned(nodes[i].State(), TickEvent(i + 1, draw));
      out := nodes[i].Tick(draw);
      Refresh(i);
    }

    method StepNode(i: nat, m: Message, draw: Draw) returns (out: seq<Message>)
      requires Valid() && i < |nodes| && WellIndexed(m)
      modifies this`sim, nodes[i], nodes[i].raftLog
      ensures Valid() && Logs() == old(Logs())
      ensures var o := React(old(sim).nodes[i + 1], DeliverEvent(m, draw));
              out == o.out && sim == old(sim).(nodes := old(sim).nodes[i + 1 := o.node])
      ensures forall x | x in out :: WellIndexed(x)
    {
      hide Step;
      assert Shows(i);
      out := nodes[i].Step(m, draw);
      Refresh(i);
    }

    /** Tick every node once and route what it sends. */
    method TickAll(tape: Tape)
      requires Valid()
      modifies this, nodes
      ensures Valid() && Logs() == old(Logs())
      ensures sim == S.TickAll(old(sim), FirstIds(|nodes|), tape).sim
    {
      hide React;
      var i := 0;
      while i < |nodes|
        invariant i <= |nodes| && Valid() && Logs() == old(Logs())
        invariant sim == S.TickAll(old(sim), FirstIds(i), tape).sim
      {
        assert FirstIds(i + 1)[..i] == FirstIds(i) by { FirstIdsAt(i); }
        var out := TickNode(i, tape(i + 1, 0));
        RouteAll(out);
        i := i + 1;
      }
    }

    /** Step every message of a queue's snapshot through its node and route the replies. */
    method StepQueue(i: nat, msgs: seq<Message>, tape: Tape)
      requires Valid() && i < |nodes| && forall m | m in msgs :: WellIndexed(m)
      modifies this, nodes, Logs()
      ensures Valid() && Logs() == old(Logs())
      ensures sim == StepAll(old(sim), i + 1, msgs, tape, {}).sim
    {
      hide React;
      var k := 0;
      while k < |msgs|
        invariant k <= |msgs| && Valid() && Logs() == old(Logs())
        invariant sim == StepAll(old(sim), i + 1, msgs[..k], tape, {}).sim
      {
        assert msgs[..k + 1][..k] == msgs[..k];
        assert msgs[k] in msgs;
        var out := StepNode(i, msgs[k], tape(i + 1, k));
        RouteAll(out);
        k := k + 1;
      }
      assert msgs[..|msgs|] == msgs;
    }

    method ClearQueue(id: nat)
      requires Valid()
      modifies this
      ensures Valid() && sim == old(sim).(queues := old(queues)[id := []])
    {
      ClearKeepsSound(queues, id);
      queues := queues[id := []];
      sim := sim.(queues := queues);
      forall i | 0 <= i < |nodes| ensures Shows(i) { assert old(Shows(i)); }
    }

    method DrainQueue(id: nat, tape: Tape)
      requires Valid()
      modifies this, nodes, Logs()
      ensures Valid() && Logs() == old(Logs())
      ensures sim == Visit(old(sim), id, tape, {}).sim
    {
      hide StepAll;
      var msgs := Queue(queues, id);
      if |msgs| == 0 { return; }
      var at := NodeIndex(id);
      if at.Some? { StepQueue(at.value, msgs, tape); }
      ClearQueue(id);
    }

    /** Drain the queues one after the other. A queue is read when its turn comes, so it holds the
        replies routed to it before, and it is cleared at the end of its turn. */
    method DeliverAll(order: seq<nat>, tape: Tape)
      requires Valid()
      modifies this, nodes, Logs()
      ensures Valid() && Logs() == old(Logs())
      ensures sim == S.DeliverAll(old(sim), order, tape, {}).sim
    {
      hide Visit;
      var k := 0;
      while k < |order|
        invariant k <= |order| && Valid() && Logs() == old(Logs())
        invariant sim == S.DeliverAll(old(sim), order[..k], tape, {}).sim
      {
        assert order[..k + 1][..k] == order[..k];
        DrainQueue(order[k], tape);
        k := k + 1;
      }
      assert order[..|order|] == order;
    }

    /** The id of the first node that believes it leads, or 0. */
    method Leader() returns (id: nat)
      requires Valid()
      ensures id == LeaderOf(sim, FirstIds(|nodes|))
      ensures id != 0 ==> id in sim.nodes && sim.nodes[id].role == Role.Leader
      ensures id == 0 <==> forall x | x in sim.nodes :: sim.nodes[x].role != Role.Leader
    {
      FirstIdsAt(|nodes|);
      var ids := FirstIds(|nodes|);
      var i := 0;
      while i < |nodes|
        invariant i <= |nodes|
        invariant forall x | x in sim.nodes && x <= i :: sim.nodes[x].role != Role.Leader
        invariant LeaderOf(sim, ids) == LeaderOf(sim, ids[i..])
      {
        assert Shows(i);
        assert ids[i..][0] == i + 1 && ids[i..][1..] == ids[i + 1..];
        if nodes[i].role == Role.Leader { return nodes[i].id; }
        i := i + 1;
      }
      return 0;
    }

    /** Hand a command to the leader and replicate it at once. */
    method Propose(cmd: seq<Byte>) returns (refusal: Option<ProposeError>)
      requires Valid()
      modifies this, nodes, Logs()
      ensures Valid() && Logs() == old(Logs())
      ensures var p := S.Propose(old(sim), FirstIds(|nodes|), cmd); sim == p.leg.sim && refusal == p.refusal
    {
      hide React, LeaderOf;
      var leader := Leader();
      if leader == 0 { return Some(NotLeader); }
      var at := NodeIndex(leader);
      refusal := ProposeAt(at.value, cmd);
      if refusal.Some? { return; }
      var out := ReplicateFrom(at.value);
      RouteAll(out);
    }

    method ProposeAt(i: nat, cmd: seq<Byte>) returns (refusal: Option<ProposeError>)
      requires Valid() && i < |nodes|
      modifies this`sim, nodes[i], nodes[i].raftLog
      ensures Valid() && Logs() == old(Logs())
      ensures refusal == ProposeRefusal(old(sim).nodes[i + 1])
      ensures var o := React(old(sim).nodes[i + 1], ProposeEvent(i + 1, cmd));
              sim == (if refusal.Some? then old(sim) else old(sim).(nodes := old(sim).nodes[i + 1 := o.node]))
                && o.out == []
    {
      hide RaftLog.Append;
      assert Shows(i);
      refusal := nodes[i].Propose(cmd);
      Refresh(i);
      assert refusal.Some? ==> sim.nodes == old(sim).nodes;
    }

    method ReplicateFrom(i: nat) returns (out: seq<Message>)
      requires Valid() && i < |nodes|
      ensures var o := React(sim.nodes[i + 1], ReplicateEvent(i + 1));
              out == o.out && o.node == sim.nodes[i + 1]
      ensures forall x | x in out :: WellIndexed(x)
    {
      assert Shows(i);
      out := nodes[i].ReplicateNow();
      ReactKeepsAligned(nodes[i].State(), ReplicateEvent(i + 1));
    }
  }
}
