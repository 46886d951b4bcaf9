/** The cluster driver on values: nodes plus one queue of pending messages per destination, advanced by
    ticking every node and by draining every queue.

    A `Tape` supplies the draws of the random source, one per node and position; `order` is the order in
    which a map of queues happens to be visited; `cut` holds the links a partition blocks and is empty
    for the plain driver. Each operation also reports the events it amounts to on the lossy network and
    the messages the nodes sent.
 */
module Simulator {
  import opened RaftLog
  import opened Quorum
  import opened NodeModel
  import opened NetworkModel
  import opened Effects

  type Queues = map<nat, seq<Message>>
  type Tape = (nat, nat) -> Draw
  type Links = set<(nat, nat)>

  datatype Sim = Sim(nodes: map<nat, NodeState>, queues: Queues)

  datatype Leg = Leg(sim: Sim, events: seq<Event>, sent: seq<Message>)

  function Queue(qs: Queues, id: nat): seq<Message> {
    if id in qs then qs[id] else []
  }

  predicate Blocked(m: Message, cut: Links) {
    (m.from, m.to) in cut
  }

  /** Append each message that is not blocked to the queue of its destination. */
  function Route(qs: Queues, msgs: seq<Message>, cut: Links): Queues {
    if msgs == [] then qs
    else
      var init, m := Route(qs, msgs[..|msgs| - 1], cut), msgs[|msgs| - 1];
      if Blocked(m, cut) then init else init[m.to := Queue(init, m.to) + [m]]
  }

  /** One event at node `id`, with what it sends routed. */
  function Fire(s: Sim, id: nat, e: Event, cut: Links): Leg
    requires id in s.nodes
  {
    var o := React(s.nodes[id], e);
    Leg(Sim(s.nodes[id := o.node], Route(s.queues, o.out, cut)), [e], o.out)
  }

  /** Every node in turn. */
  function TickAll(s: Sim, ids: seq<nat>, tape: Tape): Leg {
    if ids == [] then Leg(s, [], [])
    else
      var r, id := TickAll(s, ids[..|ids| - 1], tape), ids[|ids| - 1];
      if id in r.sim.nodes then Then(r, Fire(r.sim, id, TickEvent(id, tape(id, 0)), {})) else r
  }

  function Then(a: Leg, b: Leg): Leg {
    Leg(b.sim, a.events + b.events, a.sent + b.sent)
  }

  /** Step the messages of one queue that are not blocked through node `id`. */
  function StepAll(s: Sim, id: nat, msgs: seq<Message>, tape: Tape, cut: Links): (r: Leg)
    requires id in s.nodes
    ensures r.sim.nodes.Keys == s.nodes.Keys
  {
    if msgs == [] then Leg(s, [], [])
    else
      var k := |msgs| - 1;
      var r := StepAll(s, id, msgs[..k], tape, cut);
      if Blocked(msgs[k], cut) then r
      else Then(r, Fire(r.sim, id, DeliverEvent(msgs[k], tape(id, k)), cut))
  }

  /** Drain one queue and clear it, with whatever arrived in it meanwhile. */
  function Visit(s: Sim, id: nat, tape: Tape, cut: Links): Leg {
    var msgs := Queue(s.queues, id);
    if msgs == [] then Leg(s, [], [])
    else if id !in s.nodes then Leg(s.(queues := s.queues[id := []]), [], [])
    else
      var r := StepAll(s, id, msgs, tape, cut);
      r.(sim := r.sim.(queues := r.sim.queues[id := []]))
  }

  function DeliverAll(s: Sim, order: seq<nat>, tape: Tape, cut: Links): Leg {
    if order == [] then Leg(s, [], [])
    else
      var r := DeliverAll(s, order[..|order| - 1], tape, cut);
      Then(r, Visit(r.sim, order[|order| - 1], tape, cut))
  }

  /** The first leader in `ids`, or 0. */
  function LeaderOf(s: Sim, ids: seq<nat>): nat {
    if ids == [] then 0
    else if ids[0] in s.nodes && s.nodes[ids[0]].role == Leader then ids[0]
    else LeaderOf(s, ids[1..])
  }

  datatype Proposal = Proposal(leg: Leg, refusal: Option<ProposeError>)

  function Propose(s: Sim, ids: seq<nat>, cmd: seq<Byte>): Proposal {
    var id := LeaderOf(s, ids);
    if id == 0 || id !in s.nodes then Proposal(Leg(s, [], []), Some(NotLeader))
    else if ProposeRefusal(s.nodes[id]).Some? then Proposal(Leg(s, [], []), ProposeRefusal(s.nodes[id]))
    else
      var a := Fire(s, id, ProposeEvent(id, cmd), {});
      Proposal(Then(a, Fire(a.sim, id, ReplicateEvent(id), {})), None)
  }

  // ---------------------------------------------------------------- refinement of the lossy network

  /** The network behind a simulation state: the same nodes, and every queued message was sent and waits
      in the queue of its destination. */
  ghost predicate Represents(s: Sim, net: Net) {
    && s.nodes == net.nodes
    && forall id, m | m in Queue(s.queues, id) :: m.to == id && m in net.pool
  }

  lemma {:induction false} ExecJoin(net: Net, a: seq<Event>, b: seq<Event>)
    ensures Exec(net, a + b) == Exec(Exec(net, a), b)
    decreases |b|
  {
    if b == [] {
      assert a + b == a;
    } else {
      ExecJoin(net, a, b[..|b| - 1]);
      assert (a + b)[..|a + b| - 1] == a + b[..|b| - 1];
    }
  }

  lemma ExecOne(net: Net, e: Event)
    ensures Exec(net, [e]) == Apply(net, e)
  {
    assert Exec(net, [e][..0]) == net;
  }

  lemma {:induction false} RouteMember(qs: Queues, msgs: seq<Message>, cut: Links, id: nat, m: Message)
    requires m in Queue(Route(qs, msgs, cut), id)
    ensures m in Queue(qs, id) || (m in msgs && m.to == id)
  {
    if msgs != [] {
      var init, x := msgs[..|msgs| - 1], msgs[|msgs| - 1];
      if m in Queue(Route(qs, init, cut), id) { RouteMember(qs, init, cut, id, m); }
    }
  }

  lemma FireRefines(s: Sim, net: Net, id: nat, e: Event, cut: Links)
    requires Represents(s, net) && id in s.nodes && Target(e) == id && Enabled(net, e)
    ensures var r := Fire(s, id, e, cut); Represents(r.sim, Exec(net, r.events))
    ensures Fire(s, id, e, cut).sim.nodes.Keys == s.nodes.Keys
  {
    hide React;
    var r := Fire(s, id, e, cut);
    ExecOne(net, e);
    var net' := Apply(net, e);
    forall x, m | m in Queue(r.sim.queues, x) ensures m.to == x && m in net'.pool {
      RouteMember(s.queues, r.sent, cut, x, m);
    }
  }

  lemma ThenRefines(net: Net, a: Leg, b: Leg)
    requires Represents(b.sim, Exec(Exec(net, a.events), b.events))
    ensures Represents(Then(a, b).sim, Exec(net, Then(a, b).events))
  {
    ExecJoin(net, a.events, b.events);
  }

  lemma {:induction false} TickAllRefines(s: Sim, net: Net, ids: seq<nat>, tape: Tape)
    requires Represents(s, net)
    ensures var r := TickAll(s, ids, tape); Represents(r.sim, Exec(net, r.events))
  {
    hide Represents;
    if ids != [] {
      var init, id := ids[..|ids| - 1], ids[|ids| - 1];
      TickAllRefines(s, net, init, tape);
      var r := TickAll(s, init, tape);
      if id in r.sim.nodes {
        var e := TickEvent(id, tape(id, 0));
        var net' := Exec(net, r.events);
        assert r.sim.nodes == net'.nodes by { RepresentsFacts(r.sim, net'); }
        FireRefines(r.sim, net', id, e, {});
        ThenRefines(net, r, Fire(r.sim, id, e, {}));
      }
    }
  }

  lemma RepresentsFacts(s: Sim, net: Net)
    requires Represents(s, net)
    ensures s.nodes == net.nodes
    ensures forall id, m | m in Queue(s.queues, id) :: m.to == id && m in net.pool
  {
  }

  lemma {:induction false} ExecKeepsPool(net: Net, es: seq<Event>)
    ensures net.pool <= Exec(net, es).pool
  {
    if es != [] { ExecKeepsPool(net, es[..|es| - 1]); }
  }

  lemma {:induction false} StepAllRefines(s: Sim, net: Net, id: nat, msgs: seq<Message>, tape: Tape, cut: Links)
    requires Represents(s, net) && id in s.nodes
    requires forall m | m in msgs :: m.to == id && m in net.pool
    ensures var r := StepAll(s, id, msgs, tape, cut); Represents(r.sim, Exec(net, r.events))
  {
    hide Represents;
    if msgs != [] {
      var k := |msgs| - 1;
      StepAllRefines(s, net, id, msgs[..k], tape, cut);
      var r := StepAll(s, id, msgs[..k], tape, cut);
      if !Blocked(msgs[k], cut) {
        var e := DeliverEvent(msgs[k], tape(id, k));
        var net' := Exec(net, r.events);
        RepresentsFacts(r.sim, net');
        ExecKeepsPool(net, r.events);
        assert msgs[k] in msgs;
        FireRefines(r.sim, net', id, e, cut);
        ThenRefines(net, r, Fire(r.sim, id, e, cut));
      }
    }
  }

  lemma ClearRefines(s: Sim, net: Net, id: nat)
    requires Represents(s, net)
    ensures Represents(s.(queues := s.queues[id := []]), net)
  {
    var qs := s.queues[id := []];
    forall x, m | m in Queue(qs, x) ensures m.to == x && m in net.pool {
      assert m in Queue(s.queues, x);
    }
  }

  lemma VisitRefines(s: Sim, net: Net, id: nat, tape: Tape, cut: Links)
    requires Represents(s, net)
    ensures var r := Visit(s, id, tape, cut); Represents(r.sim, Exec(net, r.events))
  {
    hide Represents;
    var msgs := Queue(s.queues, id);
    if msgs == [] {
    } else if id !in s.nodes {
      ClearRefines(s, net, id);
    } else {
      RepresentsFacts(s, net);
      StepAllRefines(s, net, id, msgs, tape, cut);
      var r := StepAll(s, id, msgs, tape, cut);
      ClearRefines(r.sim, Exec(net, r.events), id);
    }
  }

  /** Draining the queues, in any order and over any blocked links, is a run of the lossy network. */
  lemma {:induction false} DeliverAllRefines(s: Sim, net: Net, order: seq<nat>, tape: Tape, cut: Links)
    requires Represents(s, net)
    ensures var r := DeliverAll(s, order, tape, cut); Represents(r.sim, Exec(net, r.events))
  {
    hide Represents;
    if order != [] {
      var init, id := order[..|order| - 1], order[|order| - 1];
      DeliverAllRefines(s, net, init, tape, cut);
      var r := DeliverAll(s, init, tape, cut);
      VisitRefines(r.sim, Exec(net, r.events), id, tape, cut);
      ThenRefines(net, r, Visit(r.sim, id, tape, cut));
    }
  }

  lemma ProposeRefines(s: Sim, net: Net, ids: seq<nat>, cmd: seq<Byte>)
    requires Represents(s, net)
    ensures var r := Propose(s, ids, cmd).leg; Represents(r.sim, Exec(net, r.events))
  {
    hide Represents, React;
    var id := LeaderOf(s, ids);
    RepresentsFacts(s, net);
    if id != 0 && id in s.nodes && ProposeRefusal(s.nodes[id]) == None {
      var a := Fire(s, id, ProposeEvent(id, cmd), {});
      FireRefines(s, net, id, ProposeEvent(id, cmd), {});
      var net' := Exec(net, a.events);
      RepresentsFacts(a.sim, net');
      FireRefines(a.sim, net', id, ReplicateEvent(id), {});
      ThenRefines(net, a, Fire(a.sim, id, ReplicateEvent(id), {}));
    }
  }

  // ---------------------------------------------------------------- every use of the driver

  /** What a caller may do to a cluster, partitioned or not. */
  datatype Command =
    | TickEach(ids: seq<nat>, tape: Tape)
    | Drain(order: seq<nat>, drawn: Tape, cut: Links)
    | Submit(members: seq<nat>, cmd: seq<Byte>)
    | TakeDown(id: nat)
    | BringUp(node: nat, draw: Draw)

  function Perform(s: Sim, c: Command): Leg {
    match c
    case TickEach(ids, tape) => TickAll(s, ids, tape)
    case Drain(order, tape, cut) => DeliverAll(s, order, tape, cut)
    case Submit(ids, cmd) => Propose(s, ids, cmd).leg
    case TakeDown(id) => if id in s.nodes then Fire(s, id, CrashEvent(id), {}) else Leg(s, [], [])
    case BringUp(id, draw) =>
      if id in s.nodes && Representable(s.nodes[id]) then Fire(s, id, RestartEvent(id, draw), {}) else Leg(s, [], [])
  }

  function Drive(s: Sim, cs: seq<Command>): Leg {
    if cs == [] then Leg(s, [], [])
    else var r := Drive(s, cs[..|cs| - 1]); Then(r, Perform(r.sim, cs[|cs| - 1]))
  }

  lemma PerformRefines(s: Sim, net: Net, c: Command)
    requires Represents(s, net)
    ensures var r := Perform(s, c); Represents(r.sim, Exec(net, r.events))
  {
    hide Represents, React, TickAll, DeliverAll, Propose;
    RepresentsFacts(s, net);
    match c
    case TickEach(ids, tape) => TickAllRefines(s, net, ids, tape);
    case Drain(order, tape, cut) => DeliverAllRefines(s, net, order, tape, cut);
    case Submit(ids, cmd) => ProposeRefines(s, net, ids, cmd);
    case TakeDown(id) => if id in s.nodes { FireRefines(s, net, id, CrashEvent(id), {}); }
    case BringUp(id, draw) =>
      if id in s.nodes && Representable(s.nodes[id]) { FireRefines(s, net, id, RestartEvent(id, draw), {}); }
  }

  /** Whatever a caller does to a plain or partitioned cluster, of any wiring, is a run of the lossy
      network: the reported events lead the network to exactly the driver's nodes. */
  lemma {:induction false} DriveRefines(s: Sim, net: Net, cs: seq<Command>)
    requires Represents(s, net)
    ensures var r := Drive(s, cs); Represents(r.sim, Exec(net, r.events))
  {
    hide Represents;
    if cs != [] {
      var init, c := cs[..|cs| - 1], cs[|cs| - 1];
      DriveRefines(s, net, init);
      var r := Drive(s, init);
      PerformRefines(r.sim, Exec(net, r.events), c);
      ThenRefines(net, r, Perform(r.sim, c));
    }
  }

  // ---------------------------------------------------------------- conservation

  /** The messages of `ms` bound for `id` over links that are not blocked, in order. */
  function Bound(ms: seq<Message>, id: nat, cut: Links): seq<Message> {
    if ms == [] then []
    else
      var m := ms[|ms| - 1];
      Bound(ms[..|ms| - 1], id, cut) + if m.to == id && !Blocked(m, cut) then [m] else []
  }

  /** The messages delivered to `id`, in order. */
  function Stepped(es: seq<Event>, id: nat): seq<Message> {
    if es == [] then []
    else
      var e := es[|es| - 1];
      Stepped(es[..|es| - 1], id) + if e.DeliverEvent? && e.m.to == id then [e.m] else []
  }

  lemma {:induction false} BoundJoin(a: seq<Message>, b: seq<Message>, id: nat, cut: Links)
    ensures Bound(a + b, id, cut) == Bound(a, id, cut) + Bound(b, id, cut)
    decreases |b|
  {
    if b == [] {
      assert a + b == a;
    } else {
      BoundJoin(a, b[..|b| - 1], id, cut);
      assert (a + b)[..|a + b| - 1] == a + b[..|b| - 1];
    }
  }

  lemma {:induction false} SteppedJoin(a: seq<Event>, b: seq<Event>, id: nat)
    ensures Stepped(a + b, id) == Stepped(a, id) + Stepped(b, id)
    decreases |b|
  {
    if b == [] {
      assert a + b == a;
    } else {
      SteppedJoin(a, b[..|b| - 1], id);
      assert (a + b)[..|a + b| - 1] == a + b[..|b| - 1];
    }
  }

  lemma {:induction false} BoundAgain(ms: seq<Message>, id: nat, cut: Links)
    ensures Bound(Bound(ms, id, cut), id, cut) == Bound(ms, id, cut)
  {
    if ms != [] {
      var init, m := ms[..|ms| - 1], ms[|ms| - 1];
      BoundAgain(init, id, cut);
      if m.to == id && !Blocked(m, cut) {
        BoundJoin(Bound(init, id, cut), [m], id, cut);
        assert Bound([m], id, cut) == [m] by { assert Bound([m][..0], id, cut) == []; }
      } else {
        assert Bound(ms, id, cut) == Bound(init, id, cut);
      }
    }
  }

  /** With nothing blocked, a queue holds only what is bound for its owner. */
  lemma {:induction false} BoundAll(ms: seq<Message>, id: nat)
    requires forall m | m in ms :: m.to == id
    ensures Bound(ms, id, {}) == ms
  {
    if ms != [] {
      BoundAll(ms[..|ms| - 1], id);
      assert ms[|ms| - 1] in ms;
    }
  }

  lemma {:induction false} BoundNone(ms: seq<Message>, id: nat, cut: Links)
    requires forall m | m in ms :: m.to != id
    ensures Bound(ms, id, cut) == []
  {
    if ms != [] {
      BoundNone(ms[..|ms| - 1], id, cut);
      assert ms[|ms| - 1] in ms;
    }
  }

  /** Routing appends to each queue exactly what is bound for it. */
  lemma {:induction false} RouteAppends(qs: Queues, ms: seq<Message>, cut: Links, id: nat)
    ensures Queue(Route(qs, ms, cut), id) == Queue(qs, id) + Bound(ms, id, cut)
  {
    if ms != [] { RouteAppends(qs, ms[..|ms| - 1], cut, id); }
  }

  /** Every node carries the id it is filed under. */
  ghost predicate Labelled(s: Sim) {
    forall id | id in s.nodes :: s.nodes[id].id == id
  }

  ghost predicate NoneToSelf(ms: seq<Message>) {
    forall m | m in ms :: m.from != m.to
  }

  /** The queue of `x` grew by what was sent to it. */
  ghost predicate Grows(s: Sim, r: Leg, x: nat, cut: Links) {
    Queue(r.sim.queues, x) == Queue(s.queues, x) + Bound(r.sent, x, cut)
  }

  lemma Associates(a: seq<Message>, b: seq<Message>, c: seq<Message>)
    ensures (a + b) + c == a + (b + c)
  {
  }

  lemma GrowsThen(s: Sim, a: Leg, b: Leg, x: nat, cut: Links)
    requires Grows(s, a, x, cut) && Grows(a.sim, b, x, cut)
    ensures Grows(s, Then(a, b), x, cut)
  {
    hide Bound, Queue;
    ThenFlow(a, b, cut, x);
    Associates(Queue(s.queues, x), Bound(a.sent, x, cut), Bound(b.sent, x, cut));
  }

  /** Where the messages of one delivery go. */
  lemma FireFlow(s: Sim, id: nat, e: Event, cut: Links, x: nat)
    requires id in s.nodes && Labelled(s) && e.DeliverEvent? && e.m.to == id
    ensures var r := Fire(s, id, e, cut);
            && Labelled(r.sim)
            && Grows(s, r, x, cut)
            && Stepped(r.events, x) == (if x == id then [e.m] else [])
            && forall m | m in r.sent :: m.from == id
  {
    hide React;
    var o := React(s.nodes[id], e);
    ReactKeepsIdentity(s.nodes[id], e);
    ReactAddresses(s.nodes[id], e);
    RouteAppends(s.queues, o.out, cut, x);
    assert Stepped([e][..0], x) == [];
  }

  lemma ThenFlow(a: Leg, b: Leg, cut: Links, x: nat)
    ensures Bound(Then(a, b).sent, x, cut) == Bound(a.sent, x, cut) + Bound(b.sent, x, cut)
    ensures Stepped(Then(a, b).events, x) == Stepped(a.events, x) + Stepped(b.events, x)
  {
    BoundJoin(a.sent, b.sent, x, cut);
    SteppedJoin(a.events, b.events, x);
  }

  /** Where the messages of one drained queue go. */
  lemma {:induction false} StepAllFlow(s: Sim, id: nat, msgs: seq<Message>, tape: Tape, cut: Links, x: nat)
    requires id in s.nodes && Labelled(s)
    requires forall m | m in msgs :: m.to == id
    ensures var r := StepAll(s, id, msgs, tape, cut);
            && Labelled(r.sim)
            && Grows(s, r, x, cut)
            && Stepped(r.events, x) == (if x == id then Bound(msgs, id, cut) else [])
            && forall m | m in r.sent :: m.from == id
  {
    hide Fire, Labelled, Grows;
    if msgs != [] {
      var k := |msgs| - 1;
      var r, m := StepAll(s, id, msgs[..k], tape, cut), msgs[k];
      StepAllFlow(s, id, msgs[..k], tape, cut, x);
      assert m in msgs && m.to == id;
      if !Blocked(m, cut) {
        var e := DeliverEvent(m, tape(id, k));
        FireFlow(r.sim, id, e, cut, x);
        ThenFlow(r, Fire(r.sim, id, e, cut), cut, x);
        GrowsThen(s, r, Fire(r.sim, id, e, cut), x, cut);
      }
    } else {
      GrowsNot(s, x, cut);
    }
  }

  lemma GrowsNot(s: Sim, x: nat, cut: Links)
    ensures Grows(s, Leg(s, [], []), x, cut)
  {
  }

  /** One visit: the owner steps what its queue held, the queue ends empty, and every other queue grows
      by what was sent to it. */
  lemma VisitFlow(s: Sim, id: nat, tape: Tape, cut: Links, x: nat)
    requires Labelled(s) && forall m | m in Queue(s.queues, id) :: m.to == id
    requires NoneToSelf(Visit(s, id, tape, cut).sent)
    ensures var r := Visit(s, id, tape, cut);
            && Labelled(r.sim) && r.sim.nodes.Keys == s.nodes.Keys
            && (x != id ==>
                  && Queue(r.sim.queues, x) == Queue(s.queues, x) + Bound(r.sent, x, cut)
                  && Stepped(r.events, x) == [])
            && (x == id ==> Queue(r.sim.queues, x) == [] && Bound(r.sent, x, cut) == [])
            && (x == id ==> Stepped(r.events, x) == if id in s.nodes then Bound(Queue(s.queues, x), x, cut) else [])
  {
    var msgs := Queue(s.queues, id);
    if msgs != [] && id in s.nodes {
      StepAllFlow(s, id, msgs, tape, cut, x);
      var r := Visit(s, id, tape, cut);
      if x == id {
        forall m | m in r.sent ensures m.to != id { assert m.from != m.to; }
        BoundNone(r.sent, id, cut);
      }
    }
  }

  /** What has become of the messages for `id` in a partial delivery. */
  ghost predicate Flow(s: Sim, id: nat, visited: bool, r: Leg, cut: Links) {
    && (!visited ==>
          && Stepped(r.events, id) == []
          && Queue(r.sim.queues, id) == Queue(s.queues, id) + Bound(r.sent, id, cut))
    && (visited && id in s.nodes ==>
          Bound(Queue(s.queues, id), id, cut) + Bound(r.sent, id, cut)
            == Stepped(r.events, id) + Queue(r.sim.queues, id))
    && (visited && id !in s.nodes ==> Stepped(r.events, id) == [])
  }

  lemma FlowContinues(s: Sim, id: nat, at: nat, visited: bool, a: Leg, tape: Tape, cut: Links)
    requires Flow(s, id, visited, a, cut) && (at == id ==> !visited)
    requires Labelled(a.sim) && a.sim.nodes.Keys == s.nodes.Keys
    requires forall m | m in Queue(a.sim.queues, at) :: m.to == at
    requires NoneToSelf(Visit(a.sim, at, tape, cut).sent)
    ensures Flow(s, id, visited || at == id, Then(a, Visit(a.sim, at, tape, cut)), cut)
  {
    hide Visit, Bound, Stepped, Queue, Labelled, NoneToSelf;
    var b := Visit(a.sim, at, tape, cut);
    VisitFlow(a.sim, at, tape, cut, id);
    ThenFlow(a, b, cut, id);
    var q, q', q'' := Queue(s.queues, id), Queue(a.sim.queues, id), Queue(b.sim.queues, id);
    var sa, sb := Bound(a.sent, id, cut), Bound(b.sent, id, cut);
    if at == id {
      if id in s.nodes {
        BoundJoin(q, sa, id, cut);
        BoundAgain(a.sent, id, cut);
      }
    } else if visited && id in s.nodes {
      Associates(Bound(q, id, cut), sa, sb);
      Associates(Stepped(a.events, id), q', sb);
    } else {
      Associates(q, sa, sb);
    }
  }

  lemma {:induction false} DeliverFlow(s: Sim, net: Net, order: seq<nat>, tape: Tape, cut: Links, id: nat)
    requires Represents(s, net) && Labelled(s) && Distinct(order)
    requires NoneToSelf(DeliverAll(s, order, tape, cut).sent)
    ensures var r := DeliverAll(s, order, tape, cut);
            Flow(s, id, id in order, r, cut) && Labelled(r.sim) && r.sim.nodes.Keys == s.nodes.Keys
  {
    hide Represents, Visit, Flow, Labelled;
    if order == [] {
      FlowStarts(s, id, cut);
    } else {
      var init, at := order[..|order| - 1], order[|order| - 1];
      var a := DeliverAll(s, init, tape, cut);
      assert NoneToSelf(a.sent) && NoneToSelf(Visit(a.sim, at, tape, cut).sent);
      DeliverFlow(s, net, init, tape, cut, id);
      DeliverAllRefines(s, net, init, tape, cut);
      RepresentsFacts(a.sim, Exec(net, a.events));
      assert order == init + [at] && at !in init;
      FlowContinues(s, id, at, id in init, a, tape, cut);
      VisitFlow(a.sim, at, tape, cut, id);
    }
  }

  lemma FlowStarts(s: Sim, id: nat, cut: Links)
    ensures Flow(s, id, false, Leg(s, [], []), cut)
  {
  }

  // ---------------------------------------------------------------- nobody writes to itself

  /** Every node carries the id it is filed under, lists only others as peers, and no message ever sent
      was addressed to its sender. */
  ghost predicate SelfFree(net: Net) {
    && (forall id | id in net.nodes :: net.nodes[id].id == id && id !in net.nodes[id].peers)
    && (forall m | m in net.pool :: m.from != m.to)
  }

  lemma {:induction false} ExecKeepsSelfFree(net: Net, es: seq<Event>)
    requires SelfFree(net)
    ensures SelfFree(Exec(net, es))
  {
    hide React;
    if es != [] {
      var mid, e := Exec(net, es[..|es| - 1]), es[|es| - 1];
      ExecKeepsSelfFree(net, es[..|es| - 1]);
      if Enabled(mid, e) {
        var n := mid.nodes[Target(e)];
        ReactKeepsIdentity(n, e);
        ReactAddresses(n, e);
      }
    }
  }

  /** A properly wired cluster starts that way. */
  lemma WiredIsSelfFree(net: Net)
    requires Initial(net) && WellWired(net)
    ensures SelfFree(net)
  {
    forall id | id in net.nodes ensures id !in net.nodes[id].peers { WiredMembers(net, id); }
  }

  lemma {:induction false} StepAllSelfFree(s: Sim, id: nat, msgs: seq<Message>, tape: Tape, cut: Links)
    requires id in s.nodes && s.nodes[id].id == id && id !in s.nodes[id].peers
    requires NoneToSelf(msgs) && forall m | m in msgs :: m.to == id
    ensures var r := StepAll(s, id, msgs, tape, cut);
            NoneToSelf(r.sent) && r.sim.nodes[id].peers == s.nodes[id].peers && r.sim.nodes[id].id == id
  {
    hide React;
    if msgs != [] {
      var k := |msgs| - 1;
      var r, m := StepAll(s, id, msgs[..k], tape, cut), msgs[k];
      StepAllSelfFree(s, id, msgs[..k], tape, cut);
      assert m in msgs;
      var e := DeliverEvent(m, tape(id, k));
      ReactKeepsIdentity(r.sim.nodes[id], e);
      ReactAddresses(r.sim.nodes[id], e);
    }
  }

  lemma {:induction false} DeliverAllSelfFree(s: Sim, net: Net, order: seq<nat>, tape: Tape, cut: Links)
    requires Represents(s, net) && SelfFree(net)
    ensures NoneToSelf(DeliverAll(s, order, tape, cut).sent)
  {
    hide Represents;
    if order != [] {
      var init, id := order[..|order| - 1], order[|order| - 1];
      var r := DeliverAll(s, init, tape, cut);
      var mid := Exec(net, r.events);
      DeliverAllSelfFree(s, net, init, tape, cut);
      DeliverAllRefines(s, net, init, tape, cut);
      RepresentsFacts(r.sim, mid);
      ExecKeepsSelfFree(net, r.events);
      if id in r.sim.nodes { StepAllSelfFree(r.sim, id, Queue(r.sim.queues, id), tape, cut); }
    }
  }

  /** Conservation, with nothing blocked: each member's queued messages, and then those sent to it, are
      stepped in their order of arrival, once each, or are still queued in that order. Messages to
      strangers are never stepped. */
  lemma DeliveryConserves(s: Sim, net: Net, order: seq<nat>, tape: Tape, id: nat)
    requires Represents(s, net) && SelfFree(net) && Distinct(order) && s.queues.Keys <= Elements(order)
    ensures var r := DeliverAll(s, order, tape, {});
            && (id in s.nodes ==>
                  Queue(s.queues, id) + Bound(r.sent, id, {}) == Stepped(r.events, id) + Queue(r.sim.queues, id))
            && (id !in s.nodes ==> Stepped(r.events, id) == [])
  {
    FilteredDeliveryConserves(s, net, order, tape, {}, id);
    BoundAll(Queue(s.queues, id), id);
  }

  /** A filtered delivery loses nothing but messages on blocked links. */
  lemma FilteredDeliveryConserves(s: Sim, net: Net, order: seq<nat>, tape: Tape, cut: Links, id: nat)
    requires Represents(s, net) && SelfFree(net) && Distinct(order) && s.queues.Keys <= Elements(order)
    ensures var r := DeliverAll(s, order, tape, cut);
            && (id in s.nodes ==>
                  Bound(Queue(s.queues, id), id, cut) + Bound(r.sent, id, cut)
                    == Stepped(r.events, id) + Queue(r.sim.queues, id))
            && (id !in s.nodes ==> Stepped(r.events, id) == [])
  {
    DeliverAllSelfFree(s, net, order, tape, cut);
    DeliverFlow(s, net, order, tape, cut, id);
    if id !in order { assert Queue(s.queues, id) == []; }
  }

  /** Whatever a caller did to a properly wired cluster, the next delivery conserves messages. */
  lemma DrivenDeliveryConserves(s: Sim, net: Net, cs: seq<Command>, order: seq<nat>, tape: Tape, cut: Links, id: nat)
    requires Represents(s, net) && Initial(net) && WellWired(net)
    requires Distinct(order) && Drive(s, cs).sim.queues.Keys <= Elements(order)
    requires id in s.nodes
    ensures var a := Drive(s, cs).sim; var r := DeliverAll(a, order, tape, cut);
            Bound(Queue(a.queues, id), id, cut) + Bound(r.sent, id, cut)
              == Stepped(r.events, id) + Queue(r.sim.queues, id)
  {
    hide Represents, Initial, WellWired, SelfFree;
    var a := Drive(s, cs);
    WiredIsSelfFree(net);
    DriveRefines(s, net, cs);
    ExecKeepsSelfFree(net, a.events);
    ExecKeepsWiring(net, a.events);
    RepresentsFacts(s, net);
    RepresentsFacts(a.sim, Exec(net, a.events));
    FilteredDeliveryConserves(a.sim, Exec(net, a.events), order, tape, cut, id);
  }
}
