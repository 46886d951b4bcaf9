/** A cluster of one, however it is wired, never elects its node: a candidate counts its votes only when a
    reply arrives, nobody else is there to reply, and a reply to itself, should it be its own peer, is cleared
    with the queue it was routed to. */
module LoneNode {
  import opened RaftLog
  import opened Persistence
  import opened NodeModel
  import opened NetworkModel
  import opened Effects
  import opened Simulator

  ghost predicate OnlyRequests(ms: seq<Message>) {
    forall m | m in ms :: m.RequestVote?
  }

  /** One node, not leading, with nothing but vote requests in its queue. */
  ghost predicate Lone(s: Sim, id: nat) {
    s.nodes.Keys == {id} && s.nodes[id].role != Leader && OnlyRequests(Queue(s.queues, id))
  }

  lemma RouteKeepsRequests(qs: Queues, ms: seq<Message>, cut: Links, id: nat)
    requires OnlyRequests(Queue(qs, id)) && OnlyRequests(ms)
    ensures OnlyRequests(Queue(Route(qs, ms, cut), id))
  {
    forall m | m in Queue(Route(qs, ms, cut), id) ensures m.RequestVote? {
      RouteMember(qs, ms, cut, id, m);
    }
  }

  /** Nothing but a vote makes a leader. */
  lemma ReactKeepsRole(n: NodeState, e: Event)
    requires n.role != Leader && (e.DeliverEvent? ==> e.m.RequestVote?)
    ensures React(n, e).node.role != Leader
    ensures !e.DeliverEvent? ==> OnlyRequests(React(n, e).out)
  {
    hide Append, UpToDate, Serialize, Deserialize, Durable, VoteRequests, OnlyRequests;
    var o := React(n, e);
    if e.TickEvent? && o.out != [] {
      RequestsOnly(o.node);
    } else {
      NoRequests();
    }
  }

  lemma NoRequests()
    ensures OnlyRequests([])
  {
  }

  lemma RequestsOnly(n: NodeState)
    ensures OnlyRequests(VoteRequests(n))
  {
    forall m | m in VoteRequests(n) ensures m.RequestVote? { VoteRequestMember(n, m); }
  }

  lemma FireKeepsLone(s: Sim, id: nat, e: Event)
    requires Lone(s, id) && !e.DeliverEvent?
    ensures Lone(Fire(s, id, e, {}).sim, id)
  {
    hide React, Route;
    ReactKeepsRole(s.nodes[id], e);
    RouteKeepsRequests(s.queues, React(s.nodes[id], e).out, {}, id);
  }

  lemma {:induction false} StepAllKeepsRole(s: Sim, id: nat, msgs: seq<Message>, tape: Tape, cut: Links)
    requires id in s.nodes && s.nodes[id].role != Leader && OnlyRequests(msgs)
    ensures StepAll(s, id, msgs, tape, cut).sim.nodes[id].role != Leader
  {
    hide React;
    if msgs != [] {
      var k := |msgs| - 1;
      StepAllKeepsRole(s, id, msgs[..k], tape, cut);
      assert msgs[k] in msgs;
      ReactKeepsRole(StepAll(s, id, msgs[..k], tape, cut).sim.nodes[id], DeliverEvent(msgs[k], tape(id, k)));
    }
  }

  lemma VisitKeepsLone(s: Sim, id: nat, at: nat, tape: Tape, cut: Links)
    requires Lone(s, id)
    ensures Lone(Visit(s, at, tape, cut).sim, id)
  {
    if at == id { StepAllKeepsRole(s, id, Queue(s.queues, id), tape, cut); }
  }

  lemma {:induction false} DeliverAllKeepsLone(s: Sim, id: nat, order: seq<nat>, tape: Tape, cut: Links)
    requires Lone(s, id)
    ensures Lone(DeliverAll(s, order, tape, cut).sim, id)
  {
    hide Visit, Lone;
    if order != [] {
      DeliverAllKeepsLone(s, id, order[..|order| - 1], tape, cut);
      VisitKeepsLone(DeliverAll(s, order[..|order| - 1], tape, cut).sim, id, order[|order| - 1], tape, cut);
    }
  }

  lemma {:induction false} TickAllKeepsLone(s: Sim, id: nat, ids: seq<nat>, tape: Tape)
    requires Lone(s, id)
    ensures Lone(TickAll(s, ids, tape).sim, id)
  {
    if ids != [] {
      var init, x := ids[..|ids| - 1], ids[|ids| - 1];
      TickAllKeepsLone(s, id, init, tape);
      var r := TickAll(s, init, tape);
      hide Fire;
      if x == id { FireKeepsLone(r.sim, id, TickEvent(id, tape(id, 0))); }
    }
  }

  lemma {:induction false} NoLeader(s: Sim, id: nat, ids: seq<nat>)
    requires Lone(s, id)
    ensures LeaderOf(s, ids) == 0
  {
    if ids != [] { NoLeader(s, id, ids[1..]); }
  }

  lemma PerformKeepsLone(s: Sim, id: nat, c: Command)
    requires Lone(s, id)
    ensures Lone(Perform(s, c).sim, id)
  {
    hide Fire, TickAll, DeliverAll, LeaderOf;
    match c
    case TickEach(ids, tape) => TickAllKeepsLone(s, id, ids, tape);
    case Drain(order, tape, cut) => DeliverAllKeepsLone(s, id, order, tape, cut);
    case Submit(ids, cmd) => NoLeader(s, id, ids);
    case TakeDown(x) => if x == id { FireKeepsLone(s, id, CrashEvent(x)); }
    case BringUp(x, draw) => if x == id { FireKeepsLone(s, id, RestartEvent(x, draw)); }
  }

  /** A cluster of one never elects its node, however long it is driven. */
  lemma {:induction false} LoneNodeNeverLeads(s: Sim, id: nat, cs: seq<Command>)
    requires Lone(s, id)
    ensures Drive(s, cs).sim.nodes.Keys == {id} && Drive(s, cs).sim.nodes[id].role != Leader
    ensures Lone(Drive(s, cs).sim, id)
  {
    if cs != [] {
      hide Perform;
      LoneNodeNeverLeads(s, id, cs[..|cs| - 1]);
      PerformKeepsLone(Drive(s, cs[..|cs| - 1]).sim, id, cs[|cs| - 1]);
    }
  }
}
