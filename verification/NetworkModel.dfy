/** A cluster of peers over a network that may lose, duplicate and reorder messages.

    `pool` holds every message ever sent; delivering one leaves it there, so it may be delivered
    again, later, or never. A run is an initial network and a list of events; an event that is not
    enabled leaves the network as it is, so every list of events is a run.
 */
module NetworkModel {
  import opened RaftLog
  import opened Quorum
  import opened Persistence
  import opened NodeModel

  datatype Net = Net(nodes: map<nat, NodeState>, pool: set<Message>)

  datatype Event =
    | TickEvent(id: nat, draw: Draw)
    | DeliverEvent(m: Message, draw: Draw)
    | ProposeEvent(id: nat, cmd: seq<Byte>)
    | ReplicateEvent(id: nat)
    | CrashEvent(id: nat)
    | RestartEvent(id: nat, draw: Draw)

  function Target(e: Event): nat {
    if e.DeliverEvent? then e.m.to else e.id
  }

  /** What the event does to the node it concerns. */
  function React(n: NodeState, e: Event): Outcome {
    match e
    case TickEvent(_, draw) => Tick(n, draw)
    case DeliverEvent(m, draw) => Step(n, m, draw)
    case ProposeEvent(_, cmd) => Outcome(Propose(n, cmd), [])
    case ReplicateEvent(_) => Outcome(n, ReplicateNow(n))
    case CrashEvent(_) => Outcome(Crash(n), [])
    case RestartEvent(_, draw) => Outcome(Restart(n, draw).node, [])
  }

  /** A message must have been sent before it is delivered. Integers are unbounded here, so a restart
      is limited to states whose integers fit the 64-bit words of the persisted form. */
  predicate Enabled(net: Net, e: Event) {
    && Target(e) in net.nodes
    && (e.DeliverEvent? ==> e.m in net.pool)
    && (e.RestartEvent? ==> Representable(net.nodes[e.id]))
  }

  function Sent(out: seq<Message>): set<Message> {
    set m | m in out
  }

  function Apply(net: Net, e: Event): Net {
    if Enabled(net, e) then
      var o := React(net.nodes[Target(e)], e);
      Net(net.nodes[Target(e) := o.node], net.pool + Sent(o.out))
    else net
  }

  /** The network after the events of a run. */
  function Exec(init: Net, es: seq<Event>): Net {
    if es == [] then init else Apply(Exec(init, es[..|es| - 1]), es[|es| - 1])
  }

  ghost predicate Initial(net: Net) {
    && net.pool == {}
    && forall id | id in net.nodes ::
         exists draw: Draw :: net.nodes[id] == InitNode(id, net.nodes[id].peers, draw)
  }

  /** Ids are nonzero and every node's peer list holds exactly the other nodes, once each. */
  ghost predicate WellWired(net: Net) {
    && 0 !in net.nodes
    && forall id | id in net.nodes ::
         && net.nodes[id].id == id
         && Distinct(net.nodes[id].peers)
         && Elements(net.nodes[id].peers) == net.nodes.Keys - {id}
  }

  lemma WiredMembers(net: Net, id: nat)
    requires WellWired(net) && id in net.nodes
    ensures var ps := net.nodes[id].peers;
            Distinct(ps) && id !in ps && Elements(ps) + {id} == net.nodes.Keys
  {
    assert id !in Elements(net.nodes[id].peers);
  }

  ghost predicate LeaderAt(net: Net, id: nat, term: nat) {
    id in net.nodes && net.nodes[id].role == Leader && net.nodes[id].currentTerm == term
  }

  lemma StepKeepsIdentity(n: NodeState, m: Message, draw: Draw)
    ensures Step(n, m, draw).node.id == n.id && Step(n, m, draw).node.peers == n.peers
  {
    hide Append, FollowerCommit, ScanCommit, Broadcast, Wins, FreshIndexes, UpToDate, MatchesPrevLogTerm;
  }

  lemma ReactKeepsIdentity(n: NodeState, e: Event)
    ensures React(n, e).node.id == n.id && React(n, e).node.peers == n.peers
  {
    hide Step, Append, Broadcast, VoteRequests, Serialize, Deserialize, Durable;
    if e.DeliverEvent? { StepKeepsIdentity(n, e.m, e.draw); }
  }

  lemma {:induction false} ExecKeepsWiring(init: Net, es: seq<Event>)
    requires WellWired(init)
    ensures WellWired(Exec(init, es)) && Exec(init, es).nodes.Keys == init.nodes.Keys
  {
    if es != [] {
      var net, e := Exec(init, es[..|es| - 1]), es[|es| - 1];
      ExecKeepsWiring(init, es[..|es| - 1]);
      if Enabled(net, e) {
        ReactKeepsIdentity(net.nodes[Target(e)], e);
        assert Apply(net, e).nodes.Keys == net.nodes.Keys;
      }
    }
  }
}
