/** What a proof needs to remember about a run: every vote ever cast with the voter's log at that
    moment, and every leadership ever won with its voters and the leader's log as it grew. */
module History {
  import opened RaftLog
  import opened Quorum
  import opened NodeModel
  import opened NetworkModel

  datatype Ballot = Ballot(term: nat, voter: nat, candidate: nat)

  datatype Leadership = Leadership(id: nat, quorum: set<nat>, log: Entries)

  datatype World = World(net: Net, votes: map<Ballot, Entries>, lead: map<nat, Leadership>)

  /** The first log recorded for a ballot stays. */
  function Cast(votes: map<Ballot, Entries>, b: Ballot, es: Entries): map<Ballot, Entries> {
    if b in votes then votes else votes[b := es]
  }

  function RecordVotes(votes: map<Ballot, Entries>, n: NodeState, n': NodeState, out: seq<Message>)
    : map<Ballot, Entries>
  {
    if n'.role == Candidate && n'.currentTerm > n.currentTerm then
      Cast(votes, Ballot(n'.currentTerm, n.id, n.id), n.log.entries)
    else if |out| == 1 && out[0].RequestVoteResp? && out[0].granted then
      Cast(votes, Ballot(out[0].term, n.id, out[0].to), n.log.entries)
    else votes
  }

  function RecordLead(lead: map<nat, Leadership>, n: NodeState, n': NodeState): map<nat, Leadership> {
    if n'.role != Leader then lead
    else if n.role == Leader && n'.currentTerm in lead then
      lead[n'.currentTerm := lead[n'.currentTerm].(log := n'.log.entries)]
    else
      lead[n'.currentTerm := Leadership(n'.id, Voters(n'.id, n'.peers, n'.votesGranted), n'.log.entries)]
  }

  function Advance(w: World, e: Event): World {
    var net := Apply(w.net, e);
    if Enabled(w.net, e) then
      var n := w.net.nodes[Target(e)];
      var o := React(n, e);
      World(net, RecordVotes(w.votes, n, o.node, o.out), RecordLead(w.lead, n, o.node))
    else w
  }

  function Start(net: Net): World {
    World(net, map[], map[])
  }

  /** The run of `Exec` with its history. */
  function Chronicle(init: Net, es: seq<Event>): World {
    if es == [] then Start(init) else Advance(Chronicle(init, es[..|es| - 1]), es[|es| - 1])
  }

  lemma {:induction false} ChronicleIsExec(init: Net, es: seq<Event>)
    ensures Chronicle(init, es).net == Exec(init, es)
  {
    if es != [] { ChronicleIsExec(init, es[..|es| - 1]); }
  }

  /** One effect on node `id`, seen by the network. */
  ghost predicate Moves(w: World, id: nat, n': NodeState, out: seq<Message>, w': World) {
    && id in w.net.nodes
    && w'.net.nodes == w.net.nodes[id := n']
    && w'.net.pool == w.net.pool + Sent(out)
    && n'.id == w.net.nodes[id].id && n'.peers == w.net.nodes[id].peers
  }

  /** The history records it. */
  ghost predicate Records(w: World, n: NodeState, n': NodeState, out: seq<Message>, w': World) {
    w'.votes == RecordVotes(w.votes, n, n', out) && w'.lead == RecordLead(w.lead, n, n')
  }
}
