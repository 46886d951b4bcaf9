/** The protocol theorems for the simulated cluster: they carry over along the refinement, with or
    without partitions, crashes and restarts. */
module DriverSafety {
  import opened RaftLog
  import opened NodeModel
  import opened NetworkModel
  import opened Election
  import opened LogMatching
  import opened StateMachineSafety
  import opened Simulator

  /** What is done later only adds events. */
  lemma {:induction false} DriveExtends(s: Sim, cs: seq<Command>, i: nat)
    requires i <= |cs|
    ensures Drive(s, cs[..i]).events <= Drive(s, cs).events
    decreases |cs|
  {
    if i == |cs| {
      assert cs[..i] == cs;
    } else {
      hide Perform;
      var init := cs[..|cs| - 1];
      DriveExtends(s, init, i);
      assert init[..i] == cs[..i];
    }
  }

  /** The nodes after a part of what is done are the network after a part of its events. */
  lemma DrivenState(s: Sim, net: Net, cs: seq<Command>, i: nat) returns (k: nat)
    requires Represents(s, net) && i <= |cs|
    ensures k <= |Drive(s, cs).events| && Drive(s, cs[..i]).sim.nodes == Exec(net, Drive(s, cs).events[..k]).nodes
  {
    hide Represents, Drive, Exec;
    var part := Drive(s, cs[..i]);
    DriveExtends(s, cs, i);
    DriveRefines(s, net, cs[..i]);
    RepresentsFacts(part.sim, Exec(net, part.events));
    k := |part.events|;
    assert Drive(s, cs).events[..k] == part.events;
  }

  /** However a properly wired cluster is driven, no term ever has two leaders. */
  lemma DrivenElectionSafety(s: Sim, net: Net, cs: seq<Command>, i: nat, j: nat, a: nat, b: nat)
    requires Represents(s, net) && Initial(net) && WellWired(net) && i <= |cs| && j <= |cs|
    requires var m, n := Drive(s, cs[..i]).sim.nodes, Drive(s, cs[..j]).sim.nodes;
             && a in m && b in n && m[a].role == Leader && n[b].role == Leader
             && m[a].currentTerm == n[b].currentTerm
    ensures a == b
  {
    hide Represents, Drive, Exec, Initial, WellWired;
    var k := DrivenState(s, net, cs, i);
    var l := DrivenState(s, net, cs, j);
    ElectionSafety(net, Drive(s, cs).events, k, l, a, b, Drive(s, cs[..i]).sim.nodes[a].currentTerm);
  }

  /** However it is driven, any two logs with the same term at an index are identical through it. */
  lemma DrivenLogMatching(s: Sim, net: Net, cs: seq<Command>, i: nat, j: nat, a: nat, b: nat, x: nat)
    requires Represents(s, net) && Initial(net) && WellWired(net) && i <= |cs| && j <= |cs|
    requires a in Drive(s, cs[..i]).sim.nodes && b in Drive(s, cs[..j]).sim.nodes
    requires var la, lb := Drive(s, cs[..i]).sim.nodes[a].log.entries, Drive(s, cs[..j]).sim.nodes[b].log.entries;
             x < |la| && x < |lb| && la[x].term == lb[x].term
    ensures Agree(Drive(s, cs[..i]).sim.nodes[a].log.entries, Drive(s, cs[..j]).sim.nodes[b].log.entries, x)
  {
    hide Represents, Drive, Exec, Initial, WellWired, Agree;
    var k := DrivenState(s, net, cs, i);
    var l := DrivenState(s, net, cs, j);
    LogMatchingHolds(net, Drive(s, cs).events, k, l, a, b, x);
  }

  /** However it is driven, under the acknowledgement hypothesis of its events, what two nodes have committed
      agrees wherever both commit indexes reach. */
  lemma DrivenStateMachineSafety(s: Sim, net: Net, cs: seq<Command>, i: nat, j: nat, a: nat, b: nat, x: nat)
    requires Represents(s, net) && Initial(net) && WellWired(net) && i <= |cs| && j <= |cs|
    requires AcksInside(net, Drive(s, cs).events)
    requires a in Drive(s, cs[..i]).sim.nodes && b in Drive(s, cs[..j]).sim.nodes
    requires x <= Drive(s, cs[..i]).sim.nodes[a].log.commitIndex && x <= Drive(s, cs[..j]).sim.nodes[b].log.commitIndex
    ensures Agree(Drive(s, cs[..i]).sim.nodes[a].log.entries, Drive(s, cs[..j]).sim.nodes[b].log.entries, x)
  {
    hide Represents, Drive, Exec, Initial, WellWired, Agree, AcksInside;
    var k := DrivenState(s, net, cs, i);
    var l := DrivenState(s, net, cs, j);
    StateMachineSafetyHolds(net, Drive(s, cs).events, k, l, a, b, x);
  }

  /** However it is driven, under the same hypothesis, what a node has committed stands in the log of every
      leader of a later term. */
  lemma DrivenLeaderCompleteness(s: Sim, net: Net, cs: seq<Command>, i: nat, j: nat, a: nat, b: nat)
    requires Represents(s, net) && Initial(net) && WellWired(net) && i <= |cs| && j <= |cs|
    requires AcksInside(net, Drive(s, cs).events)
    requires var m, n := Drive(s, cs[..i]).sim.nodes, Drive(s, cs[..j]).sim.nodes;
             a in m && b in n && n[b].role == Leader && m[a].currentTerm < n[b].currentTerm
    ensures var m, n := Drive(s, cs[..i]).sim.nodes, Drive(s, cs[..j]).sim.nodes;
            Agree(m[a].log.entries, n[b].log.entries, m[a].log.commitIndex)
  {
    hide Represents, Drive, Exec, Initial, WellWired, Agree, AcksInside;
    var k := DrivenState(s, net, cs, i);
    var l := DrivenState(s, net, cs, j);
    LeaderCompletenessHolds(net, Drive(s, cs).events, k, l, a, b, Drive(s, cs[..j]).sim.nodes[b].currentTerm);
  }
}
