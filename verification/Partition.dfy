/** Network partitions of the simulated cluster: a nested map of blocked links, and delivery that drops
    what crosses one. */
module Partitions {
  import opened RaftLog
  import opened NodeModel
  import opened NetworkModel
  import opened Effects
  import opened ClusterDriver
  import opened Simulator

  type LinkTable = map<nat, map<nat, bool>>

  /** The links a table blocks. */
  function Cut(p: LinkTable): Links {
    set a, b | a in p && b in p[a] && p[a][b] :: (a, b)
  }

  // ---------------------------------------------------------------- histories of partitions

  datatype Change = Isolate(id: nat) | Mend(id: nat) | MendAll

  /** The links from and to `id` over the members of a cluster of `n`. */
  function LinksOf(id: nat, n: nat): Links {
    (set b | b in FirstIds(n) && b != id :: (id, b)) + (set a | a in FirstIds(n) && a != id :: (a, id))
  }

  function AfterChange(cut: Links, c: Change, n: nat): Links {
    match c
    case Isolate(id) => cut + LinksOf(id, n)
    case Mend(id) => set l | l in cut && l.0 != id && l.1 != id
    case MendAll => {}
  }

  function AfterChanges(cs: seq<Change>, n: nat): Links {
    if cs == [] then {} else AfterChange(AfterChanges(cs[..|cs| - 1], n), cs[|cs| - 1], n)
  }

  /** Does the change concern one of the two ends? */
  predicate Touches(c: Change, a: nat, b: nat) {
    c.MendAll? || c.id == a || c.id == b
  }

  /** The last change that concerns one of the two ends. */
  function LastTouching(cs: seq<Change>, a: nat, b: nat): Option<Change> {
    if cs == [] then None
    else if Touches(cs[|cs| - 1], a, b) then Some(cs[|cs| - 1])
    else LastTouching(cs[..|cs| - 1], a, b)
  }

  /** After any history of partitions and repairs, a link between two members is blocked exactly when
      they are distinct and the last change that concerned either of them was a partition. */
  lemma {:induction false} BlockedIffLastWasPartition(cs: seq<Change>, n: nat, a: nat, b: nat)
    requires 1 <= a <= n && 1 <= b <= n
    ensures (a, b) in AfterChanges(cs, n) <==>
            a != b && LastTouching(cs, a, b).Some? && LastTouching(cs, a, b).value.Isolate?
  {
    if cs != [] {
      BlockedIffLastWasPartition(cs[..|cs| - 1], n, a, b);
      IsMember(n, a);
      IsMember(n, b);
    }
  }

  /** Blocking is symmetric, never concerns a node and itself, and always has a member at one end. */
  lemma {:induction false} BlockingIsSymmetric(cs: seq<Change>, n: nat, a: nat, b: nat)
    ensures (a, b) in AfterChanges(cs, n) ==> (b, a) in AfterChanges(cs, n) && a != b && (1 <= a <= n || 1 <= b <= n)
  {
    if cs != [] {
      BlockingIsSymmetric(cs[..|cs| - 1], n, a, b);
      IsMember(n, a);
      IsMember(n, b);
    }
  }

  // ---------------------------------------------------------------- the partitioned cluster

  class PartitionedCluster {
    const cluster: Cluster
    var partitions: LinkTable
    /** Every change so far. */
    ghost var history: seq<Change>

    ghost predicate Valid()
      reads this, cluster, cluster.nodes, cluster.Logs()
    {
      cluster.Valid() && Cut(partitions) == AfterChanges(history, |cluster.nodes|)
    }

    constructor (n: nat, draws: nat -> Draw)
      ensures Valid() && fresh(cluster) && fresh(cluster.nodes) && fresh(cluster.Logs())
      ensures |cluster.nodes| == n && history == [] && Cut(partitions) == {}
    {
      cluster := new Cluster(n, draws);
      partitions := map[];
      history := [];
    }

    method Block(src: nat, dst: nat)
      modifies this`partitions
      ensures Cut(partitions) == Cut(old(partitions)) + {(src, dst)}
    {
      var row: map<nat, bool> := if src in partitions then partitions[src] else map[];
      partitions := partitions[src := row[dst := true]];
    }

    /** Isolate a node: every link between it and another member is blocked, both ways. */
    method Partition(id: nat)
      requires Valid()
      modifies this
      ensures Valid() && history == old(history) + [Isolate(id)]
      ensures Cut(partitions) == Cut(old(partitions)) + LinksOf(id, |cluster.nodes|)
    {
      hide Cut, LinksOf, AfterChanges;
      if id !in partitions {
        EmptyRowBlocksNothing(partitions, id);
        partitions := partitions[id := map[]];
      }
      NoLinks(id);
      var i := 0;
      while i < |cluster.nodes|
        invariant i <= |cluster.nodes| && history == old(history) && cluster.Valid()
        invariant Cut(partitions) == Cut(old(partitions)) + LinksOf(id, i)
      {
        assert cluster.Shows(i);
        LinksOfGrows(id, i);
        var other := cluster.nodes[i].id;
        if other != id {
          Block(id, other);
          Block(other, id);
        }
        i := i + 1;
      }
      OneMore(history, Isolate(id), |cluster.nodes|);
      history := history + [Isolate(id)];
    }

    /** Drop `id` from every row. */
    method DropColumn(id: nat)
      modifies this`partitions
      ensures partitions.Keys == old(partitions).Keys
      ensures forall k | k in partitions :: partitions[k] == old(partitions)[k] - {id}
    {
      var left := partitions.Keys;
      while left != {}
        invariant left <= partitions.Keys && partitions.Keys == old(partitions).Keys
        invariant forall k | k in left :: partitions[k] == old(partitions)[k]
        invariant forall k | k in partitions && k !in left :: partitions[k] == old(partitions)[k] - {id}
        decreases |left|
      {
        var k :| k in left;
        partitions := partitions[k := partitions[k] - {id}];
        left := left - {k};
      }
    }

    /** Repair every link of a node. */
    method Heal(id: nat)
      requires Valid()
      modifies this
      ensures Valid() && history == old(history) + [Mend(id)]
      ensures forall a, b :: (a, b) in Cut(partitions) <==> (a, b) in Cut(old(partitions)) && a != id && b != id
    {
      hide Cut, AfterChanges;
      partitions := partitions - {id};
      DropColumn(id);
      HealedCut(old(partitions), partitions, id, |cluster.nodes|);
      OneMore(history, Mend(id), |cluster.nodes|);
      history := history + [Mend(id)];
    }

    method HealAll()
      requires Valid()
      modifies this
      ensures Valid() && history == old(history) + [MendAll] && Cut(partitions) == {}
    {
      hide AfterChanges, LastTouching, LinksOf;
      OneMore(history, MendAll, |cluster.nodes|);
      partitions := map[];
      history := history + [MendAll];
    }

    method IsBlocked(src: nat, dst: nat) returns (blocked: bool)
      ensures blocked <==> (src, dst) in Cut(partitions)
    {
      if src in partitions { return dst in partitions[src] && partitions[src][dst]; }
      return false;
    }

    /** Queue the replies that no partition blocks. */
    method RouteOpen(msgs: seq<Message>)
      requires cluster.Valid() && forall m | m in msgs :: WellIndexed(m)
      modifies cluster
      ensures cluster.Valid()
      ensures cluster.sim == old(cluster.sim).(queues := Route(old(cluster.queues), msgs, Cut(partitions)))
    {
      hide Cut;
      var k := 0;
      while k < |msgs|
        invariant k <= |msgs| && cluster.Valid()
        invariant cluster.sim == old(cluster.sim).(queues := Route(old(cluster.queues), msgs[..k], Cut(partitions)))
      {
        assert msgs[k] in msgs && msgs[..k + 1][..k] == msgs[..k];
        var blocked := IsBlocked(msgs[k].from, msgs[k].to);
        if !blocked { cluster.Enqueue(msgs[k]); }
        k := k + 1;
      }
      assert msgs[..|msgs|] == msgs;
    }

    method StepOpen(i: nat, msgs: seq<Message>, tape: Tape)
      requires cluster.Valid() && i < |cluster.nodes| && forall m | m in msgs :: WellIndexed(m)
      modifies cluster, cluster.nodes, cluster.Logs()
      ensures cluster.Valid() && cluster.Logs() == old(cluster.Logs())
      ensures cluster.sim == StepAll(old(cluster.sim), i + 1, msgs, tape, Cut(partitions)).sim
    {
      hide React, Cut;
      var k := 0;
      while k < |msgs|
        invariant k <= |msgs| && cluster.Valid() && cluster.Logs() == old(cluster.Logs())
        invariant cluster.sim == StepAll(old(cluster.sim), i + 1, msgs[..k], tape, Cut(partitions)).sim
      {
        assert msgs[k] in msgs && msgs[..k + 1][..k] == msgs[..k];
        var blocked := IsBlocked(msgs[k].from, msgs[k].to);
        if !blocked {
          var out := cluster.StepNode(i, msgs[k], tape(i + 1, k));
          RouteOpen(out);
        }
        k := k + 1;
      }
      assert msgs[..|msgs|] == msgs;
    }

    method DrainFiltered(id: nat, tape: Tape)
      requires cluster.Valid()
      modifies cluster, cluster.nodes, cluster.Logs()
      ensures cluster.Valid() && cluster.Logs() == old(cluster.Logs())
      ensures cluster.sim == Visit(old(cluster.sim), id, tape, Cut(partitions)).sim
    {
      hide StepAll, Cut;
      var msgs := Queue(cluster.queues, id);
      if |msgs| == 0 { return; }
      var at := cluster.NodeIndex(id);
      if at.Some? { StepOpen(at.value, msgs, tape); }
      cluster.ClearQueue(id);
    }

    /** Drain the queues, dropping every message and every reply on a blocked link. */
    method DeliverAllFiltered(order: seq<nat>, tape: Tape)
      requires Valid()
      modifies cluster, cluster.nodes, cluster.Logs()
      ensures Valid() && cluster.Logs() == old(cluster.Logs())
      ensures cluster.sim == S.DeliverAll(old(cluster.sim), order, tape, AfterChanges(history, |cluster.nodes|)).sim
    {
      hide Visit, Cut;
      var k := 0;
      while k < |order|
        invariant k <= |order| && cluster.Valid() && cluster.Logs() == old(cluster.Logs())
        invariant cluster.sim == S.DeliverAll(old(cluster.sim), order[..k], tape, Cut(partitions)).sim
      {
        assert order[..k + 1][..k] == order[..k];
        DrainFiltered(order[k], tape);
        k := k + 1;
      }
      assert order[..|order|] == order;
    }
  }

  lemma NoLinks(id: nat)
    ensures LinksOf(id, 0) == {}
  {
  }

  lemma LinksOfGrows(id: nat, n: nat)
    ensures LinksOf(id, n + 1) == LinksOf(id, n) + if id == n + 1 then {} else {(id, n + 1), (n + 1, id)}
  {
  }

  lemma EmptyRowBlocksNothing(p: LinkTable, id: nat)
    requires id !in p
    ensures Cut(p[id := map[]]) == Cut(p)
  {
  }

  lemma HealedCut(p: LinkTable, q: LinkTable, id: nat, n: nat)
    requires q.Keys == p.Keys - {id} && forall k | k in q :: q[k] == p[k] - {id}
    ensures Cut(q) == AfterChange(Cut(p), Mend(id), n)
  {
  }

  lemma OneMore(cs: seq<Change>, c: Change, n: nat)
    ensures AfterChanges(cs + [c], n) == AfterChange(AfterChanges(cs, n), c, n)
  {
    assert (cs + [c])[..|cs|] == cs;
  }
}
