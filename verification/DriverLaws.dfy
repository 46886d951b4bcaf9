/** What one call of the cluster driver means to its caller, stated on the nodes and queues before and after and
    without the driver's own steps. */
module DriverLaws {
  import opened RaftLog
  import opened Quorum
  import opened NodeModel
  import opened Merging
  import opened NodeLaws
  import S = Simulator
  import opened Simulator

  // ---------------------------------------------------------------- ticks

  /** What the nodes of `ids` send on one tick each, in that order. */
  function TickMessages(s: Sim, ids: seq<nat>, tape: Tape): seq<Message>
    requires forall id | id in ids :: id in s.nodes
  {
    if ids == [] then []
    else
      var last := ids[|ids| - 1];
      assert last in ids;
      TickMessages(s, ids[..|ids| - 1], tape) + Tick(s.nodes[last], tape(last, 0)).out
  }

  /** Ticking distinct nodes ticks each of them exactly once, from the state it was in, and nobody else; every
      queue grows by what was sent to it, in order. */
  lemma {:induction false} EachTicksOnce(s: Sim, ids: seq<nat>, tape: Tape, x: nat)
    requires Distinct(ids) && forall id | id in ids :: id in s.nodes
    ensures var r := TickAll(s, ids, tape).sim;
            && r.nodes.Keys == s.nodes.Keys
            && (x in s.nodes ==> r.nodes[x] == if x in ids then Tick(s.nodes[x], tape(x, 0)).node else s.nodes[x])
            && Queue(r.queues, x) == Queue(s.queues, x) + Bound(TickMessages(s, ids, tape), x, {})
  {
    hide Tick;
    if ids != [] {
      var init, id := ids[..|ids| - 1], ids[|ids| - 1];
      assert ids == init + [id] && id in ids && id !in init;
      forall y | y in init ensures y in s.nodes { assert y in ids; }
      EachTicksOnce(s, init, tape, x);
      EachTicksOnce(s, init, tape, id);
      var r := TickAll(s, init, tape).sim;
      var out := Tick(s.nodes[id], tape(id, 0)).out;
      RouteAppends(r.queues, out, {}, x);
      BoundJoin(TickMessages(s, init, tape), out, x, {});
      Associates(Queue(s.queues, x), Bound(TickMessages(s, init, tape), x, {}), Bound(out, x, {}));
    }
  }

  // ---------------------------------------------------------------- proposals

  predicate Leading(s: Sim, id: nat) {
    id in s.nodes && s.nodes[id].role == Leader
  }

  /** `l` is the first member of `ids` that believes it leads. */
  ghost predicate FirstLeading(s: Sim, ids: seq<nat>, l: nat) {
    exists i :: 0 <= i < |ids| && ids[i] == l && Leading(s, l) && forall j | 0 <= j < i :: !Leading(s, ids[j])
  }

  lemma {:induction false} LeaderOfIsFirst(s: Sim, ids: seq<nat>)
    requires 0 !in s.nodes
    ensures var l := LeaderOf(s, ids);
            if l == 0 then forall j | 0 <= j < |ids| :: !Leading(s, ids[j]) else FirstLeading(s, ids, l)
  {
    if ids != [] && !Leading(s, ids[0]) {
      var rest := ids[1..];
      LeaderOfIsFirst(s, rest);
      var l := LeaderOf(s, ids);
      if l == 0 {
        forall j | 0 <= j < |ids| ensures !Leading(s, ids[j]) { if j > 0 { assert ids[j] == rest[j - 1]; } }
      } else {
        var i :| 0 <= i < |rest| && rest[i] == l && Leading(s, l) && forall j | 0 <= j < i :: !Leading(s, rest[j]);
        forall j | 0 <= j < i + 1 ensures !Leading(s, ids[j]) { if j > 0 { assert ids[j] == rest[j - 1]; } }
        assert ids[i + 1] == l;
      }
    } else if ids != [] {
      assert ids[0] == LeaderOf(s, ids);
    }
  }

  lemma FirstIsOne(s: Sim, ids: seq<nat>, a: nat, b: nat)
    requires FirstLeading(s, ids, a) && FirstLeading(s, ids, b)
    ensures a == b
  {
    var i :| 0 <= i < |ids| && ids[i] == a && Leading(s, a) && forall j | 0 <= j < i :: !Leading(s, ids[j]);
    var k :| 0 <= k < |ids| && ids[k] == b && Leading(s, b) && forall j | 0 <= j < k :: !Leading(s, ids[j]);
  }

  /** The message that carries the entry `e`, the last of the log `es` of leader `n`, to `p`: the batch ends with
      `e` unless the next index is already past it, and then there is no batch. */
  ghost predicate Carries(m: Message, n: NodeState, es: seq<Entry>, e: Entry, p: nat) {
    && m.AppendEntries? && m.from == n.id && m.to == p && m.term == n.currentTerm && m.leaderCommit == n.log.commitIndex
    && |es| >= 1 && es[|es| - 1] == e
    && (Get(n.nextIndex, p) <= |es| - 1 ==>
          && m.entries != [] && m.entries[|m.entries| - 1] == e && m.prevLogIndex + |m.entries| == |es| - 1
          && m.prevLogTerm == es[m.prevLogIndex].term
          && (Get(n.nextIndex, p) >= 1 ==> m.prevLogIndex == Get(n.nextIndex, p) - 1))
    && (Get(n.nextIndex, p) > |es| - 1 ==> m.entries == [])
  }

  lemma AppendCarries(n: NodeState, e: Entry, p: nat)
    requires Aligned(n.log.entries) && |n.log.entries| >= 2 && e == n.log.entries[|n.log.entries| - 1]
    ensures Carries(AppendFor(n, p), n, n.log.entries, e, p)
  {
    var es, m := n.log.entries, AppendFor(n, p);
    AppendForIsStretch(n, p);
    AppendReachesLast(n, p);
    AppendForShape(n, p);
    if Get(n.nextIndex, p) <= |es| - 1 {
      TailOf(es, Get(n.nextIndex, p));
    }
  }

  /** A proposal is accepted if and only if some member leads and the first that does is up. */
  lemma ProposalAcceptedIff(s: Sim, ids: seq<nat>, cmd: seq<Byte>)
    requires 0 !in s.nodes
    ensures S.Propose(s, ids, cmd).refusal == None <==> exists l :: FirstLeading(s, ids, l) && !s.nodes[l].crashed
  {
    LeaderOfIsFirst(s, ids);
    var l := LeaderOf(s, ids);
    if exists k :: FirstLeading(s, ids, k) {
      var k :| FirstLeading(s, ids, k);
      if l != 0 { FirstIsOne(s, ids, k, l); }
    }
  }

  /** A refused proposal changes nothing, and the error says why: nobody leads, or the first that does is down. */
  lemma ProposalRefused(s: Sim, ids: seq<nat>, cmd: seq<Byte>)
    requires 0 !in s.nodes
    ensures var p := S.Propose(s, ids, cmd);
            && (p.refusal.Some? ==> p.leg == Leg(s, [], []))
            && (p.refusal == Some(NotLeader) <==> forall j | 0 <= j < |ids| :: !Leading(s, ids[j]))
            && (p.refusal == Some(NodeCrashed) <==> exists l :: FirstLeading(s, ids, l) && s.nodes[l].crashed)
  {
    LeaderOfIsFirst(s, ids);
    var l := LeaderOf(s, ids);
    forall k | FirstLeading(s, ids, k) ensures k == l {
      if l != 0 { FirstIsOne(s, ids, k, l); }
    }
    if l != 0 { assert Leading(s, l); }
  }

  /** An accepted proposal: the leader's log grows by exactly one entry of its term with the command, no other node
      moves, and a message that carries that entry is queued for each position of the leader's peer list, behind
      what was queued before. */
  lemma ProposalReplicates(s: Sim, ids: seq<nat>, cmd: seq<Byte>, l: nat) returns (out: seq<Message>)
    requires 0 !in s.nodes && FirstLeading(s, ids, l) && !s.nodes[l].crashed && Aligned(s.nodes[l].log.entries)
    ensures var n := s.nodes[l]; var e := Entry(n.currentTerm, |n.log.entries|, cmd);
            var es := n.log.entries + [e]; var r := S.Propose(s, ids, cmd).leg.sim;
            && r.nodes == s.nodes[l := n.(log := n.log.(entries := es))]
            && |out| == |n.peers| && (forall i | 0 <= i < |out| :: Carries(out[i], n, es, e, n.peers[i]))
            && forall x :: Queue(r.queues, x) == Queue(s.queues, x) + Bound(out, x, {})
  {
    LeaderOfIsFirst(s, ids);
    if LeaderOf(s, ids) != 0 { FirstIsOne(s, ids, l, LeaderOf(s, ids)); }
    var n := s.nodes[l];
    var e := Entry(n.currentTerm, |n.log.entries|, cmd);
    ProposalLaw(n, cmd);
    var n' := NodeModel.Propose(n, cmd);
    out := Broadcast(n');
    forall i | 0 <= i < |out| ensures Carries(out[i], n, n'.log.entries, e, n.peers[i]) {
      AppendCarries(n', e, n.peers[i]);
      CarriesSame(out[i], n', n, e, n.peers[i]);
    }
    hide NodeModel.Propose, Carries, FirstLeading, LeaderOf, Broadcast, Aligned;
    forall x ensures Queue(Route(s.queues, out, {}), x) == Queue(s.queues, x) + Bound(out, x, {}) {
      RouteAppends(s.queues, out, {}, x);
    }
    assert Route(s.queues, [], {}) == s.queues;
  }

  lemma CarriesSame(m: Message, n': NodeState, n: NodeState, e: Entry, p: nat)
    requires Carries(m, n', n'.log.entries, e, p)
    requires n'.id == n.id && n'.currentTerm == n.currentTerm && n'.log.commitIndex == n.log.commitIndex
    requires n'.nextIndex == n.nextIndex
    ensures Carries(m, n, n'.log.entries, e, p)
  {
  }

  /** For a duplicate-free peer list: each peer's queue gains one such message, and no other queue moves. */
  lemma ProposalReachesPeers(s: Sim, ids: seq<nat>, cmd: seq<Byte>, l: nat, x: nat) returns (m: Message)
    requires 0 !in s.nodes && FirstLeading(s, ids, l) && !s.nodes[l].crashed && Aligned(s.nodes[l].log.entries)
    requires Distinct(s.nodes[l].peers)
    ensures var n := s.nodes[l]; var e := Entry(n.currentTerm, |n.log.entries|, cmd);
            var r := S.Propose(s, ids, cmd).leg.sim;
            if x in n.peers then
              Carries(m, n, n.log.entries + [e], e, x) && Queue(r.queues, x) == Queue(s.queues, x) + [m]
            else Queue(r.queues, x) == Queue(s.queues, x)
  {
    var n := s.nodes[l];
    hide S.Propose, FirstLeading;
    var out := ProposalReplicates(s, ids, cmd, l);
    if x in n.peers {
      var i :| 0 <= i < |n.peers| && n.peers[i] == x;
      m := out[i];
      BoundOnce(out, n.peers, i);
    } else {
      m := RequestVote(0, 0, 0, 0, 0);
      BoundNone(out, x, {});
    }
  }

  lemma {:induction false} BoundOnce(ms: seq<Message>, ps: seq<nat>, i: nat)
    requires |ms| == |ps| && Distinct(ps) && i < |ms| && forall j | 0 <= j < |ms| :: ms[j].to == ps[j]
    ensures Bound(ms, ps[i], {}) == [ms[i]]
  {
    var init, last := ms[..|ms| - 1], |ms| - 1;
    if i == last {
      forall m | m in init ensures m.to != ps[i] {
        var j :| 0 <= j < |init| && init[j] == m;
      }
      BoundNone(init, ps[i], {});
    } else {
      BoundOnce(init, ps[..last], i);
    }
  }
}
