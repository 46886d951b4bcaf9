/** Election Safety for the wiring the simulated cluster builds, in which every node is its own peer: it
    holds of every run of a cluster of `n` nodes, and of every use of the driver, if and only if `n <= 1`.

    The violating use, for three nodes or more: with half of the cluster down, node 1 is elected; it hears its
    own heartbeat, follows it and forgets its vote; then the other half comes up and elects node `n` in the
    same term, with the help of node 1. Two nodes that stand for the same term both win on each other's
    refusal, because the own vote counts twice.
 */
module SelfWired {
  import opened RaftLog
  import opened Quorum
  import opened Persistence
  import opened NodeModel
  import opened NetworkModel
  import opened Simulator
  import opened ClusterDriver
  import opened Membership
  import opened Stability
  import opened DriverSafety

  /** What a caller of a cluster of `n` nodes can do: ticks go to all nodes, a delivery visits the queues of all
      nodes in some order, with nothing blocked. */
  ghost predicate Genuine(c: Command, n: nat) {
    match c
    case TickEach(ids, _) => ids == FirstIds(n)
    case Drain(order, _, cut) => Distinct(order) && Elements(order) == Elements(FirstIds(n)) && cut == {}
    case Submit(members, _) => members == FirstIds(n)
    case TakeDown(id) => 1 <= id <= n
    case BringUp(id, _) => 1 <= id <= n
  }

  ghost predicate AllGenuine(cs: seq<Command>, n: nat) {
    forall i | 0 <= i < |cs| :: Genuine(cs[i], n)
  }

  /** At most one node ever leads a term of this run. */
  ghost predicate OneLeaderPerTerm(init: Net, es: seq<Event>) {
    forall i: nat, j: nat, a: nat, b: nat, t: nat | i <= |es| && j <= |es| &&
      LeaderAt(Exec(init, es[..i]), a, t) && LeaderAt(Exec(init, es[..j]), b, t) :: a == b
  }

  // ---------------------------------------------------------------- states

  /** Nodes 1 to `n`, all told about each other and themselves, all with empty logs. */
  ghost predicate Plain(s: Sim, n: nat) {
    && (forall id :: id in s.nodes <==> 1 <= id <= n)
    && (forall id | id in s.nodes :: PlainNode(s.nodes[id], id, n))
  }

  ghost predicate PlainNode(x: NodeState, id: nat, n: nat) {
    x.id == id && x.peers == FirstIds(n) && x.log == EMPTY_LOG
  }

  /** Nobody outside `w` has moved since `s0`, where all of them were down. */
  ghost predicate Frame(s0: Sim, s: Sim, w: set<nat>) {
    forall id | id in s0.nodes && id !in w :: id in s.nodes && s.nodes[id] == s0.nodes[id] && s0.nodes[id].crashed
  }

  /** Up, following nobody in particular, and free to vote in term 1. */
  ghost predicate Willing(x: NodeState) {
    !x.crashed && x.role == Follower && (x.currentTerm == 0 || (x.currentTerm == 1 && x.votedFor == 0))
  }

  ghost predicate Candidate1(x: NodeState, c: nat) {
    !x.crashed && x.role == Candidate && x.currentTerm == 1 && x.votedFor == c && x.votesGranted == {c}
  }

  ghost predicate QuietQueues(s: Sim, n: nat) {
    forall id | 1 <= id <= n :: Queue(s.queues, id) == []
  }

  /** Before `c` stands: its timer has `k` ticks left, those of the other nodes in `w` more, and the first `m`
      nodes have had their tick of this round already. */
  ghost predicate Waiting(s0: Sim, s: Sim, n: nat, c: nat, w: set<nat>, k: nat, m: nat) {
    && Plain(s, n) && Frame(s0, s, w) && s0.nodes.Keys == s.nodes.Keys && QuietQueues(s, n)
    && c in w && c in s.nodes && !s.nodes[c].crashed && s.nodes[c].role == Follower && s.nodes[c].currentTerm == 0
    && Left(s.nodes[c]) == (if c <= m then k - 1 else k)
    && forall id | id in w && id != c ::
         id in s.nodes && Willing(s.nodes[id]) && Left(s.nodes[id]) > (if id <= m then k - 1 else k)
  }

  function Request(c: nat, id: nat): Message {
    RequestVote(c, id, 1, 0, 0)
  }

  function Grant(c: nat, id: nat): Message {
    RequestVoteResp(id, c, 1, true)
  }

  /** `c` stands for term 1 and has asked everybody; the nodes past `m` are yet to tick in this round. */
  ghost predicate Standing(s0: Sim, s: Sim, n: nat, c: nat, w: set<nat>, m: nat) {
    && Plain(s, n) && Frame(s0, s, w) && s0.nodes.Keys == s.nodes.Keys
    && c in w && c in s.nodes && Candidate1(s.nodes[c], c)
    && (forall id | id in w && id != c ::
          id in s.nodes && Willing(s.nodes[id]) && (id > m ==> Left(s.nodes[id]) > 1))
    && forall id | 1 <= id <= n :: Queue(s.queues, id) == [Request(c, id)]
  }

  // ---------------------------------------------------------------- composing uses

  lemma {:induction false} DriveJoin(s: Sim, a: seq<Command>, b: seq<Command>)
    ensures Drive(s, a + b).sim == Drive(Drive(s, a).sim, b).sim
    decreases |b|
  {
    hide Perform;
    if b == [] {
      assert a + b == a;
    } else {
      DriveJoin(s, a, b[..|b| - 1]);
      assert (a + b)[..|a + b| - 1] == a + b[..|b| - 1];
    }
  }

  lemma DriveOne(s: Sim, c: Command)
    ensures Drive(s, [c]).sim == Perform(s, c).sim
  {
    hide Perform;
    assert Drive(s, [c][..0]).sim == s;
  }

  lemma NoneGenuine(n: nat)
    ensures AllGenuine([], n)
  {
  }

  lemma OneGenuine(c: Command, n: nat)
    requires Genuine(c, n)
    ensures AllGenuine([c], n)
  {
  }

  lemma GenuineJoin(a: seq<Command>, b: seq<Command>, n: nat)
    requires AllGenuine(a, n) && AllGenuine(b, n)
    ensures AllGenuine(a + b, n)
  {
  }

  lemma FirstIdsPrefix(m: nat)
    requires m > 0
    ensures FirstIds(m)[..|FirstIds(m)| - 1] == FirstIds(m - 1) && FirstIds(m)[|FirstIds(m)| - 1] == m
  {
    FirstIdsAt(m);
    FirstIdsAt(m - 1);
  }

  lemma TickAllStep(s: Sim, m: nat, tape: Tape)
    requires m > 0 && m in TickAll(s, FirstIds(m - 1), tape).sim.nodes
    ensures TickAll(s, FirstIds(m), tape).sim
            == Fire(TickAll(s, FirstIds(m - 1), tape).sim, m, TickEvent(m, tape(m, 0)), {}).sim
  {
    hide Fire;
    FirstIdsPrefix(m);
  }

  // ---------------------------------------------------------------- ticking up to the election

  lemma TickerState(s0: Sim, s: Sim, n: nat, c: nat, w: set<nat>, k: nat, m: nat)
    requires Waiting(s0, s, n, c, w, k, m) && m < n && k >= 1
    ensures var id := m + 1;
            && id in s.nodes && PlainNode(s.nodes[id], id, n)
            && (id !in w ==> s.nodes[id].crashed)
            && (id == c ==> !s.nodes[id].crashed && s.nodes[id].role == Follower && Left(s.nodes[id]) == k)
            && (id in w && id != c ==> Willing(s.nodes[id]) && Left(s.nodes[id]) > k)
  {
  }

  /** The next node has ticked, or is down. */
  lemma WaitingMoves(s0: Sim, s: Sim, n: nat, c: nat, w: set<nat>, k: nat, m: nat, x: NodeState)
    requires Waiting(s0, s, n, c, w, k, m) && m < n && k >= 1
    requires x == var y := s.nodes[m + 1]; if y.crashed then y else y.(electionElapsed := y.electionElapsed + 1)
    ensures Waiting(s0, Sim(s.nodes[m + 1 := x], s.queues), n, c, w, k, m + 1)
  {
    TickerState(s0, s, n, c, w, k, m);
    var id, s' := m + 1, Sim(s.nodes[m + 1 := x], s.queues);
    assert s'.nodes.Keys == s.nodes.Keys;
    assert PlainNode(x, id, n);
    assert Plain(s', n);
    assert Frame(s0, s', w);
  }

  lemma WaitingTick(s0: Sim, s: Sim, n: nat, c: nat, w: set<nat>, k: nat, m: nat, draw: Draw)
    requires Waiting(s0, s, n, c, w, k, m) && m < n && k >= 1 && (k >= 2 || m + 1 != c)
    ensures m + 1 in s.nodes && Waiting(s0, Fire(s, m + 1, TickEvent(m + 1, draw), {}).sim, n, c, w, k, m + 1)
  {
    TickerState(s0, s, n, c, w, k, m);
    hide Waiting, Tick;
    var x := s.nodes[m + 1];
    QuietTickNode(x, draw);
    var o := Tick(x, draw);
    WaitingMoves(s0, s, n, c, w, k, m, o.node);
    assert Route(s.queues, [], {}) == s.queues;
  }

  lemma QuietTickNode(x: NodeState, draw: Draw)
    requires x.crashed || (x.role == Follower && Left(x) >= 2)
    ensures Tick(x, draw) == Outcome(if x.crashed then x else x.(electionElapsed := x.electionElapsed + 1), [])
  {
  }

  /** Ticks of the first `m` nodes while `c` is not due. */
  lemma {:induction false} WaitingTicks(s0: Sim, s: Sim, n: nat, c: nat, w: set<nat>, k: nat, m: nat, tape: Tape)
    requires Waiting(s0, s, n, c, w, k, 0) && m <= n && k >= 1 && (k >= 2 || m < c)
    ensures Waiting(s0, TickAll(s, FirstIds(m), tape).sim, n, c, w, k, m)
  {
    hide Waiting, Fire;
    if m > 0 {
      WaitingTicks(s0, s, n, c, w, k, m - 1, tape);
      WaitingTick(s0, TickAll(s, FirstIds(m - 1), tape).sim, n, c, w, k, m - 1, tape(m, 0));
      TickAllStep(s, m, tape);
    }
  }

  lemma NextRound(s0: Sim, s: Sim, n: nat, c: nat, w: set<nat>, k: nat)
    requires Waiting(s0, s, n, c, w, k, n) && k >= 1
    ensures Waiting(s0, s, n, c, w, k - 1, 0)
  {
  }

  function Rounds(n: nat, tape: Tape, k: nat): seq<Command> {
    if k == 0 then [] else [TickEach(FirstIds(n), tape)] + Rounds(n, tape, k - 1)
  }

  /** Whole rounds of ticks until `c` has one tick left. */
  lemma {:induction false} WaitingRounds(s0: Sim, s: Sim, n: nat, c: nat, w: set<nat>, k: nat, tape: Tape)
    requires Waiting(s0, s, n, c, w, k, 0) && k >= 1
    ensures var cs := Rounds(n, tape, k - 1); AllGenuine(cs, n) && Waiting(s0, Drive(s, cs).sim, n, c, w, 1, 0)
    decreases k
  {
    hide Waiting, TickAll, FirstIds, AllGenuine;
    NoneGenuine(n);
    if k > 1 {
      WaitingTicks(s0, s, n, c, w, k, n, tape);
      var t := TickEach(FirstIds(n), tape);
      OneGenuine(t, n);
      var s' := TickAll(s, FirstIds(n), tape).sim;
      NextRound(s0, s', n, c, w, k);
      WaitingRounds(s0, s', n, c, w, k - 1, tape);
      GenuineJoin([t], Rounds(n, tape, k - 2), n);
      DriveOne(s, t);
      DriveJoin(s, [t], Rounds(n, tape, k - 2));
    }
  }

  // ---------------------------------------------------------------- the election starts

  /** A message to each node in turn: each finds its own. */
  lemma {:induction false} BoundEach(ms: seq<Message>, id: nat)
    requires forall i | 0 <= i < |ms| :: ms[i].to == i + 1
    ensures Bound(ms, id, {}) == if 1 <= id <= |ms| then [ms[id - 1]] else []
  {
    if ms != [] { BoundEach(ms[..|ms| - 1], id); }
  }

  lemma StandsUp(x: NodeState, draw: Draw, n: nat, id: nat)
    requires PlainNode(x, x.id, n) && !x.crashed && x.role == Follower && x.currentTerm == 0 && Left(x) == 1
             && 1 <= id <= n
    ensures var o := Tick(x, draw);
            && Candidate1(o.node, x.id) && PlainNode(o.node, x.id, n) && Bound(o.out, id, {}) == [Request(x.id, id)]
  {
    var o := Tick(x, draw);
    FirstIdsAt(n);
    BoundEach(o.out, id);
    assert LastIndex(EMPTY_LOG.entries) == 0 && LastTerm(EMPTY_LOG.entries) == 0;
  }

  lemma StandingTick(s0: Sim, s: Sim, n: nat, c: nat, w: set<nat>, draw: Draw)
    requires 1 <= c <= n && Waiting(s0, s, n, c, w, 1, c - 1)
    ensures Standing(s0, Fire(s, c, TickEvent(c, draw), {}).sim, n, c, w, c)
  {
    hide Tick;
    var o := Tick(s.nodes[c], draw);
    var s' := Fire(s, c, TickEvent(c, draw), {}).sim;
    forall id | 1 <= id <= n ensures Queue(s'.queues, id) == [Request(c, id)] {
      StandsUp(s.nodes[c], draw, n, id);
      RouteAppends(s.queues, o.out, {}, id);
    }
    StandsUp(s.nodes[c], draw, n, c);
    assert Frame(s0, s', w);
    assert s'.nodes.Keys == s.nodes.Keys;
  }

  lemma StandingMoves(s0: Sim, s: Sim, n: nat, c: nat, w: set<nat>, m: nat, x: NodeState)
    requires Standing(s0, s, n, c, w, m) && c <= m < n
    requires x == var y := s.nodes[m + 1]; if y.crashed then y else y.(electionElapsed := y.electionElapsed + 1)
    ensures Standing(s0, Sim(s.nodes[m + 1 := x], s.queues), n, c, w, m + 1)
  {
    var id, s' := m + 1, Sim(s.nodes[m + 1 := x], s.queues);
    assert s'.nodes.Keys == s.nodes.Keys;
    assert PlainNode(x, id, n);
    assert Plain(s', n);
    assert Frame(s0, s', w);
  }

  lemma LaterTicker(s0: Sim, s: Sim, n: nat, c: nat, w: set<nat>, m: nat)
    requires Standing(s0, s, n, c, w, m) && c <= m < n
    ensures m + 1 in s.nodes
            && (s.nodes[m + 1].crashed || (s.nodes[m + 1].role == Follower && Left(s.nodes[m + 1]) >= 2))
  {
  }

  /** The round of ticks in which `c` stands. */
  lemma {:induction false} StandingTicks(s0: Sim, s: Sim, n: nat, c: nat, w: set<nat>, m: nat, tape: Tape)
    requires Waiting(s0, s, n, c, w, 1, 0) && 1 <= c <= m <= n
    ensures Standing(s0, TickAll(s, FirstIds(m), tape).sim, n, c, w, m)
    decreases m
  {
    hide Waiting, Standing, Fire, FirstIds, TickAll;
    var a := TickAll(s, FirstIds(m - 1), tape).sim;
    if m == c {
      WaitingTicks(s0, s, n, c, w, 1, m - 1, tape);
      WaitingHas(s0, a, n, c, w, m - 1);
      StandingTick(s0, a, n, c, w, tape(m, 0));
    } else {
      StandingTicks(s0, s, n, c, w, m - 1, tape);
      LaterTick(s0, a, n, c, w, m - 1, tape(m, 0));
    }
    TickAllStep(s, m, tape);
  }

  lemma LaterTick(s0: Sim, s: Sim, n: nat, c: nat, w: set<nat>, m: nat, draw: Draw)
    requires Standing(s0, s, n, c, w, m) && c <= m < n
    ensures m + 1 in s.nodes && Standing(s0, Fire(s, m + 1, TickEvent(m + 1, draw), {}).sim, n, c, w, m + 1)
  {
    LaterTicker(s0, s, n, c, w, m);
    hide Standing, Tick;
    QuietTickNode(s.nodes[m + 1], draw);
    StandingMoves(s0, s, n, c, w, m, Tick(s.nodes[m + 1], draw).node);
    assert Route(s.queues, [], {}) == s.queues;
  }

  lemma WaitingHas(s0: Sim, s: Sim, n: nat, c: nat, w: set<nat>, m: nat)
    requires Waiting(s0, s, n, c, w, 1, m)
    ensures c in s.nodes
  {
  }

  // ---------------------------------------------------------------- the others vote

  /** What has gathered in the queue of `c`: its own request, then grants of nodes in `w`, among them those of
      all that were visited. */
  ghost predicate Ballots(q: seq<Message>, c: nat, w: set<nat>, visited: seq<nat>) {
    && |q| >= 1 && q[0] == Request(c, c)
    && (forall i | 1 <= i < |q| ::
       q[i].RequestVoteResp? && q[i].from in w && q[i].from != c && q[i] == Grant(c, q[i].from))
    && (forall id | id in visited && id in w :: Grant(c, id) in q)
  }

  /** Some queues have been drained, that of `c` not yet. */
  ghost predicate Polling(s0: Sim, s: Sim, n: nat, c: nat, w: set<nat>, visited: seq<nat>) {
    && Plain(s, n) && Frame(s0, s, w) && s0.nodes.Keys == s.nodes.Keys
    && c in w && c in s.nodes && Candidate1(s.nodes[c], c)
    && (forall id | id in w && id != c && id !in visited :: id in s.nodes && Willing(s.nodes[id]))
    && (forall id | 1 <= id <= n && id != c && id !in visited :: Queue(s.queues, id) == [Request(c, id)])
    && Ballots(Queue(s.queues, c), c, w, visited)
  }

  lemma PollStarts(s0: Sim, s: Sim, n: nat, c: nat, w: set<nat>)
    requires Standing(s0, s, n, c, w, n)
    ensures Polling(s0, s, n, c, w, [])
  {
  }

  /** A node that is down swallows its queue. */
  lemma {:induction false} DownSwallows(s: Sim, id: nat, msgs: seq<Message>, tape: Tape)
    requires id in s.nodes && s.nodes[id].crashed
    ensures StepAll(s, id, msgs, tape, {}).sim == s
  {
    if msgs != [] {
      var k := |msgs| - 1;
      DownSwallows(s, id, msgs[..k], tape);
      assert Step(s.nodes[id], msgs[k], tape(id, k)) == Outcome(s.nodes[id], []);
      assert s.nodes[id := s.nodes[id]] == s.nodes;
      assert Route(s.queues, [], {}) == s.queues;
    }
  }

  /** A willing node grants what it is asked. */
  lemma WillingGrants(x: NodeState, c: nat, id: nat, n: nat, draw: Draw)
    requires PlainNode(x, id, n) && Willing(x)
    ensures var o := Step(x, Request(c, id), draw); PlainNode(o.node, id, n) && o.out == [Grant(c, id)]
  {
    assert LastIndex(EMPTY_LOG.entries) == 0 && LastTerm(EMPTY_LOG.entries) == 0;
  }

  lemma StepSingle(s: Sim, id: nat, m: Message, tape: Tape)
    requires id in s.nodes
    ensures StepAll(s, id, [m], tape, {}).sim == Fire(s, id, DeliverEvent(m, tape(id, 0)), {}).sim
  {
    assert StepAll(s, id, [m][..0], tape, {}).sim == s;
  }

  /** One more queue drained. */
  lemma PollVisit(s0: Sim, s: Sim, n: nat, c: nat, w: set<nat>, visited: seq<nat>, at: nat, tape: Tape)
    requires Polling(s0, s, n, c, w, visited) && 1 <= at <= n && at != c && at !in visited
    ensures Polling(s0, Visit(s, at, tape, {}).sim, n, c, w, visited + [at])
  {
    if at in w {
      WillingGrants(s.nodes[at], c, at, n, tape(at, 0));
      StepSingle(s, at, Request(c, at), tape);
      hide Step;
      var x := Step(s.nodes[at], Request(c, at), tape(at, 0)).node;
      assert Route(s.queues, [Grant(c, at)], {}) == s.queues[c := Queue(s.queues, c) + [Grant(c, at)]] by {
        RouteSingle(s.queues, Grant(c, at));
      }
      var s' := Visit(s, at, tape, {}).sim;
      assert s' == Sim(s.nodes[at := x], s.queues[c := Queue(s.queues, c) + [Grant(c, at)]][at := []]);
      PollGrant(s0, s, n, c, w, visited, at, x);
    } else {
      DownSwallows(s, at, Queue(s.queues, at), tape);
      PollDown(s0, s, n, c, w, visited, at);
    }
  }

  lemma RouteSingle(qs: Queues, m: Message)
    ensures Route(qs, [m], {}) == qs[m.to := Queue(qs, m.to) + [m]]
  {
    assert Route(qs, [m][..0], {}) == qs;
  }

  lemma PollDown(s0: Sim, s: Sim, n: nat, c: nat, w: set<nat>, visited: seq<nat>, at: nat)
    requires Polling(s0, s, n, c, w, visited) && at !in w && at != c
    ensures Polling(s0, Sim(s.nodes, s.queues[at := []]), n, c, w, visited + [at])
  {
  }

  lemma PollGrant(s0: Sim, s: Sim, n: nat, c: nat, w: set<nat>, visited: seq<nat>, at: nat, x: NodeState)
    requires Polling(s0, s, n, c, w, visited) && at in w && at != c && 1 <= at <= n && PlainNode(x, at, n)
    ensures var qs := s.queues[c := Queue(s.queues, c) + [Grant(c, at)]][at := []];
            Polling(s0, Sim(s.nodes[at := x], qs), n, c, w, visited + [at])
  {
    var q := Queue(s.queues, c);
    var q' := q + [Grant(c, at)];
    var s' := Sim(s.nodes[at := x], s.queues[c := q'][at := []]);
    assert s'.nodes.Keys == s.nodes.Keys;
    assert Plain(s', n) && Frame(s0, s', w);
    assert Ballots(q', c, w, visited + [at]) by { BallotsGrow(q, c, w, visited, at); }
  }

  lemma BallotsGrow(q: seq<Message>, c: nat, w: set<nat>, visited: seq<nat>, at: nat)
    requires Ballots(q, c, w, visited) && at in w && at != c
    ensures Ballots(q + [Grant(c, at)], c, w, visited + [at])
  {
  }

  /** All queues but that of `c`. */
  lemma {:induction false} PollAll(s0: Sim, s: Sim, n: nat, c: nat, w: set<nat>, ps: seq<nat>, tape: Tape)
    requires Polling(s0, s, n, c, w, []) && Distinct(ps) && c !in ps && forall id | id in ps :: 1 <= id <= n
    ensures Polling(s0, DeliverAll(s, ps, tape, {}).sim, n, c, w, ps)
  {
    hide Polling, Visit;
    if ps != [] {
      var init, at := ps[..|ps| - 1], ps[|ps| - 1];
      forall id | id in init ensures 1 <= id <= n { assert id in ps; }
      PollAll(s0, s, n, c, w, init, tape);
      assert ps == init + [at] && at !in init && at in ps;
      PollVisit(s0, DeliverAll(s, init, tape, {}).sim, n, c, w, init, at, tape);
    }
  }

  // ---------------------------------------------------------------- the tally

  function Senders(ms: seq<Message>): set<nat> {
    set m | m in ms && m.RequestVoteResp? :: m.from
  }

  /** `c` has counted the grants of `seen`: it leads, or these are not enough. */
  ghost predicate Counting(x: NodeState, c: nat, n: nat, seen: set<nat>) {
    && PlainNode(x, c, n) && !x.crashed && x.currentTerm == 1
    && ((x.role == Leader && x.heartbeatElapsed == 0)
        || (x.role == Candidate && x.votesGranted == {c} + seen && (seen == {} || !Wins(c, FirstIds(n), {c} + seen))))
  }

  lemma CountRequest(x: NodeState, c: nat, n: nat, seen: set<nat>, draw: Draw)
    requires Counting(x, c, n, seen)
    ensures Counting(Step(x, Request(c, c), draw).node, c, n, seen)
  {
    hide Wins, UpToDate;
  }

  lemma CountGrant(x: NodeState, c: nat, n: nat, seen: set<nat>, id: nat, draw: Draw)
    requires Counting(x, c, n, seen)
    ensures Counting(Step(x, Grant(c, id), draw).node, c, n, seen + {id})
  {
    hide Wins, Broadcast, FreshIndexes;
    assert {c} + seen + {id} == {c} + (seen + {id});
  }

  lemma CountOne(x: NodeState, c: nat, n: nat, q: seq<Message>, m: Message, draw: Draw)
    requires Counting(x, c, n, Senders(q)) && (m == Request(c, c) || (m.RequestVoteResp? && m == Grant(c, m.from)))
    ensures Counting(Step(x, m, draw).node, c, n, Senders(q + [m]))
  {
    hide Counting, Step;
    if m == Request(c, c) {
      CountRequest(x, c, n, Senders(q), draw);
      assert Senders(q + [m]) == Senders(q);
    } else {
      CountGrant(x, c, n, Senders(q), m.from, draw);
      assert Senders(q + [m]) == Senders(q) + {m.from};
    }
  }

  /** Stepping through a queue leaves the other nodes alone. */
  lemma {:induction false} StepsOnlyOne(s: Sim, id: nat, q: seq<Message>, tape: Tape)
    requires id in s.nodes
    ensures var r := StepAll(s, id, q, tape, {}).sim; r.nodes == s.nodes[id := r.nodes[id]]
  {
    hide React, Route;
    if q == [] {
      assert s.nodes[id := s.nodes[id]] == s.nodes;
    } else {
      var k := |q| - 1;
      StepsOnlyOne(s, id, q[..k], tape);
      var r := StepAll(s, id, q[..k], tape, {}).sim;
      var x := React(r.nodes[id], DeliverEvent(q[k], tape(id, k))).node;
      assert r.nodes[id := x] == s.nodes[id := x];
    }
  }

  lemma {:induction false} Tally(s: Sim, c: nat, n: nat, q: seq<Message>, tape: Tape)
    requires c in s.nodes && Counting(s.nodes[c], c, n, {})
    requires forall m | m in q :: m == Request(c, c) || (m.RequestVoteResp? && m == Grant(c, m.from))
    ensures Counting(StepAll(s, c, q, tape, {}).sim.nodes[c], c, n, Senders(q))
  {
    if q == [] {
      assert Senders(q) == {};
    } else {
      hide Counting, Step, Senders, Route;
      var k := |q| - 1;
      Tally(s, c, n, q[..k], tape);
      assert q == q[..k] + [q[k]] && q[k] in q;
      CountOne(StepAll(s, c, q[..k], tape, {}).sim.nodes[c], c, n, q[..k], q[k], tape(c, k));
    }
  }

  lemma SetWins(c: nat, n: nat, w: set<nat>)
    requires c in w && (forall id | id in w :: 1 <= id <= n) && |w| >= (n + 1) / 2
    ensures Wins(c, FirstIds(n), w)
  {
    FirstIdsAt(n);
    CountIsCardinality(FirstIds(n), w);
    forall id | id in w ensures id in FirstIds(n) { assert FirstIds(n)[id - 1] == id; }
    assert w * Elements(FirstIds(n)) == w;
  }

  /** The state a won election leaves: `c` leads term 1, its queue is empty, and whoever was not in `w` is as
      before. */
  ghost predicate Won(s0: Sim, s: Sim, n: nat, c: nat, w: set<nat>) {
    && Plain(s, n) && Frame(s0, s, w) && s0.nodes.Keys == s.nodes.Keys && Queue(s.queues, c) == []
    && c in s.nodes && s.nodes[c].role == Leader && s.nodes[c].currentTerm == 1 && !s.nodes[c].crashed
    && s.nodes[c].heartbeatElapsed == 0
  }

  lemma PollEnds(s0: Sim, s: Sim, n: nat, c: nat, w: set<nat>, ps: seq<nat>, tape: Tape)
    requires Polling(s0, s, n, c, w, ps) && (forall id | id in w && id != c :: id in ps)
    requires |w| >= 2 && |w| >= (n + 1) / 2 && forall id | id in w :: 1 <= id <= n
    ensures Won(s0, Visit(s, c, tape, {}).sim, n, c, w)
  {
    var q := Queue(s.queues, c);
    PollFacts(s0, s, n, c, w, ps);
    hide Polling, StepAll, Wins, Counting;
    Tally(s, c, n, q, tape);
    StepsOnlyOne(s, c, q, tape);
    BallotsOfAll(q, c, w, ps);
    SetWins(c, n, w);
    var r := StepAll(s, c, q, tape, {}).sim;
    CountedOut(r.nodes[c], c, n, Senders(q));
    WonIntro(s0, s, r, n, c, w, ps);
  }

  lemma PollFacts(s0: Sim, s: Sim, n: nat, c: nat, w: set<nat>, ps: seq<nat>)
    requires Polling(s0, s, n, c, w, ps)
    ensures var q := Queue(s.queues, c);
            && c in w && c in s.nodes && Counting(s.nodes[c], c, n, {}) && Ballots(q, c, w, ps) && q != []
            && forall m | m in q :: m == Request(c, c) || (m.RequestVoteResp? && m == Grant(c, m.from))
  {
    assert {c} + {} == {c};
  }

  lemma CountedOut(x: NodeState, c: nat, n: nat, seen: set<nat>)
    requires Counting(x, c, n, seen) && seen != {} && Wins(c, FirstIds(n), {c} + seen)
    ensures PlainNode(x, c, n) && !x.crashed && x.currentTerm == 1 && x.role == Leader && x.heartbeatElapsed == 0
  {
  }

  lemma WonIntro(s0: Sim, s: Sim, r: Sim, n: nat, c: nat, w: set<nat>, ps: seq<nat>)
    requires Polling(s0, s, n, c, w, ps) && c in r.nodes && r.nodes == s.nodes[c := r.nodes[c]]
    requires var x := r.nodes[c];
             PlainNode(x, c, n) && !x.crashed && x.currentTerm == 1 && x.role == Leader && x.heartbeatElapsed == 0
    ensures Won(s0, Sim(r.nodes, r.queues[c := []]), n, c, w)
  {
    assert r.nodes.Keys == s.nodes.Keys;
  }

  lemma BallotsOfAll(q: seq<Message>, c: nat, w: set<nat>, ps: seq<nat>)
    requires Ballots(q, c, w, ps) && c in w && |w| >= 2 && (forall id | id in w && id != c :: id in ps)
    ensures {c} + Senders(q) == w && Senders(q) != {}
  {
    forall id | id in w && id != c ensures id in Senders(q) { assert Grant(c, id) in q; }
    assert w - {c} != {} by { assert |w - {c}| == |w| - 1; }
  }

  // ---------------------------------------------------------------- a whole election

  const TAPE: Tape := (i, j) => 10

  /** The queues of the others first, that of `c` last. */
  function LastOf(n: nat, c: nat): seq<nat> {
    Without(FirstIds(n), c) + [c]
  }

  lemma SnocElements(ps: seq<nat>, c: nat)
    requires Distinct(ps) && c !in ps
    ensures Distinct(ps + [c]) && Elements(ps + [c]) == Elements(ps) + {c}
  {
  }

  lemma LastOfOrder(n: nat, c: nat)
    requires 1 <= c <= n
    ensures var ps := Without(FirstIds(n), c);
            && Distinct(ps) && c !in ps && (forall id: nat :: id in ps <==> 1 <= id <= n && id != c)
            && Genuine(Drain(LastOf(n, c), TAPE, {}), n)
  {
    hide Without, FirstIds, Distinct;
    var all := Config(FirstIds(n));
    var ps := Without(all.peers, c);
    DistinctIds(n);
    IsMember(n, c);
    OtherPeersWire(all, c);
    SnocElements(ps, c);
    forall id: nat ensures id in ps <==> 1 <= id <= n && id != c {
      IsMember(n, id);
      assert id in Elements(ps) + {c} <==> id in Elements(all.peers);
    }
  }

  lemma DistinctIds(n: nat)
    ensures Distinct(FirstIds(n))
  {
    FirstIdsAt(n);
  }

  lemma DrainLast(s0: Sim, s: Sim, n: nat, c: nat, w: set<nat>)
    requires Standing(s0, s, n, c, w, n) && 1 <= c <= n
    requires |w| >= 2 && |w| >= (n + 1) / 2 && forall id | id in w :: 1 <= id <= n
    ensures Won(s0, DeliverAll(s, LastOf(n, c), TAPE, {}).sim, n, c, w)
  {
    hide Standing, Polling, Won, Visit, Distinct, Genuine, FirstIds, Without;
    LastOfOrder(n, c);
    var ps := Without(FirstIds(n), c);
    PollStarts(s0, s, n, c, w);
    PollAll(s0, s, n, c, w, ps, TAPE);
    assert LastOf(n, c)[..|ps|] == ps;
    PollEnds(s0, DeliverAll(s, ps, TAPE, {}).sim, n, c, w, ps, TAPE);
  }

  /** Ten rounds of ticks and a delivery elect `c` in term 1, with the votes of `w`. */
  lemma Elect(s: Sim, n: nat, c: nat, w: set<nat>) returns (cs: seq<Command>)
    requires Waiting(s, s, n, c, w, 10, 0) && 1 <= c <= n
    requires |w| >= 2 && |w| >= (n + 1) / 2 && forall id | id in w :: 1 <= id <= n
    ensures AllGenuine(cs, n) && Won(s, Drive(s, cs).sim, n, c, w)
  {
    hide Waiting, Standing, Won, AllGenuine, TickAll, DeliverAll, FirstIds, Without, LastOf;
    var a, t, d := Rounds(n, TAPE, 9), TickEach(FirstIds(n), TAPE), Drain(LastOf(n, c), TAPE, {});
    WaitingRounds(s, s, n, c, w, 10, TAPE);
    var s1 := Drive(s, a).sim;
    StandingTicks(s, s1, n, c, w, n, TAPE);
    var s2 := TickAll(s1, FirstIds(n), TAPE).sim;
    DrainLast(s, s2, n, c, w);
    DriveOne(s1, t);
    DriveOne(s2, d);
    DriveJoin(s, a, [t]);
    DriveJoin(s, a + [t], [d]);
    cs := a + [t] + [d];
    LastOfOrder(n, c);
    OneGenuine(t, n);
    OneGenuine(d, n);
    GenuineJoin(a, [t], n);
    GenuineJoin(a + [t], [d], n);
  }

  // ---------------------------------------------------------------- taking nodes down and up

  lemma PlainPut(s: Sim, n: nat, id: nat, x: NodeState, qs: Queues)
    requires Plain(s, n) && 1 <= id <= n && PlainNode(x, id, n)
    ensures Plain(Sim(s.nodes[id := x], qs), n) && s.nodes[id := x].Keys == s.nodes.Keys
  {
    hide PlainNode;
  }

  lemma TakeDownOne(s: Sim, n: nat, id: nat)
    requires Plain(s, n) && 1 <= id <= n
    ensures Perform(s, TakeDown(id)).sim == Sim(s.nodes[id := Crash(s.nodes[id])], s.queues)
    ensures Plain(Sim(s.nodes[id := Crash(s.nodes[id])], s.queues), n)
  {
    assert Route(s.queues, [], {}) == s.queues;
    PlainPut(s, n, id, Crash(s.nodes[id]), s.queues);
  }

  /** The node after a restart with the given draw. */
  function Up(x: NodeState, draw: Draw): NodeState {
    Restart(x, draw).node
  }

  lemma UpIs(x: NodeState, draw: Draw, id: nat, n: nat)
    requires PlainNode(x, id, n) && x.crashed && x.currentTerm == 0 && x.votedFor == 0
    ensures Representable(x) && PlainNode(Up(x, draw), id, n)
    ensures var y := Up(x, draw); Willing(y) && y.currentTerm == 0 && Left(y) == 10 + draw
  {
    hide Serialize, Deserialize;
    assert Durable(x).entries == [];
    RestartPreserves(x, draw);
  }

  /** Nodes `lo` to `hi` are down and never left term 0. */
  ghost predicate Unborn(s: Sim, lo: nat, hi: nat) {
    forall id | lo <= id <= hi :: id in s.nodes && UnbornNode(s.nodes[id])
  }

  ghost predicate UnbornNode(x: NodeState) {
    x.crashed && x.currentTerm == 0 && x.votedFor == 0
  }

  lemma PerformUp(s: Sim, id: nat, draw: Draw)
    requires id in s.nodes && Representable(s.nodes[id])
    ensures Perform(s, BringUp(id, draw)).sim == Sim(s.nodes[id := Up(s.nodes[id], draw)], s.queues)
  {
    hide Restart, Representable;
    assert Route(s.queues, [], {}) == s.queues;
  }

  lemma BringUpOne(s: Sim, n: nat, id: nat, draw: Draw)
    requires Plain(s, n) && 1 <= id <= n && UnbornNode(s.nodes[id])
    ensures Perform(s, BringUp(id, draw)).sim == Sim(s.nodes[id := Up(s.nodes[id], draw)], s.queues)
    ensures Plain(Sim(s.nodes[id := Up(s.nodes[id], draw)], s.queues), n)
  {
    UpIs(s.nodes[id], draw, id, n);
    hide Perform, Representable, Up, Willing;
    PerformUp(s, id, draw);
    PlainPut(s, n, id, Up(s.nodes[id], draw), s.queues);
  }

  function Downs(lo: nat, hi: nat): seq<Command>
    requires lo <= hi + 1
  {
    if hi < lo || hi == 0 then [] else Downs(lo, hi - 1) + [TakeDown(hi)]
  }

  function Ups(lo: nat, hi: nat, draw: Draw): seq<Command>
    requires lo <= hi + 1
  {
    if hi < lo || hi == 0 then [] else Ups(lo, hi - 1, draw) + [BringUp(hi, draw)]
  }

  /** Nodes `lo` to `hi` are down, the others and the queues as they were. */
  ghost predicate Lowered(s: Sim, r: Sim, n: nat, lo: nat, hi: nat) {
    && Plain(r, n) && r.queues == s.queues && r.nodes.Keys == s.nodes.Keys
    && (forall id | id in s.nodes :: r.nodes[id] == if lo <= id <= hi then Crash(s.nodes[id]) else s.nodes[id])
  }

  /** Nodes `lo` to `hi` are up with the same draw, the others and the queues as they were. */
  ghost predicate Raised(s: Sim, r: Sim, n: nat, lo: nat, hi: nat, draw: Draw) {
    && Plain(r, n) && r.queues == s.queues && r.nodes.Keys == s.nodes.Keys
    && (forall id | id in s.nodes :: r.nodes[id] == if lo <= id <= hi then Up(s.nodes[id], draw) else s.nodes[id])
  }

  lemma LowerOne(s: Sim, r: Sim, n: nat, lo: nat, hi: nat)
    requires 1 <= lo <= hi <= n && Lowered(s, r, n, lo, hi - 1)
    ensures Lowered(s, Perform(r, TakeDown(hi)).sim, n, lo, hi)
  {
    assert hi in r.nodes;
    hide Plain, Perform;
    TakeDownOne(r, n, hi);
    hide Crash;
  }

  lemma RaiseOne(s: Sim, r: Sim, n: nat, lo: nat, hi: nat, draw: Draw)
    requires 1 <= lo <= hi <= n && hi in s.nodes && Raised(s, r, n, lo, hi - 1, draw)
    requires UnbornNode(s.nodes[hi])
    ensures Raised(s, Perform(r, BringUp(hi, draw)).sim, n, lo, hi, draw)
  {
    hide Up, Perform, Plain;
    assert r.nodes[hi] == s.nodes[hi];
    BringUpOne(r, n, hi, draw);
  }

  lemma {:induction false} TakeDowns(s: Sim, n: nat, lo: nat, hi: nat)
    requires Plain(s, n) && 1 <= lo <= hi + 1 && hi <= n
    ensures AllGenuine(Downs(lo, hi), n) && Lowered(s, Drive(s, Downs(lo, hi)).sim, n, lo, hi)
  {
    if lo <= hi {
      hide Plain, Lowered, AllGenuine, Perform;
      TakeDowns(s, n, lo, hi - 1);
      var r := Drive(s, Downs(lo, hi - 1)).sim;
      LowerOne(s, r, n, lo, hi);
      DriveOne(r, TakeDown(hi));
      DriveJoin(s, Downs(lo, hi - 1), [TakeDown(hi)]);
      OneGenuine(TakeDown(hi), n);
      GenuineJoin(Downs(lo, hi - 1), [TakeDown(hi)], n);
    }
  }

  lemma UnbornLess(s: Sim, lo: nat, hi: nat)
    requires lo <= hi && 1 <= hi && Unborn(s, lo, hi)
    ensures Unborn(s, lo, hi - 1) && hi in s.nodes && UnbornNode(s.nodes[hi])
  {
  }

  lemma {:induction false} BringUps(s: Sim, n: nat, lo: nat, hi: nat, draw: Draw)
    requires Plain(s, n) && 1 <= lo <= hi + 1 && hi <= n
    requires Unborn(s, lo, hi)
    ensures AllGenuine(Ups(lo, hi, draw), n) && Raised(s, Drive(s, Ups(lo, hi, draw)).sim, n, lo, hi, draw)
  {
    if lo <= hi {
      UnbornLess(s, lo, hi);
      hide Plain, Raised, AllGenuine, Perform, Unborn, UnbornNode;
      BringUps(s, n, lo, hi - 1, draw);
      var r := Drive(s, Ups(lo, hi - 1, draw)).sim;
      RaiseOne(s, r, n, lo, hi, draw);
      DriveOne(r, BringUp(hi, draw));
      DriveJoin(s, Ups(lo, hi - 1, draw), [BringUp(hi, draw)]);
      OneGenuine(BringUp(hi, draw), n);
      GenuineJoin(Ups(lo, hi - 1, draw), [BringUp(hi, draw)], n);
    }
  }

  // ---------------------------------------------------------------- forgetting

  /** `c` leads term 1 alone: everybody else is down, as in `s0`. */
  ghost predicate Alone(s0: Sim, s: Sim, n: nat, c: nat, beats: nat) {
    && Plain(s, n) && Frame(s0, s, {c}) && s0.nodes.Keys == s.nodes.Keys && c in s.nodes
    && s.nodes[c].role == Leader && s.nodes[c].currentTerm == 1 && !s.nodes[c].crashed
    && s.nodes[c].heartbeatElapsed == beats
  }

  function OwnBeat(c: nat): Message {
    AppendEntries(c, c, 1, 0, 0, [], 0)
  }

  lemma BeatNode(x: NodeState, c: nat, n: nat, draw: Draw)
    requires PlainNode(x, c, n) && 1 <= c <= n && x.role == Leader && x.currentTerm == 1 && !x.crashed
             && x.heartbeatElapsed <= 1
    ensures var o := Tick(x, draw);
            && PlainNode(o.node, c, n) && o.node.role == Leader && o.node.currentTerm == 1 && !o.node.crashed
            && o.node.heartbeatElapsed == 1 - x.heartbeatElapsed
            && (x.heartbeatElapsed == 0 ==> o.out == [])
            && (x.heartbeatElapsed == 1 ==> Bound(o.out, c, {}) == [OwnBeat(c)])
  {
    FirstIdsAt(n);
    var o := Tick(x, draw);
    if x.heartbeatElapsed == 1 {
      BoundEach(o.out, c);
      assert o.out[c - 1] == AppendFor(o.node, c);
      assert AppendFor(o.node, c) == OwnBeat(c) by {
        assert LastIndex(EMPTY_LOG.entries) == 0;
        if Get(o.node.nextIndex, c) == 0 { assert Slice(EMPTY_LOG.entries, 0, 1) == []; }
      }
    }
  }

  lemma AloneMoves(s0: Sim, s: Sim, n: nat, c: nat, beats: nat, x: NodeState, qs: Queues)
    requires Alone(s0, s, n, c, beats) && 1 <= c <= n
    requires PlainNode(x, c, n) && x.role == Leader && x.currentTerm == 1 && !x.crashed
    ensures Alone(s0, Sim(s.nodes[c := x], qs), n, c, x.heartbeatElapsed)
  {
    var s' := Sim(s.nodes[c := x], qs);
    assert s'.nodes.Keys == s.nodes.Keys;
    assert Plain(s', n) && Frame(s0, s', {c});
  }

  /** Ticks of nodes that are down change nothing. */
  lemma DownTick(s0: Sim, s: Sim, n: nat, c: nat, beats: nat, id: nat, draw: Draw)
    requires Alone(s0, s, n, c, beats) && 1 <= id <= n && id != c
    ensures id in s.nodes && Fire(s, id, TickEvent(id, draw), {}).sim == s
  {
    assert Tick(s.nodes[id], draw) == Outcome(s.nodes[id], []);
    assert Route(s.queues, [], {}) == s.queues;
    assert s.nodes[id := s.nodes[id]] == s.nodes;
  }

  /** A round of ticks is a tick of `c`. */
  lemma {:induction false} AloneTicks(s0: Sim, s: Sim, n: nat, c: nat, beats: nat, m: nat, tape: Tape)
    requires Alone(s0, s, n, c, beats) && 1 <= c <= n && m <= n && beats <= 1
    ensures var r := TickAll(s, FirstIds(m), tape).sim;
            if m < c then r == s
            else c in s.nodes && r == Fire(s, c, TickEvent(c, tape(c, 0)), {}).sim && Alone(s0, r, n, c, 1 - beats)
  {
    if m > 0 {
      hide Alone, Fire;
      AloneTicks(s0, s, n, c, beats, m - 1, tape);
      var a := TickAll(s, FirstIds(m - 1), tape).sim;
      if m == c {
        AloneBeat(s0, s, n, c, beats, tape(c, 0));
      } else {
        DownTick(s0, a, n, c, if m < c then beats else 1 - beats, m, tape(m, 0));
      }
      TickAllStep(s, m, tape);
    }
  }

  lemma AloneBeat(s0: Sim, s: Sim, n: nat, c: nat, beats: nat, draw: Draw)
    requires Alone(s0, s, n, c, beats) && 1 <= c <= n && beats <= 1
    ensures c in s.nodes && Alone(s0, Fire(s, c, TickEvent(c, draw), {}).sim, n, c, 1 - beats)
  {
    BeatNode(s.nodes[c], c, n, draw);
    hide Tick;
    var o := Tick(s.nodes[c], draw);
    AloneMoves(s0, s, n, c, beats, o.node, Route(s.queues, o.out, {}));
  }

  /** Two rounds: `c` sends itself a heartbeat. */
  lemma TwoRounds(s0: Sim, s: Sim, n: nat, c: nat)
    requires Alone(s0, s, n, c, 0) && 1 <= c <= n && Queue(s.queues, c) == []
    ensures var r := Drive(s, Rounds(n, TAPE, 2)).sim;
            && AllGenuine(Rounds(n, TAPE, 2), n) && Alone(s0, r, n, c, 0) && Queue(r.queues, c) == [OwnBeat(c)]
  {
    hide Alone, TickAll, FirstIds, AllGenuine, Queue;
    var t := TickEach(FirstIds(n), TAPE);
    var s1 := TickAll(s, FirstIds(n), TAPE).sim;
    AloneRound(s0, s, n, c, 0);
    AloneRound(s0, s1, n, c, 1);
    assert Rounds(n, TAPE, 2) == [t] + [t] by { assert Rounds(n, TAPE, 1) == [t]; }
    DriveOne(s, t);
    DriveOne(s1, t);
    DriveJoin(s, [t], [t]);
    OneGenuine(t, n);
    GenuineJoin([t], [t], n);
  }

  lemma AloneRound(s0: Sim, s: Sim, n: nat, c: nat, beats: nat)
    requires Alone(s0, s, n, c, beats) && 1 <= c <= n && beats <= 1 && Queue(s.queues, c) == []
    ensures var r := TickAll(s, FirstIds(n), TAPE).sim;
            Alone(s0, r, n, c, 1 - beats) && Queue(r.queues, c) == if beats == 1 then [OwnBeat(c)] else []
  {
    AloneTicks(s0, s, n, c, beats, n, TAPE);
    BeatNode(s.nodes[c], c, n, 10);
    hide Tick, TickAll, FirstIds, Alone;
    RouteAppends(s.queues, Tick(s.nodes[c], 10).out, {}, c);
  }

  /** The queues of the visited nodes are empty, nothing else has changed. */
  ghost predicate Swept(s: Sim, r: Sim, visited: seq<nat>) {
    r.nodes == s.nodes && forall id :: Queue(r.queues, id) == if id in visited then [] else Queue(s.queues, id)
  }

  lemma SweepDown(s: Sim, r: Sim, visited: seq<nat>, at: nat, tape: Tape)
    requires Swept(s, r, visited) && at in s.nodes && s.nodes[at].crashed
    ensures Swept(s, Visit(r, at, tape, {}).sim, visited + [at])
  {
    DownSwallows(r, at, Queue(r.queues, at), tape);
  }

  lemma {:induction false} SweepAll(s: Sim, ps: seq<nat>, tape: Tape)
    requires forall id | id in ps :: id in s.nodes && s.nodes[id].crashed
    ensures Swept(s, DeliverAll(s, ps, tape, {}).sim, ps)
  {
    if ps != [] {
      var init, at := ps[..|ps| - 1], ps[|ps| - 1];
      forall id | id in init ensures id in s.nodes && s.nodes[id].crashed { assert id in ps; }
      SweepAll(s, init, tape);
      assert ps == init + [at] && at in ps;
      hide Swept, Visit;
      SweepDown(s, DeliverAll(s, init, tape, {}).sim, init, at, tape);
    }
  }

  /** A leader that hears its own heartbeat follows itself, and its vote is gone. */
  lemma FollowsItself(x: NodeState, c: nat, n: nat)
    requires PlainNode(x, c, n) && x.role == Leader && x.currentTerm == 1 && !x.crashed
    ensures var o := Step(x, OwnBeat(c), 10);
            && PlainNode(o.node, c, n) && Willing(o.node) && Left(o.node) == 20
            && o.out == [AppendEntriesResp(c, c, 1, true, 0)]
  {
    assert Append(EMPTY_LOG, []) == LogOutcome(EMPTY_LOG, None);
    assert LastIndex(EMPTY_LOG.entries) == 0;
  }

  /** Nobody is up but `c`, which is free to vote in term 1 again, and nothing is queued. */
  ghost predicate Forgot(s0: Sim, s: Sim, n: nat, c: nat) {
    && Plain(s, n) && Frame(s0, s, {c}) && s0.nodes.Keys == s.nodes.Keys && QuietQueues(s, n)
    && c in s.nodes && Willing(s.nodes[c]) && Left(s.nodes[c]) == 20
  }

  lemma SweepOwn(s: Sim, r: Sim, n: nat, c: nat, ps: seq<nat>)
    requires Swept(s, r, ps) && c !in ps && c in s.nodes && Queue(s.queues, c) == [OwnBeat(c)]
    requires PlainNode(s.nodes[c], c, n) && s.nodes[c].role == Leader && s.nodes[c].currentTerm == 1
             && !s.nodes[c].crashed
    ensures var v := Visit(r, c, TAPE, {}).sim;
            && c in v.nodes && v.nodes == s.nodes[c := v.nodes[c]]
            && PlainNode(v.nodes[c], c, n) && Willing(v.nodes[c]) && Left(v.nodes[c]) == 20
            && forall id | id == c || id in ps :: Queue(v.queues, id) == []
  {
    FollowsItself(s.nodes[c], c, n);
    StepSingle(r, c, OwnBeat(c), TAPE);
    hide Step, PlainNode, Willing, Left;
    RouteSingle(r.queues, AppendEntriesResp(c, c, 1, true, 0));
  }

  lemma DrainForgets(s0: Sim, s: Sim, n: nat, c: nat)
    requires Alone(s0, s, n, c, 0) && 1 <= c <= n && Queue(s.queues, c) == [OwnBeat(c)]
    ensures Forgot(s0, DeliverAll(s, LastOf(n, c), TAPE, {}).sim, n, c)
  {
    var ps := Without(FirstIds(n), c);
    LastOfOrder(n, c);
    forall id | id in ps ensures id in s.nodes && s.nodes[id].crashed {}
    SweepAll(s, ps, TAPE);
    var r := DeliverAll(s, ps, TAPE, {}).sim;
    assert LastOf(n, c)[..|ps|] == ps;
    hide Visit, Swept, Willing, Genuine, Without, FirstIds, Distinct;
    SweepOwn(s, r, n, c, ps);
    var v := Visit(r, c, TAPE, {}).sim;
    PlainPut(s, n, c, v.nodes[c], v.queues);
    assert Frame(s0, v, {c});
  }

  /** A leader that is alone forgets its vote after two rounds of ticks and a delivery. */
  lemma Forget(s0: Sim, s: Sim, n: nat, c: nat) returns (cs: seq<Command>)
    requires Alone(s0, s, n, c, 0) && 1 <= c <= n && Queue(s.queues, c) == []
    ensures AllGenuine(cs, n) && Forgot(s0, Drive(s, cs).sim, n, c)
  {
    hide Alone, Forgot, AllGenuine, TickAll, DeliverAll, FirstIds, LastOf, Queue, Without;
    var a, d := Rounds(n, TAPE, 2), Drain(LastOf(n, c), TAPE, {});
    TwoRounds(s0, s, n, c);
    var s1 := Drive(s, a).sim;
    DrainForgets(s0, s1, n, c);
    DriveOne(s1, d);
    DriveJoin(s, a, [d]);
    cs := a + [d];
    LastOfOrder(n, c);
    OneGenuine(d, n);
    GenuineJoin(a, [d], n);
  }

  // ---------------------------------------------------------------- three nodes or more

  function Interval(lo: nat, hi: nat): (r: set<nat>)
    requires 1 <= lo <= hi + 1
    ensures |r| == hi + 1 - lo && forall x: nat :: x in r <==> lo <= x <= hi
    decreases hi
  {
    if hi < lo then {} else Interval(lo, hi - 1) + {hi}
  }

  lemma HasMember(q: seq<Message>)
    requires q != []
    ensures exists m :: m in q
  {
    assert q[0] in q;
  }

  lemma NoMember(q: seq<Message>)
    requires forall m :: m !in q
    ensures q == []
  {
    if q != [] { HasMember(q); }
  }

  lemma NothingQueued(s: Sim, id: nat, m: Message)
    requires Represents(s, Net(s.nodes, {}))
    ensures m !in Queue(s.queues, id)
  {
  }

  lemma BuiltIsPlain(s: Sim, n: nat)
    requires Built(s, n)
    ensures Plain(s, n) && QuietQueues(s, n)
    ensures forall id | id in s.nodes :: s.nodes[id].currentTerm == 0 && s.nodes[id].votedFor == 0
  {
    forall id | id in s.nodes
      ensures PlainNode(s.nodes[id], id, n) && s.nodes[id].currentTerm == 0 && s.nodes[id].votedFor == 0
    {
      var draw: Draw :| s.nodes[id] == InitNode(id, s.nodes[id].peers, draw);
    }
    forall id: nat | 1 <= id <= n ensures Queue(s.queues, id) == [] {
      forall m ensures m !in Queue(s.queues, id) { NothingQueued(s, id, m); }
      NoMember(Queue(s.queues, id));
    }
  }

  /** Everybody is taken down first, so no initial timer matters. */
  lemma AllDown(s: Sim, n: nat) returns (cs: seq<Command>)
    requires Built(s, n)
    ensures AllGenuine(cs, n)
    ensures var r := Drive(s, cs).sim; Plain(r, n) && QuietQueues(r, n) && Unborn(r, 1, n)
  {
    BuiltIsPlain(s, n);
    cs := Downs(1, n);
    TakeDowns(s, n, 1, n);
    hide AllGenuine, Drive, Downs, Built, PlainNode;
  }

  lemma UnbornStays(s: Sim, r: Sim, n: nat, lo: nat, hi: nat, a: nat, b: nat, draw: Draw)
    requires Raised(s, r, n, a, b, draw) && Unborn(s, lo, hi) && (b < lo || hi < a)
    ensures Unborn(r, lo, hi)
  {
    hide Plain, UnbornNode, Up;
  }

  /** Nodes `lo` to `hi` are up with long timers and `c` with a short one, the rest is as it was. */
  ghost predicate Roused(s: Sim, r: Sim, n: nat, lo: nat, hi: nat, c: nat) {
    && Plain(r, n) && r.queues == s.queues && r.nodes.Keys == s.nodes.Keys
    && forall id | id in s.nodes :: r.nodes[id] ==
         if id == c then Up(s.nodes[id], 0) else if lo <= id <= hi then Up(s.nodes[id], 10) else s.nodes[id]
  }

  lemma RousedKeepsUnborn(s: Sim, r: Sim, n: nat, lo: nat, hi: nat, c: nat, a: nat)
    requires Roused(s, r, n, lo, hi, c) && Unborn(s, a, n) && c < a && hi < a
    ensures Unborn(r, a, n)
  {
    hide Plain, UnbornNode, Up;
  }

  /** The nodes of `s` from `lo` to `hi` come up with one draw, then `c` comes up with its timer at ten. */
  lemma RaiseVoters(s: Sim, n: nat, lo: nat, hi: nat, c: nat) returns (cs: seq<Command>)
    requires Plain(s, n) && 1 <= lo <= hi + 1 && hi <= n && 1 <= c <= n && !(lo <= c <= hi)
    requires Unborn(s, lo, hi) && Unborn(s, c, c)
    ensures AllGenuine(cs, n) && Roused(s, Drive(s, cs).sim, n, lo, hi, c)
  {
    var a, b := Ups(lo, hi, 10), Ups(c, c, 0);
    BringUps(s, n, lo, hi, 10);
    var s1 := Drive(s, a).sim;
    UnbornStays(s, s1, n, c, c, lo, hi, 10);
    BringUps(s1, n, c, c, 0);
    DriveJoin(s, a, b);
    GenuineJoin(a, b, n);
    cs := a + b;
    hide AllGenuine, Drive, Ups, Plain, Up, Unborn;
  }

  lemma WaitingIntro(s: Sim, n: nat, c: nat, w: set<nat>)
    requires Plain(s, n) && QuietQueues(s, n) && c in w && 1 <= c <= n && (forall id | id in w :: 1 <= id <= n)
    requires !s.nodes[c].crashed && s.nodes[c].role == Follower && s.nodes[c].currentTerm == 0 && Left(s.nodes[c]) == 10
    requires forall id | id in w && id != c :: Willing(s.nodes[id]) && Left(s.nodes[id]) == 20
    requires forall id | 1 <= id <= n && id !in w :: s.nodes[id].crashed
    ensures Waiting(s, s, n, c, w, 10, 0)
  {
    hide PlainNode, Willing;
  }

  lemma UpsAreWilling(s: Sim, n: nat, lo: nat, hi: nat, draw: Draw)
    requires Plain(s, n) && Unborn(s, lo, hi) && 1 <= lo && hi <= n
    ensures forall id | lo <= id <= hi ::
              var y := Up(s.nodes[id], draw); Willing(y) && y.currentTerm == 0 && Left(y) == 10 + draw
  {
    forall id | lo <= id <= hi
      ensures var y := Up(s.nodes[id], draw); Willing(y) && y.currentTerm == 0 && Left(y) == 10 + draw
    {
      UpIs(s.nodes[id], draw, id, n);
    }
  }

  /** How many votes a node of a self-wired cluster needs, its own included. */
  function Half(n: nat): nat {
    (n + 1) / 2
  }

  /** Nodes 1 to `Half(n)` come up, node 1 with the shortest timer. */
  lemma FirstHalfUp(s: Sim, n: nat) returns (cs: seq<Command>)
    requires Plain(s, n) && QuietQueues(s, n) && Unborn(s, 1, n) && n >= 3
    ensures AllGenuine(cs, n)
    ensures var r := Drive(s, cs).sim;
            Waiting(r, r, n, 1, Interval(1, Half(n)), 10, 0) && Unborn(r, Half(n) + 1, n)
  {
    hide AllGenuine, Drive, Waiting, Roused, CanRouse, Unborn, Plain, QuietQueues;
    var h := Half(n);
    FirstCanRouse(s, n);
    cs := Rouse(s, n, 2, h, 1, Interval(1, h));
    RousedKeepsUnborn(s, Drive(s, cs).sim, n, 2, h, 1, h + 1);
  }

  lemma FirstCanRouse(s: Sim, n: nat)
    requires Plain(s, n) && QuietQueues(s, n) && Unborn(s, 1, n) && n >= 3
    ensures CanRouse(s, n, 2, Half(n), 1, Interval(1, Half(n))) && Unborn(s, Half(n) + 1, n)
  {
    hide Plain, QuietQueues, Willing, Left;
  }

  /** A state in which node 1 leads term 1 and the nodes past `Half(n)` never came up. */
  ghost predicate FirstLed(r: Sim, n: nat) {
    && n >= 1 && Plain(r, n) && Queue(r.queues, 1) == [] && Unborn(r, Half(n) + 1, n)
    && r.nodes[1].role == Leader && r.nodes[1].currentTerm == 1 && !r.nodes[1].crashed
    && r.nodes[1].heartbeatElapsed == 0
  }

  /** Node 1 is elected by nodes 1 to `Half(n)`. */
  lemma FirstElection(s: Sim, n: nat) returns (cs: seq<Command>)
    requires Built(s, n) && n >= 3
    ensures AllGenuine(cs, n) && FirstLed(Drive(s, cs).sim, n)
  {
    hide AllGenuine, Drive, Built, Plain, QuietQueues, Unborn, Waiting, Won;
    var w := Interval(1, Half(n));
    var a := AllDown(s, n);
    var s1 := Drive(s, a).sim;
    var b := FirstHalfUp(s1, n);
    var s2 := Drive(s1, b).sim;
    var e := Elect(s2, n, 1, w);
    var s3 := Drive(s2, e).sim;
    assert FirstLed(s3, n) by { WonKeepsUnborn(s2, s3, n, 1, w, Half(n) + 1); WonLeads(s2, s3, n, 1, w); }
    DriveJoin(s, a, b);
    DriveJoin(s, a + b, e);
    GenuineJoin(a, b, n);
    GenuineJoin(a + b, e, n);
    cs := a + b + e;
  }

  lemma WonLeads(s: Sim, r: Sim, n: nat, c: nat, w: set<nat>)
    requires Won(s, r, n, c, w)
    ensures Plain(r, n) && Queue(r.queues, c) == [] && c in r.nodes
    ensures r.nodes[c].role == Leader && r.nodes[c].currentTerm == 1 && !r.nodes[c].crashed
            && r.nodes[c].heartbeatElapsed == 0
  {
  }

  lemma WonKeepsUnborn(s: Sim, r: Sim, n: nat, c: nat, w: set<nat>, lo: nat)
    requires Won(s, r, n, c, w) && Unborn(s, lo, n) && forall id: nat | lo <= id :: id !in w
    ensures Unborn(r, lo, n)
  {
    hide Plain, UnbornNode;
  }

  /** Bringing up `lo` to `hi` and `c` makes exactly `w` ready to vote. */
  ghost predicate CanRouse(s: Sim, n: nat, lo: nat, hi: nat, c: nat, w: set<nat>) {
    && Plain(s, n) && QuietQueues(s, n) && 1 <= c <= n && 1 <= lo <= hi + 1 && hi <= n && !(lo <= c <= hi)
    && Unborn(s, lo, hi) && Unborn(s, c, c)
    && c in w && (forall id | id in w :: 1 <= id <= n)
    && (forall id | id in w && id != c && !(lo <= id <= hi) :: Willing(s.nodes[id]) && Left(s.nodes[id]) == 20)
    && (forall id | 1 <= id <= n && id !in w :: !(lo <= id <= hi) && s.nodes[id].crashed)
  }

  /** After the voters have come up, the election can start. */
  lemma RaisedIsWaiting(s: Sim, r: Sim, n: nat, lo: nat, hi: nat, c: nat, w: set<nat>)
    requires CanRouse(s, n, lo, hi, c, w) && Roused(s, r, n, lo, hi, c)
    ensures Waiting(r, r, n, c, w, 10, 0)
  {
    RousedNodes(s, r, n, lo, hi, c, w);
    hide Plain, Willing, Left, Unborn, Waiting;
    WaitingIntro(r, n, c, w);
  }

  lemma RousedNodes(s: Sim, r: Sim, n: nat, lo: nat, hi: nat, c: nat, w: set<nat>)
    requires CanRouse(s, n, lo, hi, c, w) && Roused(s, r, n, lo, hi, c)
    ensures c in r.nodes && !r.nodes[c].crashed && r.nodes[c].role == Follower && r.nodes[c].currentTerm == 0
    ensures Left(r.nodes[c]) == 10
    ensures forall id | id in w && id != c :: id in r.nodes && Willing(r.nodes[id]) && Left(r.nodes[id]) == 20
    ensures forall id | 1 <= id <= n && id !in w :: id in r.nodes && r.nodes[id].crashed
  {
    hide CanRouse, Roused, Willing, Left;
    assert 1 <= c <= n && c in w by { RouseRange(s, n, lo, hi, c, w, c); }
    RousedNode(s, r, n, lo, hi, c, w, c);
    forall id | id in w && id != c ensures id in r.nodes && Willing(r.nodes[id]) && Left(r.nodes[id]) == 20 {
      RouseRange(s, n, lo, hi, c, w, id);
      RousedNode(s, r, n, lo, hi, c, w, id);
    }
    forall id | 1 <= id <= n && id !in w ensures id in r.nodes && r.nodes[id].crashed {
      RousedNode(s, r, n, lo, hi, c, w, id);
    }
  }

  lemma RouseRange(s: Sim, n: nat, lo: nat, hi: nat, c: nat, w: set<nat>, id: nat)
    requires CanRouse(s, n, lo, hi, c, w) && (id in w || id == c)
    ensures 1 <= id <= n && c in w
  {
  }

  lemma RousedNode(s: Sim, r: Sim, n: nat, lo: nat, hi: nat, c: nat, w: set<nat>, id: nat)
    requires CanRouse(s, n, lo, hi, c, w) && Roused(s, r, n, lo, hi, c) && 1 <= id <= n
    ensures id in r.nodes
    ensures id == c ==>
              && !r.nodes[c].crashed && r.nodes[c].role == Follower && r.nodes[c].currentTerm == 0
              && Left(r.nodes[c]) == 10
    ensures id in w && id != c ==> Willing(r.nodes[id]) && Left(r.nodes[id]) == 20
    ensures id !in w ==> r.nodes[id].crashed
  {
    if id == c {
      UpIs(s.nodes[id], 0, id, n);
    } else if lo <= id <= hi {
      UpIs(s.nodes[id], 10, id, n);
    }
    hide Up, Left, QuietQueues;
  }

  lemma WillingFacts(x: NodeState)
    requires Willing(x)
    ensures !x.crashed && x.role == Follower
  {
  }

  /** They come up. */
  lemma Rouse(s: Sim, n: nat, lo: nat, hi: nat, c: nat, w: set<nat>) returns (cs: seq<Command>)
    requires CanRouse(s, n, lo, hi, c, w)
    ensures AllGenuine(cs, n) && Roused(s, Drive(s, cs).sim, n, lo, hi, c)
    ensures var r := Drive(s, cs).sim; Waiting(r, r, n, c, w, 10, 0)
  {
    cs := RaiseVoters(s, n, lo, hi, c);
    hide CanRouse, Roused, Waiting, Drive;
    RaisedIsWaiting(s, Drive(s, cs).sim, n, lo, hi, c, w);
  }

  /** Its voters go down, and node 1 forgets its vote. */
  lemma FirstForgets(s: Sim, n: nat) returns (cs: seq<Command>)
    requires FirstLed(s, n) && n >= 3
    ensures AllGenuine(cs, n) && HalfWay(Drive(s, cs).sim, n)
  {
    var a := Downs(2, Half(n));
    TakeDowns(s, n, 2, Half(n));
    var s1 := Drive(s, a).sim;
    assert Alone(s1, s1, n, 1, 0) && Unborn(s1, Half(n) + 1, n) by { VotersDown(s, s1, n); }
    hide AllGenuine, Drive, Plain, Alone, Lowered, FirstLed, Downs, Forgot, HalfWay, Unborn;
    var b := Forget(s1, s1, n, 1);
    var r := Drive(s1, b).sim;
    ForgotFacts(s1, r, n);
    DriveJoin(s, a, b);
    GenuineJoin(a, b, n);
    cs := a + b;
  }

  lemma VotersDown(s: Sim, r: Sim, n: nat)
    requires FirstLed(s, n) && n >= 3 && Lowered(s, r, n, 2, Half(n))
    ensures Alone(r, r, n, 1, 0) && Unborn(r, Half(n) + 1, n) && Queue(r.queues, 1) == []
    ensures forall id | 2 <= id <= Half(n) :: id in r.nodes && r.nodes[id].crashed
  {
  }

  lemma ForgotFacts(s: Sim, r: Sim, n: nat)
    requires Forgot(s, r, n, 1) && Unborn(s, Half(n) + 1, n) && n >= 3
    requires forall id | 2 <= id <= Half(n) :: id in s.nodes && s.nodes[id].crashed
    ensures HalfWay(r, n)
  {
  }

  /** Node 1 is free to vote in term 1, its voters are down and the other half never came up. */
  ghost predicate HalfWay(s: Sim, n: nat) {
    && n >= 3 && Plain(s, n) && QuietQueues(s, n) && Unborn(s, Half(n) + 1, n)
    && Willing(s.nodes[1]) && Left(s.nodes[1]) == 20 && forall id | 2 <= id <= Half(n) :: s.nodes[id].crashed
  }

  /** The voters of node `n`. */
  function SecondHalf(n: nat): set<nat> {
    Interval(Half(n) + 1, n) + {1}
  }

  lemma SecondHalfSize(n: nat)
    requires n >= 3
    ensures |SecondHalf(n)| == n - Half(n) + 1 && n in SecondHalf(n)
    ensures forall id: nat :: id in SecondHalf(n) <==> id == 1 || Half(n) < id <= n
  {
  }

  lemma SecondHalfUp(s: Sim, n: nat) returns (cs: seq<Command>)
    requires HalfWay(s, n)
    ensures AllGenuine(cs, n) && var r := Drive(s, cs).sim; Waiting(r, r, n, n, SecondHalf(n), 10, 0)
  {
    assert n >= 3;
    hide AllGenuine, Drive, Waiting, Roused, CanRouse, HalfWay, SecondHalf;
    SecondCanRouse(s, n);
    cs := Rouse(s, n, Half(n) + 1, n - 1, n, SecondHalf(n));
  }

  lemma SecondCanRouse(s: Sim, n: nat)
    requires HalfWay(s, n)
    ensures CanRouse(s, n, Half(n) + 1, n - 1, n, SecondHalf(n))
  {
    SecondHalfSize(n);
    UnbornLess(s, Half(n) + 1, n);
    hide Plain, QuietQueues, Willing, Left, SecondHalf, UnbornNode;
    assert Unborn(s, n, n);
  }

  /** The other half comes up and elects node `n`, with the vote of node 1. */
  lemma SecondElection(s: Sim, n: nat) returns (cs: seq<Command>)
    requires HalfWay(s, n)
    ensures AllGenuine(cs, n)
    ensures var r := Drive(s, cs).sim; n in r.nodes && r.nodes[n].role == Leader && r.nodes[n].currentTerm == 1
  {
    assert n >= 3;
    hide AllGenuine, Drive, Waiting, Won, HalfWay, SecondHalf;
    var a := SecondHalfUp(s, n);
    var r := Drive(s, a).sim;
    SecondHalfSize(n);
    var e := Elect(r, n, n, SecondHalf(n));
    WonLeads(r, Drive(r, e).sim, n, n, SecondHalf(n));
    DriveJoin(s, a, e);
    GenuineJoin(a, e, n);
    cs := a + e;
  }

  // ---------------------------------------------------------------- two nodes

  /** Both nodes are up with `k` ticks left, the first `m` of them having ticked in this round. */
  ghost predicate BothRipe(s: Sim, k: nat, m: nat) {
    && Plain(s, 2) && QuietQueues(s, 2)
    && forall id: nat | 1 <= id <= 2 ::
         && !s.nodes[id].crashed && s.nodes[id].role == Follower && s.nodes[id].currentTerm == 0
         && Left(s.nodes[id]) == if id <= m then k - 1 else k
  }

  lemma RipeTick(s: Sim, k: nat, m: nat, draw: Draw)
    requires BothRipe(s, k, m) && k >= 2 && m < 2
    ensures BothRipe(Fire(s, m + 1, TickEvent(m + 1, draw), {}).sim, k, m + 1)
  {
    var x := s.nodes[m + 1];
    QuietTickNode(x, draw);
    var y := Tick(x, draw).node;
    PlainPut(s, 2, m + 1, y, s.queues);
    hide Tick, Plain;
    assert Route(s.queues, [], {}) == s.queues;
  }

  lemma RipeRound(s: Sim, k: nat)
    requires BothRipe(s, k, 0) && k >= 2
    ensures BothRipe(TickAll(s, FirstIds(2), TAPE).sim, k - 1, 0)
  {
    assert FirstIds(0) == [] && TickAll(s, FirstIds(0), TAPE).sim == s;
    RipeTick(s, k, 0, TAPE(1, 0));
    TickAllStep(s, 1, TAPE);
    var s1 := TickAll(s, FirstIds(1), TAPE).sim;
    RipeTick(s1, k, 1, TAPE(2, 0));
    TickAllStep(s, 2, TAPE);
  }

  lemma {:induction false} RipeRounds(s: Sim, k: nat)
    requires BothRipe(s, k, 0) && k >= 1
    ensures AllGenuine(Rounds(2, TAPE, k - 1), 2) && BothRipe(Drive(s, Rounds(2, TAPE, k - 1)).sim, 1, 0)
    decreases k
  {
    hide BothRipe, TickAll, FirstIds, AllGenuine;
    NoneGenuine(2);
    if k > 1 {
      var t := TickEach(FirstIds(2), TAPE);
      var s' := TickAll(s, FirstIds(2), TAPE).sim;
      RipeRound(s, k);
      RipeRounds(s', k - 1);
      OneGenuine(t, 2);
      GenuineJoin([t], Rounds(2, TAPE, k - 2), 2);
      DriveOne(s, t);
      DriveJoin(s, [t], Rounds(2, TAPE, k - 2));
    }
  }

  function Refusal(c: nat, id: nat): Message {
    RequestVoteResp(id, c, 1, false)
  }

  /** Both stand for term 1. */
  ghost predicate Duel(s: Sim, q1: seq<Message>, q2: seq<Message>) {
    && Plain(s, 2) && Candidate1(s.nodes[1], 1) && Candidate1(s.nodes[2], 2)
    && Queue(s.queues, 1) == q1 && Queue(s.queues, 2) == q2
  }

  /** One of the two stands: it becomes a candidate and both queues gain its request. */
  lemma DuelTick(s: Sim, c: nat, id: nat)
    requires Plain(s, 2) && 1 <= c <= 2 && 1 <= id <= 2
    requires !s.nodes[c].crashed && s.nodes[c].role == Follower && s.nodes[c].currentTerm == 0 && Left(s.nodes[c]) == 1
    ensures var r := Fire(s, c, TickEvent(c, 10), {}).sim;
            && Plain(r, 2) && Candidate1(r.nodes[c], c) && r.nodes == s.nodes[c := r.nodes[c]]
            && Queue(r.queues, id) == Queue(s.queues, id) + [Request(c, id)]
  {
    StandsUp(s.nodes[c], 10, 2, id);
    hide Tick, Candidate1, PlainNode;
    RouteAppends(s.queues, Tick(s.nodes[c], 10).out, {}, id);
    PlainPut(s, 2, c, Tick(s.nodes[c], 10).node, Fire(s, c, TickEvent(c, 10), {}).sim.queues);
  }

  lemma TickNone(s: Sim, tape: Tape)
    ensures TickAll(s, FirstIds(0), tape).sim == s
  {
  }

  lemma DuelStarts(s: Sim)
    requires BothRipe(s, 1, 0)
    ensures Duel(TickAll(s, FirstIds(2), TAPE).sim, [Request(1, 1), Request(2, 1)], [Request(1, 2), Request(2, 2)])
  {
    hide TickAll, FirstIds, Fire, PlainNode, Candidate1;
    var s1 := TickAll(s, FirstIds(1), TAPE).sim;
    TickNone(s, TAPE);
    TickAllStep(s, 1, TAPE);
    DuelTick(s, 1, 1);
    DuelTick(s, 1, 2);
    DuelSecond(s1);
    TickAllStep(s, 2, TAPE);
  }

  lemma DuelSecond(s: Sim)
    requires Plain(s, 2) && Candidate1(s.nodes[1], 1)
    requires !s.nodes[2].crashed && s.nodes[2].role == Follower && s.nodes[2].currentTerm == 0 && Left(s.nodes[2]) == 1
    requires Queue(s.queues, 1) == [Request(1, 1)] && Queue(s.queues, 2) == [Request(1, 2)]
    ensures Duel(Fire(s, 2, TickEvent(2, 10), {}).sim, [Request(1, 1), Request(2, 1)], [Request(1, 2), Request(2, 2)])
  {
    hide Fire, PlainNode, Candidate1;
    DuelTick(s, 2, 1);
    DuelTick(s, 2, 2);
  }

  /** Stepping one more message. */
  lemma StepSnoc(s: Sim, id: nat, ms: seq<Message>, m: Message, tape: Tape)
    requires id in s.nodes
    ensures StepAll(s, id, ms + [m], tape, {}).sim
            == Fire(StepAll(s, id, ms, tape, {}).sim, id, DeliverEvent(m, tape(id, |ms|)), {}).sim
  {
    hide Fire;
    assert (ms + [m])[..|ms|] == ms;
  }

  /** A candidate answers its own request and refuses the rival's, and stays what it is. */
  lemma CandidateAnswers(x: NodeState, c: nat, from: nat, n: nat, draw: Draw)
    requires PlainNode(x, c, n) && Candidate1(x, c) && c != 0
    ensures var o := Step(x, Request(from, c), draw);
            && PlainNode(o.node, c, n) && Candidate1(o.node, c)
            && o.out == [if from == c then Grant(c, c) else Refusal(from, c)]
  {
    assert LastIndex(EMPTY_LOG.entries) == 0 && LastTerm(EMPTY_LOG.entries) == 0;
  }

  /** One more request answered in the duel. */
  lemma DuelAnswer(s: Sim, c: nat, from: nat, draw: Draw, id: nat)
    requires Plain(s, 2) && 1 <= c <= 2 && 1 <= from <= 2 && Candidate1(s.nodes[c], c)
    ensures var r := Fire(s, c, DeliverEvent(Request(from, c), draw), {}).sim;
            && Plain(r, 2) && Candidate1(r.nodes[c], c) && r.nodes == s.nodes[c := r.nodes[c]]
            && Queue(r.queues, id) ==
               if id == from then Queue(s.queues, id) + [if from == c then Grant(c, c) else Refusal(from, c)]
               else Queue(s.queues, id)
  {
    CandidateAnswers(s.nodes[c], c, from, 2, draw);
    hide Step, Candidate1, PlainNode;
    var x := Step(s.nodes[c], Request(from, c), draw).node;
    RouteSingle(s.queues, if from == c then Grant(c, c) else Refusal(from, c));
    PlainPut(s, 2, c, x, Fire(s, c, DeliverEvent(Request(from, c), draw), {}).sim.queues);
  }

  /** Node 2 answers both requests; its refusal reaches node 1. */
  lemma DuelVisit2(s: Sim)
    requires Duel(s, [Request(1, 1), Request(2, 1)], [Request(1, 2), Request(2, 2)])
    ensures Duel(Visit(s, 2, TAPE, {}).sim, [Request(1, 1), Request(2, 1), Refusal(1, 2)], [])
  {
    var a, b := Request(1, 2), Request(2, 2);
    StepSingle(s, 2, a, TAPE);
    StepSnoc(s, 2, [a], b, TAPE);
    assert [a] + [b] == [a, b];
    var s1 := StepAll(s, 2, [a], TAPE, {}).sim;
    var s2 := StepAll(s, 2, [a, b], TAPE, {}).sim;
    hide Fire, StepAll, PlainNode, Candidate1;
    DuelAnswer(s, 2, 1, 10, 1);
    DuelAnswer(s1, 2, 2, 10, 1);
    assert Visit(s, 2, TAPE, {}).sim == Sim(s2.nodes, s2.queues[2 := []]);
  }

  /** A refusal makes a candidate count, and in a self-wired cluster of two its own vote wins. */
  lemma RefusalElects(x: NodeState, c: nat, from: nat, draw: Draw)
    requires PlainNode(x, c, 2) && Candidate1(x, c) && 1 <= c <= 2
    ensures var o := Step(x, Refusal(c, from), draw);
            && PlainNode(o.node, c, 2) && o.node.role == Leader && o.node.currentTerm == 1
  {
    SetWins(c, 2, {c});
    hide Broadcast, FreshIndexes, Wins, FirstIds;
  }

  lemma DuelWin(s: Sim)
    requires Plain(s, 2) && Candidate1(s.nodes[1], 1) && Queue(s.queues, 2) == [Refusal(2, 1)]
    ensures var r := Fire(s, 1, DeliverEvent(Refusal(1, 2), 10), {}).sim;
            && Plain(r, 2) && r.nodes[1].role == Leader && r.nodes[1].currentTerm == 1
            && r.nodes[2] == s.nodes[2] && Queue(r.queues, 2) != [] && Queue(r.queues, 2)[0] == Refusal(2, 1)
  {
    RefusalElects(s.nodes[1], 1, 2, 10);
    hide Step, PlainNode, Candidate1, Bound;
    var o := Step(s.nodes[1], Refusal(1, 2), 10);
    RouteAppends(s.queues, o.out, {}, 2);
    PlainPut(s, 2, 1, o.node, Route(s.queues, o.out, {}));
  }

  /** Node 1 answers both requests and is elected by the refusal; its own refusal waits for node 2. */
  lemma DuelVisit1(s: Sim)
    requires Duel(s, [Request(1, 1), Request(2, 1), Refusal(1, 2)], [])
    ensures var r := Visit(s, 1, TAPE, {}).sim;
            && Plain(r, 2) && r.nodes[1].role == Leader && r.nodes[1].currentTerm == 1
            && r.nodes[2] == s.nodes[2] && Queue(r.queues, 2) != [] && Queue(r.queues, 2)[0] == Refusal(2, 1)
  {
    hide Fire, StepAll, PlainNode, Candidate1;
    var a, b, d := Request(1, 1), Request(2, 1), Refusal(1, 2);
    assert [a] + [b] == [a, b] && [a, b] + [d] == [a, b, d];
    var s1 := StepAll(s, 1, [a], TAPE, {}).sim;
    StepSingle(s, 1, a, TAPE);
    DuelAnswer(s, 1, 1, 10, 2);
    var s2 := StepAll(s, 1, [a, b], TAPE, {}).sim;
    StepSnoc(s, 1, [a], b, TAPE);
    DuelAnswer(s1, 1, 2, 10, 2);
    var s3 := StepAll(s, 1, [a, b, d], TAPE, {}).sim;
    StepSnoc(s, 1, [a, b], d, TAPE);
    DuelWin(s2);
    DuelClears(s, s3);
  }

  lemma DuelClears(s: Sim, r: Sim)
    requires Duel(s, [Request(1, 1), Request(2, 1), Refusal(1, 2)], []) && Plain(r, 2)
    requires r == StepAll(s, 1, [Request(1, 1), Request(2, 1), Refusal(1, 2)], TAPE, {}).sim
    ensures Visit(s, 1, TAPE, {}).sim == Sim(r.nodes, r.queues[1 := []])
    ensures Plain(Sim(r.nodes, r.queues[1 := []]), 2) && Queue(r.queues[1 := []], 2) == Queue(r.queues, 2)
  {
    hide StepAll, PlainNode, Candidate1;
  }

  lemma OrderOfTwo()
    ensures LastOf(2, 1) == [2, 1]
  {
    assert FirstIds(2) == [1, 2] by { assert FirstIds(1) == [1]; }
    assert [1, 2][..1] == [1];
    assert Without([1], 1) == [] by { assert [1][..0] == []; }
    assert Without([1, 2], 1) == [2];
  }

  lemma DeliverTwo(s: Sim)
    ensures var a := Visit(s, 2, TAPE, {}); var b := Visit(a.sim, 1, TAPE, {});
            var r := DeliverAll(s, [2, 1], TAPE, {}); r.sim == b.sim && r.events == a.events + b.events
  {
    hide Visit;
    assert [2, 1][..1] == [2] && [2][..0] == [];
    assert DeliverAll(s, [], TAPE, {}) == Leg(s, [], []);
    var a := Visit(s, 2, TAPE, {});
    assert DeliverAll(s, [2], TAPE, {}) == Leg(a.sim, [] + a.events, [] + a.sent);
  }

  /** Node 1 leads term 1; a refusal of that term, which will elect node 2, heads the queue of node 2. */
  ghost predicate DuelLed(r: Sim) {
    && Plain(r, 2) && r.nodes[1].role == Leader && r.nodes[1].currentTerm == 1 && Candidate1(r.nodes[2], 2)
    && Queue(r.queues, 2) != [] && Queue(r.queues, 2)[0] == Refusal(2, 1)
  }

  lemma DuelDrain(s: Sim)
    requires Duel(s, [Request(1, 1), Request(2, 1)], [Request(1, 2), Request(2, 2)])
    ensures DuelLed(DeliverAll(s, LastOf(2, 1), TAPE, {}).sim)
  {
    OrderOfTwo();
    DeliverTwo(s);
    hide DeliverAll, Visit, PlainNode, Candidate1;
    DuelVisit2(s);
    DuelVisit1(Visit(s, 2, TAPE, {}).sim);
  }

  lemma BothUp(s: Sim, r: Sim)
    requires Plain(s, 2) && QuietQueues(s, 2) && Unborn(s, 1, 2) && Raised(s, r, 2, 1, 2, 0)
    ensures BothRipe(r, 10, 0)
  {
    hide Up, Left, PlainNode, UnbornNode, Willing;
    forall id: nat | 1 <= id <= 2
      ensures id in r.nodes && !r.nodes[id].crashed && r.nodes[id].role == Follower && r.nodes[id].currentTerm == 0
      ensures Left(r.nodes[id]) == 10
    {
      assert Unborn(s, id, id);
      UpsAreWilling(s, 2, id, id, 0);
      WillingFacts(Up(s.nodes[id], 0));
    }
  }

  /** Two nodes come up together and stand for the same term. */
  lemma DuelRun(s: Sim) returns (cs: seq<Command>)
    requires Built(s, 2)
    ensures AllGenuine(cs, 2) && DuelLed(Drive(s, cs).sim)
  {
    hide AllGenuine, Drive, Built, Plain, QuietQueues, Unborn, Raised, BothRipe, Duel, DuelLed, TickAll, DeliverAll,
      FirstIds;
    hide LastOf, Rounds, Ups, Without;
    var a := AllDown(s, 2);
    var s1 := Drive(s, a).sim;
    var b := Ups(1, 2, 0);
    BringUps(s1, 2, 1, 2, 0);
    var s2 := Drive(s1, b).sim;
    BothUp(s1, s2);
    var e := DuelFight(s2);
    DriveJoin(s, a, b);
    DriveJoin(s, a + b, e);
    GenuineJoin(a, b, 2);
    GenuineJoin(a + b, e, 2);
    cs := a + b + e;
  }

  lemma DuelFight(s: Sim) returns (cs: seq<Command>)
    requires BothRipe(s, 10, 0)
    ensures AllGenuine(cs, 2) && DuelLed(Drive(s, cs).sim)
  {
    hide AllGenuine, BothRipe, Duel, DuelLed, TickAll, DeliverAll, FirstIds, LastOf, Rounds, Without;
    var a, t, d := Rounds(2, TAPE, 9), TickEach(FirstIds(2), TAPE), Drain(LastOf(2, 1), TAPE, {});
    RipeRounds(s, 10);
    var s1 := Drive(s, a).sim;
    DuelStarts(s1);
    var s2 := TickAll(s1, FirstIds(2), TAPE).sim;
    DuelDrain(s2);
    DriveOne(s1, t);
    DriveOne(s2, d);
    DriveJoin(s, a, [t]);
    DriveJoin(s, a + [t], [d]);
    LastOfOrder(2, 1);
    OneGenuine(t, 2);
    OneGenuine(d, 2);
    GenuineJoin(a, [t], 2);
    GenuineJoin(a + [t], [d], 2);
    cs := a + [t] + [d];
  }

  /** The first thing a visit does. */
  lemma {:induction false} VisitStarts(s: Sim, id: nat, ms: seq<Message>, tape: Tape)
    requires id in s.nodes && ms != []
    ensures StepAll(s, id, ms, tape, {}).events != []
    ensures StepAll(s, id, ms, tape, {}).events[0] == DeliverEvent(ms[0], tape(id, 0))
  {
    hide React, Route;
    if |ms| == 1 {
      assert StepAll(s, id, ms[..0], tape, {}).events == [];
    } else {
      VisitStarts(s, id, ms[..|ms| - 1], tape);
    }
  }

  lemma DrainStarts(s: Sim)
    requires DuelLed(s)
    ensures var es := DeliverAll(s, LastOf(2, 1), TAPE, {}).events; es != [] && es[0] == DeliverEvent(Refusal(2, 1), 10)
  {
    OrderOfTwo();
    DeliverTwo(s);
    VisitStarts(s, 2, Queue(s.queues, 2), TAPE);
    hide StepAll, DeliverAll;
  }

  /** The next event in the network makes node 2 a leader of term 1 as well. */
  lemma DuelLost(s: Sim, net: Net)
    requires DuelLed(s) && Represents(s, net)
    ensures LeaderAt(net, 1, 1) && LeaderAt(Apply(net, DeliverEvent(Refusal(2, 1), 10)), 2, 1)
  {
    assert Refusal(2, 1) in Queue(s.queues, 2);
    RefusalElects(s.nodes[2], 2, 1, 10);
    hide Step, PlainNode, Candidate1;
  }

  lemma DriveEvents(s: Sim, cs: seq<Command>, c: Command)
    ensures Drive(s, cs + [c]).events == Drive(s, cs).events + Perform(Drive(s, cs).sim, c).events
  {
    hide Perform;
    assert (cs + [c])[..|cs|] == cs;
  }

  lemma TwoUnsafe(s: Sim) returns (cs: seq<Command>)
    requires Built(s, 2)
    ensures AllGenuine(cs, 2) && !OneLeaderPerTerm(Net(s.nodes, {}), Drive(s, cs).events)
  {
    var net := Net(s.nodes, {});
    assert Represents(s, net);
    hide AllGenuine, Drive, Built, Represents, DuelLed, LeaderAt, Apply, DeliverAll, LastOf, Without, Genuine;
    var a := DuelRun(s);
    var s1 := Drive(s, a).sim;
    var d := Drain(LastOf(2, 1), TAPE, {});
    LastOfOrder(2, 1);
    OneGenuine(d, 2);
    GenuineJoin(a, [d], 2);
    cs := a + [d];
    DriveRefines(s, net, a);
    DuelLost(s1, Exec(net, Drive(s, a).events));
    DrainStarts(s1);
    DriveEvents(s, a, d);
    SecondLeader(net, Drive(s, a).events, Drive(s, cs).events, DeliverEvent(Refusal(2, 1), 10));
  }

  lemma SecondLeader(net: Net, es: seq<Event>, es': seq<Event>, e: Event)
    requires |es| < |es'| && es'[..|es|] == es && es'[|es|] == e
    requires LeaderAt(Exec(net, es), 1, 1) && LeaderAt(Apply(Exec(net, es), e), 2, 1)
    ensures !OneLeaderPerTerm(net, es')
  {
    hide Apply, LeaderAt;
    var k := |es|;
    assert es'[..k + 1][..k] == es;
    assert Exec(net, es'[..k + 1]) == Apply(Exec(net, es), e);
    assert LeaderAt(Exec(net, es'[..k]), 1, 1) && LeaderAt(Exec(net, es'[..k + 1]), 2, 1);
  }

  // ---------------------------------------------------------------- the theorem

  lemma ManyUnsafe(s: Sim, n: nat) returns (cs: seq<Command>)
    requires Built(s, n) && n >= 3
    ensures AllGenuine(cs, n) && !OneLeaderPerTerm(Net(s.nodes, {}), Drive(s, cs).events)
  {
    var net := Net(s.nodes, {});
    assert Represents(s, net);
    hide AllGenuine, Drive, Built, Represents, HalfWay, Exec;
    var a := FirstElection(s, n);
    var s1 := Drive(s, a).sim;
    assert 1 in s1.nodes && s1.nodes[1].role == Leader && s1.nodes[1].currentTerm == 1;
    hide FirstLed;
    var b := FirstForgets(s1, n);
    var s2 := Drive(s1, b).sim;
    var e := SecondElection(s2, n);
    DriveJoin(s, a, b);
    DriveJoin(s, a + b, e);
    GenuineJoin(a, b, n);
    GenuineJoin(a + b, e, n);
    cs := a + b + e;
    assert cs[..|a|] == a && cs[..|cs|] == cs;
    var k := DrivenState(s, net, cs, |a|);
    var l := DrivenState(s, net, cs, |cs|);
    var es := Drive(s, cs).events;
    assert LeaderAt(Exec(net, es[..k]), 1, 1) && LeaderAt(Exec(net, es[..l]), n, 1);
  }

  /** For every cluster of two nodes or more, as the constructor builds it, there is a use of the driver in
      which two different nodes lead the same term. */
  lemma SelfWiredElectionUnsafe(s: Sim, n: nat) returns (cs: seq<Command>)
    requires Built(s, n) && n >= 2
    ensures AllGenuine(cs, n) && !OneLeaderPerTerm(Net(s.nodes, {}), Drive(s, cs).events)
  {
    hide AllGenuine, Drive, Built, OneLeaderPerTerm;
    if n == 2 { cs := TwoUnsafe(s); } else { cs := ManyUnsafe(s, n); }
  }

  lemma {:induction false} ExecKeepsNodes(net: Net, es: seq<Event>)
    ensures Exec(net, es).nodes.Keys == net.nodes.Keys
  {
    hide React;
    if es != [] { ExecKeepsNodes(net, es[..|es| - 1]); }
  }

  lemma AloneIsSafe(s: Sim, n: nat, es: seq<Event>)
    requires Built(s, n) && n <= 1
    ensures OneLeaderPerTerm(Net(s.nodes, {}), es)
  {
    var net := Net(s.nodes, {});
    hide Exec;
    forall i: nat, j: nat, a: nat, b: nat, t: nat | i <= |es| && j <= |es| &&
      LeaderAt(Exec(net, es[..i]), a, t) && LeaderAt(Exec(net, es[..j]), b, t)
      ensures a == b
    {
      ExecKeepsNodes(net, es[..i]);
      ExecKeepsNodes(net, es[..j]);
      assert a in net.nodes && b in net.nodes;
    }
  }

  /** Election Safety of the wiring the simulated cluster builds, exactly: every use of a cluster of `n` nodes,
      and every run of its network, has at most one leader per term if and only if `n <= 1`. */
  lemma SelfWiredSafeIffAlone(s: Sim, n: nat)
    requires Built(s, n)
    ensures (forall cs | AllGenuine(cs, n) :: OneLeaderPerTerm(Net(s.nodes, {}), Drive(s, cs).events)) <==> n <= 1
    ensures (forall es :: OneLeaderPerTerm(Net(s.nodes, {}), es)) <==> n <= 1
  {
    hide AllGenuine, Drive, Built, OneLeaderPerTerm;
    if n <= 1 {
      forall es ensures OneLeaderPerTerm(Net(s.nodes, {}), es) { AloneIsSafe(s, n, es); }
    } else {
      var cs := SelfWiredElectionUnsafe(s, n);
    }
  }
}
