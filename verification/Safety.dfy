/** Leader Completeness and State Machine Safety.

    A successful acknowledgement reports the follower's own last index, which may lie beyond what the
    follower shares with the leader; then commitment is not safe (see Witness). The results here are
    for the runs in which every acknowledged index lies inside the prefix the follower shares with
    the log of the leader it acknowledges.
 */
module Safety {
  import opened RaftLog
  import opened Quorum
  import opened NodeModel
  import opened Effects
  import opened History
  import opened Election
  import opened LogMatching
  import opened Merging

  // ---------------------------------------------------------------- who holds what

  ghost predicate IsAck(m: Message, t: nat, q: nat, k: nat) {
    m.AppendEntriesResp? && m.success && m.term == t && m.from == q && m.matchIndex >= k
  }

  ghost predicate Acked(pool: set<Message>, t: nat, q: nat, k: nat) {
    exists m :: m in pool && IsAck(m, t, q, k)
  }

  /** `q` led term `t`, or acknowledged index `k` of its leader's log. */
  ghost predicate Holder(w: World, t: nat, q: nat, k: nat) {
    t in w.lead && k < |w.lead[t].log| && (q == w.lead[t].id || Acked(w.net.pool, t, q, k))
  }

  /** Every leader of a term between `t` and `hi` holds the log of leader `t` through `k`. */
  ghost predicate LeadersHold(w: World, t: nat, k: nat, hi: nat)
    requires t in w.lead
  {
    forall u | u in w.lead && t < u < hi :: Agree(w.lead[t].log, w.lead[u].log, k)
  }

  /** An entry of the leader's own term that a majority holds. */
  ghost predicate Chosen(w: World, t: nat, k: nat) {
    && t in w.lead && 1 <= k < |w.lead[t].log| && w.lead[t].log[k].term == t
    && exists q: set<nat> :: q <= w.net.nodes.Keys && 2 * |q| > |w.net.nodes.Keys| && AllHold(w, t, q, k)
  }

  ghost predicate AllHold(w: World, t: nat, q: set<nat>, k: nat) {
    forall x | x in q :: Holder(w, t, x, k)
  }

  /** The first `c` entries of `es` are covered by something chosen in a term up to `t`. */
  ghost predicate Committed(w: World, es: seq<Entry>, c: nat, t: nat) {
    c == 0 || exists u: nat, k: nat :: Chosen(w, u, k) && c <= k && u <= t && Agree(es, w.lead[u].log, c)
  }

  // ---------------------------------------------------------------- the invariant

  ghost predicate HolderKeeps(w: World, t: nat, q: nat, k: nat)
    requires t in w.lead
  {
    && q in w.net.nodes && t <= w.net.nodes[q].currentTerm
    && (LeadersHold(w, t, k, w.net.nodes[q].currentTerm + 1) ==> Agree(w.lead[t].log, w.net.nodes[q].log.entries, k))
  }

  /** A node keeps what it acknowledged unless some later leader it may have followed lacked it. */
  ghost predicate HoldersKeep(w: World) {
    forall t: nat, q: nat, k: nat | Holder(w, t, q, k) :: HolderKeeps(w, t, q, k)
  }

  /** The same for the log a binding vote was cast with. */
  ghost predicate VotersHeld(w: World) {
    forall b, t: nat, k: nat | b in w.votes && Holder(w, t, b.voter, k) && t < b.term && Bound(w, b.term, b.voter)
      && LeadersHold(w, t, k, b.term) ::
      Agree(w.lead[t].log, w.votes[b], k)
  }

  ghost predicate VoteUpToDate(w: World, b: Ballot)
    requires b in w.votes
  {
    var c := Ballot(b.term, b.candidate, b.candidate);
    c in w.votes && UpToDate(w.votes[b], LastIndex(w.votes[c]), LastTerm(w.votes[c]))
  }

  ghost predicate VotesUpToDate(w: World) {
    forall b | b in w.votes :: VoteUpToDate(w, b)
  }

  ghost predicate AckOk(w: World, m: Message) {
    m.AppendEntriesResp? && m.success ==> m.term in w.lead && m.matchIndex < |w.lead[m.term].log|
  }

  ghost predicate AcksOk(w: World) {
    forall m | m in w.net.pool :: AckOk(w, m)
  }

  /** A leader's next indexes stay within its log, and its match indexes come from acknowledgements. */
  ghost predicate BookOk(w: World, n: NodeState) {
    n.role == Leader ==> forall p | p in n.peers ::
      && 1 <= Get(n.nextIndex, p) <= |n.log.entries|
      && (Get(n.matchIndex, p) == 0
         || AppendEntriesResp(p, n.id, n.currentTerm, true, Get(n.matchIndex, p)) in w.net.pool)
  }

  ghost predicate BooksOk(w: World) {
    forall id | id in w.net.nodes :: BookOk(w, w.net.nodes[id])
  }

  ghost predicate NodeCommitted(w: World, n: NodeState) {
    Committed(w, n.log.entries, n.log.commitIndex, n.currentTerm)
  }

  ghost predicate CommitsOk(w: World) {
    forall id | id in w.net.nodes :: NodeCommitted(w, w.net.nodes[id])
  }

  ghost predicate HeartbeatOk(w: World, m: Message) {
    m.AppendEntries? ==>
      && m.term in w.lead && m.leaderCommit <= m.prevLogIndex + |m.entries|
      && Committed(w, w.lead[m.term].log, m.leaderCommit, m.term)
  }

  ghost predicate HeartbeatsOk(w: World) {
    forall m | m in w.net.pool :: HeartbeatOk(w, m)
  }

  /** What Leader Completeness rests on. */
  ghost predicate HoldInv(w: World) {
    HoldersKeep(w) && VotersHeld(w) && VotesUpToDate(w) && AcksOk(w)
  }

  ghost predicate CommitInv(w: World) {
    BooksOk(w) && CommitsOk(w) && HeartbeatsOk(w)
  }

  // ---------------------------------------------------------------- Leader Completeness

  /** A candidate whose log is up to date with a voter that holds the entry holds the entry. */
  lemma UpToDateHolds(w: World, t: nat, k: nat, u: nat, cand: Entries, vote: Entries)
    requires t in w.lead && 1 <= k < |w.lead[t].log| && w.lead[t].log[k].term == t
    requires forall x | x in w.lead :: WellFormed(w.lead[x].log)
    requires WellFormed(cand) && Traced(w.lead, cand) && cand[|cand| - 1].term < u
    requires WellFormed(vote) && Agree(w.lead[t].log, vote, k)
    requires UpToDate(vote, LastIndex(cand), LastTerm(cand))
    requires LeadersHold(w, t, k, u)
    ensures Agree(w.lead[t].log, cand, k)
  {
    var log := w.lead[t].log;
    AgreeAt(log, vote, k, k);
    assert vote[k].term == t && t <= vote[|vote| - 1].term;
    var li := |cand| - 1;
    assert LastIndex(cand) == li && LastTerm(vote) == vote[|vote| - 1].term && LastIndex(vote) == |vote| - 1;
    assert li >= 1 && LastTerm(cand) == cand[li].term >= t;
    var lt := cand[li].term;
    assert lt in w.lead && Agree(cand, w.lead[lt].log, li);
    if lt == t {
      AgreeAt(cand, log, li, k);
    } else {
      var mid := w.lead[lt].log;
      assert Agree(log, mid, k);
      AgreeAt(log, mid, k, k);
      AgreeAt(cand, mid, li, li);
      assert mid[k].term == t < lt == mid[li].term;
      assert k < li;
      AgreeAt(cand, mid, li, k);
    }
  }

  /** Leader Completeness: what is chosen in term `t` stands in the log of every leader of a later
      term. The proof is by induction on that term, through a voter that is also a holder. */
  lemma {:induction false} LeaderCompleteness(w: World, t: nat, k: nat, u: nat)
    requires HoldInv(w) && LogInv(w) && LeadershipsOk(w)
    requires Chosen(w, t, k) && u in w.lead && t < u
    ensures Agree(w.lead[t].log, w.lead[u].log, k)
    decreases u
  {
    hide Agree, HoldInv, LogInv, LeadershipsOk;
    forall x | x in w.lead && t < x < u ensures Agree(w.lead[t].log, w.lead[x].log, k) {
      LeaderCompleteness(w, t, k, x);
    }
    LeaderVoted(w, t, k, u);
  }

  /** The step of that induction: the log the leader of `u` was elected with holds what was chosen, if
      the logs of all leaders in between do. */
  lemma LeaderVoted(w: World, t: nat, k: nat, u: nat)
    requires HoldInv(w) && LogInv(w) && LeadershipsOk(w)
    requires Chosen(w, t, k) && u in w.lead && t < u
    requires forall x | x in w.lead && t < x < u :: Agree(w.lead[t].log, w.lead[x].log, k)
    ensures Agree(w.lead[t].log, w.lead[u].log, k)
  {
    hide Agree, WellFormed, Traced, UpToDate;
    var v := VoterHolds(w, t, k, u);
    var c := w.lead[u].id;
    var b, self := Ballot(u, v, c), Ballot(u, c, c);
    VoteFacts(w, t, k, u, v);
    LeaderLogsWellFormed(w);
    hide HoldInv, LogInv, LeadershipsOk;
    UpToDateHolds(w, t, k, u, w.votes[self], w.votes[b]);
    PrefixKeepsAgree(w.lead[t].log, w.votes[self], w.lead[u].log, k);
  }

  /** What is known of a vote that elected the leader of `u` and was cast by a holder. */
  lemma VoteFacts(w: World, t: nat, k: nat, u: nat, v: nat)
    requires HoldInv(w) && LogInv(w) && u in w.lead && t < u
    requires v in w.lead[u].quorum && Holder(w, t, v, k) && Ballot(u, v, w.lead[u].id) in w.votes
    requires LeadersHold(w, t, k, u)
    ensures var c := w.lead[u].id;
            var b, self := Ballot(u, v, c), Ballot(u, c, c);
            && VoteUpToDate(w, b) && LeadLogOk(w, u) && VoteLogOk(w, b) && VoteLogOk(w, self)
            && Agree(w.lead[t].log, w.votes[b], k)
  {
    hide Agree, WellFormed, Traced, UpToDate;
    var c := w.lead[u].id;
    var b, self := Ballot(u, v, c), Ballot(u, c, c);
    assert VoteUpToDate(w, b) && LeadLogOk(w, u) && VoteLogOk(w, b) && VoteLogOk(w, self);
    assert Bound(w, u, v);
  }

  lemma LeaderLogsWellFormed(w: World)
    requires LogInv(w)
    ensures forall x | x in w.lead :: WellFormed(w.lead[x].log)
  {
    forall x | x in w.lead ensures WellFormed(w.lead[x].log) { LeadLogFacts(w, x); }
  }

  /** Some node both holds the chosen entry and voted for the later leader. */
  lemma VoterHolds(w: World, t: nat, k: nat, u: nat) returns (v: nat)
    requires Chosen(w, t, k) && u in w.lead && LeadershipOk(w, u)
    ensures v in w.lead[u].quorum && Holder(w, t, v, k) && Ballot(u, v, w.lead[u].id) in w.votes
  {
    var q: set<nat> :| q <= w.net.nodes.Keys && 2 * |q| > |w.net.nodes.Keys| && AllHold(w, t, q, k);
    v := Pigeonhole(q, w.lead[u].quorum, w.net.nodes.Keys);
  }

  // ---------------------------------------------------------------- State Machine Safety

  /** Two committed prefixes agree wherever both reach. */
  lemma CommittedAgree(w: World, a: seq<Entry>, ca: nat, ta: nat, b: seq<Entry>, cb: nat, tb: nat, i: nat)
    requires HoldInv(w) && LogInv(w) && LeadershipsOk(w)
    requires Committed(w, a, ca, ta) && Committed(w, b, cb, tb)
    requires 1 <= i <= ca && i <= cb
    ensures Agree(a, b, i)
  {
    hide HoldInv, LogInv, LeadershipsOk, AllHold;
    var u: nat, k: nat :| Chosen(w, u, k) && ca <= k && u <= ta && Agree(a, w.lead[u].log, ca);
    var u': nat, k': nat :| Chosen(w, u', k') && cb <= k' && u' <= tb && Agree(b, w.lead[u'].log, cb);
    AgreeAt(a, w.lead[u].log, ca, i);
    AgreeAt(b, w.lead[u'].log, cb, i);
    if u < u' {
      LeaderCompleteness(w, u, k, u');
      AgreeAt(w.lead[u].log, w.lead[u'].log, k, i);
    } else if u' < u {
      LeaderCompleteness(w, u', k', u);
      AgreeAt(w.lead[u'].log, w.lead[u].log, k', i);
    }
  }

  // ---------------------------------------------------------------- the history grows

  ghost predicate Grows(w: World, w': World) {
    && VotesGrow(w, w') && LeadsKept(w, w') && LogsExtend(w.lead, w'.lead)
    && w.net.pool <= w'.net.pool && w'.net.nodes.Keys == w.net.nodes.Keys
  }

  lemma HolderGrows(w: World, w': World, t: nat, q: nat, k: nat)
    requires Grows(w, w') && Holder(w, t, q, k)
    ensures Holder(w', t, q, k)
  {
  }

  lemma ChosenGrows(w: World, w': World, t: nat, k: nat)
    requires Grows(w, w') && Chosen(w, t, k)
    ensures Chosen(w', t, k)
  {
    var q: set<nat> :| q <= w.net.nodes.Keys && 2 * |q| > |w.net.nodes.Keys| && AllHold(w, t, q, k);
    forall x | x in q ensures Holder(w', t, x, k) { HolderGrows(w, w', t, x, k); }
    assert AllHold(w', t, q, k);
    assert w'.lead[t].log[k] == w.lead[t].log[k];
  }

  lemma CommittedGrows(w: World, w': World, es: seq<Entry>, c: nat, t: nat, es': seq<Entry>, c': nat, t': nat)
    requires Grows(w, w') && Committed(w, es, c, t)
    requires c' <= c && t <= t' && (c == 0 || Agree(es', es, c'))
    ensures Committed(w', es', c', t')
  {
    if c' > 0 {
      hide Chosen;
      var u: nat, k: nat :| Chosen(w, u, k) && c <= k && u <= t && Agree(es, w.lead[u].log, c);
      ChosenGrows(w, w', u, k);
      AgreeAt(es, w.lead[u].log, c, c');
      AgreeTransitive(es', es, w.lead[u].log, c');
      PrefixKeepsAgree(es', w.lead[u].log, w'.lead[u].log, c');
    }
  }

  /** Leaders of later terms never come to hold what they lacked: they append entries of their own
      term only. */
  lemma LeadersHeldBefore(w: World, w': World, t: nat, k: nat, hi: nat)
    requires LogInv(w) && LogInv(w') && Grows(w, w') && t in w.lead && k < |w.lead[t].log|
    requires LeadersHold(w', t, k, hi)
    ensures LeadersHold(w, t, k, hi)
  {
    forall u | u in w.lead && t < u < hi ensures Agree(w.lead[t].log, w.lead[u].log, k) {
      HeldBefore(w, w', t, k, u);
    }
  }

  lemma HeldBefore(w: World, w': World, t: nat, k: nat, u: nat)
    requires LogInv(w) && LogInv(w') && Grows(w, w') && t in w.lead && k < |w.lead[t].log|
    requires u in w.lead && t < u && u in w'.lead && Agree(w'.lead[t].log, w'.lead[u].log, k)
    ensures Agree(w.lead[t].log, w.lead[u].log, k)
  {
    hide NodeLogsOk, VoteLogsOk, AppendsOk, Traced;
    LeadLogFacts(w, u);
    LeadLogFacts(w', u);
    LeadLogFacts(w', t);
    var i := |w.lead[u].log|;
    if i <= k {
      AgreeAt(w'.lead[t].log, w'.lead[u].log, k, i);
    } else {
      assert w.lead[t].log[..k + 1] == w'.lead[t].log[..k + 1];
      assert w.lead[u].log[..k + 1] == w'.lead[u].log[..k + 1];
    }
  }

  // ---------------------------------------------------------------- keeping HoldInv

  /** Whatever became held in this step is held by the node that moved, in its current term. */
  ghost predicate NewHolders(w: World, w': World, id: nat, n': NodeState) {
    forall t: nat, q: nat, k: nat | Holder(w', t, q, k) && !Holder(w, t, q, k) ::
      q == id && t == n'.currentTerm && Agree(w'.lead[t].log, n'.log.entries, k)
  }

  /** The moving node keeps what every leader up to its new term holds. */
  ghost predicate KeepsHeld(w: World, w': World, n: NodeState, n': NodeState) {
    forall t: nat, k: nat | t in w.lead && t in w'.lead && t <= n.currentTerm
      && LeadersHold(w', t, k, n'.currentTerm + 1)
                            && Agree(w.lead[t].log, n.log.entries, k) ::
      Agree(w.lead[t].log, n'.log.entries, k)
  }

  lemma KeepHolder(w: World, id: nat, n': NodeState, out: seq<Message>, w': World, t: nat, q: nat, k: nat)
    requires HoldersKeep(w) && LogInv(w) && LogInv(w') && Grows(w, w') && Moves(w, id, n', out, w')
    requires n'.currentTerm >= w.net.nodes[id].currentTerm && KeepsHeld(w, w', w.net.nodes[id], n')
    requires Holder(w, t, q, k)
    ensures t in w'.lead && HolderKeeps(w', t, q, k)
  {
    hide LogInv;
    assert HolderKeeps(w, t, q, k);
    if LeadersHold(w', t, k, w'.net.nodes[q].currentTerm + 1) {
      LeadersHeldBefore(w, w', t, k, w'.net.nodes[q].currentTerm + 1);
      assert LeadersHold(w, t, k, w.net.nodes[q].currentTerm + 1);
      var es := w'.net.nodes[q].log.entries;
      assert Agree(w.lead[t].log, es, k);
      assert Agree(es, w.lead[t].log, k);
      PrefixKeepsAgree(es, w.lead[t].log, w'.lead[t].log, k);
    }
  }

  lemma KeepHolders(w: World, id: nat, n': NodeState, out: seq<Message>, w': World)
    requires HoldersKeep(w) && LogInv(w) && LogInv(w') && Grows(w, w') && Moves(w, id, n', out, w')
    requires n'.currentTerm >= w.net.nodes[id].currentTerm
    requires NewHolders(w, w', id, n') && KeepsHeld(w, w', w.net.nodes[id], n')
    ensures HoldersKeep(w')
  {
    hide LogInv, HoldersKeep, KeepsHeld, LeadersHold;
    forall t: nat, q: nat, k: nat | Holder(w', t, q, k) ensures HolderKeeps(w', t, q, k) {
      if Holder(w, t, q, k) { KeepHolder(w, id, n', out, w', t, q, k); }
    }
    HoldersKeepIntro(w');
  }

  lemma HoldersKeepIntro(w: World)
    requires forall t: nat, q: nat, k: nat | Holder(w, t, q, k) :: HolderKeeps(w, t, q, k)
    ensures HoldersKeep(w)
  {
  }

  /** A ballot cast in this step was cast with the log the voter had, in its new current term. */
  ghost predicate NewBallots(w: World, w': World, id: nat, n': NodeState)
    requires id in w.net.nodes
  {
    forall b | b in w'.votes && b !in w.votes ::
      b.voter == id && b.term == n'.currentTerm && w'.votes[b] == w.net.nodes[id].log.entries
  }

  /** A vote that binds when it is cast belongs to a term without a leader. */
  lemma NewBallotHasNoLeader(w: World, w': World, b: Ballot)
    requires LeadershipsOk(w) && OneVote(w') && Grows(w, w') && SameLeads(w, w')
    requires b in w'.votes && b !in w.votes && Bound(w', b.term, b.voter)
    ensures b.term !in w.lead
  {
  }

  lemma KeepVoters(w: World, id: nat, n': NodeState, out: seq<Message>, w': World)
    requires HoldersKeep(w) && VotersHeld(w) && LogInv(w) && LogInv(w') && Grows(w, w') && Moves(w, id, n', out, w')
    requires n'.currentTerm >= w.net.nodes[id].currentTerm
    requires BallotsPlaced(w') && OneVote(w') && LeadershipsOk(w)
    requires NewHolders(w, w', id, n') && NewBallots(w, w', id, n')
    requires (forall b | b in w'.votes :: b in w.votes) || SameLeads(w, w')
    ensures VotersHeld(w')
  {
    hide LogInv, OneVote, LeadershipsOk, HoldersKeep, VotersHeld, Agree, LeadersHold;
    forall b, t: nat, k: nat | b in w'.votes && Holder(w', t, b.voter, k) && t < b.term && Bound(w', b.term, b.voter)
      && LeadersHold(w', t, k, b.term)
      ensures Agree(w'.lead[t].log, w'.votes[b], k)
    {
      assert b.term <= w'.net.nodes[b.voter].currentTerm;
      assert Holder(w, t, b.voter, k);
      LeadersHeldBefore(w, w', t, k, b.term);
      if b in w.votes {
        OldVoterHeld(w, t, k, b, w');
      } else {
        NewBallotHasNoLeader(w, w', b);
        NewVoterHeld(w, id, t, k, b);
      }
      AgreeSymmetric(w.lead[t].log, w'.votes[b], k);
      PrefixKeepsAgree(w'.votes[b], w.lead[t].log, w'.lead[t].log, k);
      AgreeSymmetric(w'.votes[b], w'.lead[t].log, k);
    }
    VotersHeldIntro(w');
  }

  lemma AgreeSymmetric(a: seq<Entry>, b: seq<Entry>, k: nat)
    requires Agree(a, b, k)
    ensures Agree(b, a, k)
  {
  }

  lemma VotersHeldIntro(w: World)
    requires forall b, t: nat, k: nat | b in w.votes && Holder(w, t, b.voter, k) && t < b.term
             && Bound(w, b.term, b.voter) && LeadersHold(w, t, k, b.term) ::
               Agree(w.lead[t].log, w.votes[b], k)
    ensures VotersHeld(w)
  {
  }

  lemma OldVoterHeld(w: World, t: nat, k: nat, b: Ballot, w': World)
    requires VotersHeld(w) && Grows(w, w') && b in w.votes && Bound(w', b.term, b.voter)
    requires Holder(w, t, b.voter, k) && t < b.term && LeadersHold(w, t, k, b.term)
    ensures Agree(w.lead[t].log, w'.votes[b], k)
  {
    assert Bound(w, b.term, b.voter);
  }

  lemma NewVoterHeld(w: World, id: nat, t: nat, k: nat, b: Ballot)
    requires HoldersKeep(w) && id in w.net.nodes && b.term !in w.lead && w.net.nodes[id].currentTerm <= b.term
    requires Holder(w, t, id, k) && LeadersHold(w, t, k, b.term)
    ensures Agree(w.lead[t].log, w.net.nodes[id].log.entries, k)
  {
    assert HolderKeeps(w, t, id, k);
    assert LeadersHold(w, t, k, w.net.nodes[id].currentTerm + 1);
  }

  lemma KeepUpToDate(w: World, w': World)
    requires VotesUpToDate(w) && VotesGrow(w, w')
    requires forall b | b in w'.votes && b !in w.votes :: VoteUpToDate(w', b)
    ensures VotesUpToDate(w')
  {
    forall b | b in w'.votes ensures VoteUpToDate(w', b) {
      if b in w.votes { assert VoteUpToDate(w, b); }
    }
  }

  lemma KeepAcks(w: World, id: nat, n': NodeState, out: seq<Message>, w': World)
    requires AcksOk(w) && LogsExtend(w.lead, w'.lead) && Moves(w, id, n', out, w')
    requires forall m | m in out && m !in w.net.pool :: AckOk(w', m)
    ensures AcksOk(w')
  {
    forall m | m in w'.net.pool ensures AckOk(w', m) {
      if m in w.net.pool { assert AckOk(w, m); }
    }
  }

  // ---------------------------------------------------------------- one event: HoldInv

  /** The hypothesis on one event: a new successful acknowledgement names an index inside the prefix
      the follower now shares with the log of that term's leader. */
  ghost predicate AckInside(w: World, n': NodeState, out: seq<Message>) {
    forall m | m in out && m !in w.net.pool && m.AppendEntriesResp? && m.success ::
      m.term in w.lead && Agree(w.lead[m.term].log, n'.log.entries, m.matchIndex)
  }

  /** A leadership that changed in this step belongs to the moving node, with its log. */
  ghost predicate OwnLead(w: World, w': World, id: nat, n': NodeState) {
    forall t | t in w'.lead ::
      || (t in w.lead && w'.lead[t] == w.lead[t])
      || (t == n'.currentTerm && w'.lead[t].id == id && w'.lead[t].log == n'.log.entries)
  }

  /** Acknowledgements sent in this step come from the moving node, for its current term. */
  ghost predicate OwnAcks(w: World, w': World, id: nat, n': NodeState, out: seq<Message>) {
    forall m | m in out && m !in w.net.pool && m.AppendEntriesResp? && m.success ::
      m.from == id && m.term == n'.currentTerm && m.term in w'.lead
        && Agree(w'.lead[m.term].log, n'.log.entries, m.matchIndex)
  }

  lemma FindNewHolders(w: World, id: nat, n': NodeState, out: seq<Message>, w': World)
    requires AcksOk(w) && Moves(w, id, n', out, w') && OwnLead(w, w', id, n') && OwnAcks(w, w', id, n', out)
    ensures NewHolders(w, w', id, n')
  {
    forall t: nat, q: nat, k: nat | Holder(w', t, q, k) && !Holder(w, t, q, k)
      ensures q == id && t == n'.currentTerm && Agree(w'.lead[t].log, n'.log.entries, k)
    {
      if q != w'.lead[t].id {
        var m :| m in w'.net.pool && IsAck(m, t, q, k);
        if m !in w.net.pool { AgreeAt(w'.lead[t].log, n'.log.entries, m.matchIndex, k); }
      }
    }
  }

  lemma HoldStep(w: World, id: nat, n': NodeState, out: seq<Message>, w': World)
    requires HoldInv(w) && ElectionInv(w) && ElectionInv(w') && LogInv(w) && LogInv(w') && Grows(w, w')
    requires Moves(w, id, n', out, w') && n'.currentTerm >= w.net.nodes[id].currentTerm
    requires OwnLead(w, w', id, n') && OwnAcks(w, w', id, n', out)
    requires KeepsHeld(w, w', w.net.nodes[id], n') && NewBallots(w, w', id, n')
    requires forall b | b in w'.votes && b !in w.votes :: VoteUpToDate(w', b)
    requires (forall b | b in w'.votes :: b in w.votes) || SameLeads(w, w')
    ensures HoldInv(w')
  {
    hide HoldersKeep, VotersHeld, VotesUpToDate, AcksOk, KeepsHeld, LogInv, VoteUpToDate, Agree, NewHolders;
    hide Wired, AlignedNet, BallotsPlaced, OneVote, VoteKept, RolesOk, LeadershipsOk, MessagesOk;
    FindNewHolders(w, id, n', out, w');
    KeepHolders(w, id, n', out, w');
    KeepVoters(w, id, n', out, w');
    KeepUpToDate(w, w');
    KeepAcks(w, id, n', out, w') by {
      forall m | m in out && m !in w.net.pool ensures AckOk(w', m) {
        if m.AppendEntriesResp? && m.success { AgreeLength(w'.lead[m.term].log, n'.log.entries, m.matchIndex); }
      }
    }
  }

  lemma AgreeLength(a: seq<Entry>, b: seq<Entry>, k: nat)
    requires Agree(a, b, k)
    ensures k < |a| && k < |b|
  {
  }

  lemma FindOwnLead(w: World, id: nat, n': NodeState, out: seq<Message>, w': World)
    requires Moves(w, id, n', out, w') && Records(w, w.net.nodes[id], n', out, w')
    requires LeaderOk(w', n') && n'.id == id
    ensures OwnLead(w, w', id, n')
  {
  }

  lemma FindOwnAcks(w: World, id: nat, n': NodeState, out: seq<Message>, w': World, m: Message)
    requires id in w.net.nodes && w.net.nodes[id].id == id
    requires var n := w.net.nodes[id]; LocalEffect(n, n', out) || MessageEffect(n, n', out, m)
    requires AckInside(w, n', out) && Records(w, w.net.nodes[id], n', out, w')
    ensures OwnAcks(w, w', id, n', out)
  {
    hide Merged, Agree, Append, FollowerCommit;
    forall x | x in out && x !in w.net.pool && x.AppendEntriesResp? && x.success
      ensures x.from == id && x.term == n'.currentTerm && x.term in w'.lead
              && Agree(w'.lead[x.term].log, n'.log.entries, x.matchIndex)
    {
      if Beat(w.net.nodes[id], n', out) || Elected(w.net.nodes[id], n', out, m) {
        BroadcastMember(n', x);
      } else if Campaigned(w.net.nodes[id], n', out) {
        VoteRequestMember(n', x);
      } else {
        MergedAnswer(w.net.nodes[id], n', out, m, x);
      }
    }
  }

  lemma MergedAnswer(n: NodeState, n': NodeState, out: seq<Message>, m: Message, x: Message)
    requires LocalEffect(n, n', out) || MessageEffect(n, n', out, m)
    requires x in out && x.AppendEntriesResp? && x.success && out != Broadcast(n') && out != VoteRequests(n')
    ensures Followed(n, n', out, m) && x.from == n.id && x.term == n'.currentTerm && n'.role == Follower
  {
    hide Append, FollowerCommit;
  }

  lemma FollowKeepsHeld(w: World, w': World, n: NodeState, n': NodeState, out: seq<Message>, m: Message)
    requires m.AppendEntries? && Followed(n, n', out, m) && NodeLogOk(w, n) && AppendOk(w, m) && LeadLogOk(w, m.term)
    requires w'.lead == w.lead
    ensures KeepsHeld(w, w', n, n')
  {
    hide Append, Traced, WellFormed, FollowerCommit, Matching;
    if n'.log != n.log {
      var log := w.lead[m.term].log;
      WellFormedIsAligned(n.log.entries);
      WellFormedIsAligned(log);
      TracedMatch(w.lead, n.log.entries, log);
      forall t: nat, k: nat | t in w.lead && t <= n.currentTerm && LeadersHold(w', t, k, n'.currentTerm + 1)
        && Agree(w.lead[t].log, n.log.entries, k)
        ensures Agree(w.lead[t].log, n'.log.entries, k)
      {
        assert Agree(w.lead[t].log, log, k);
        MergeKeepsShared(n.log, log, m, k);
        FollowerCommitKeepsEntries(Append(n.log, m.entries).log, m.leaderCommit);
      }
    }
  }

  /** Keeping or extending the log keeps everything held. */
  lemma ExtendKeepsHeld(w: World, w': World, n: NodeState, n': NodeState)
    requires n.log.entries <= n'.log.entries
    ensures KeepsHeld(w, w', n, n')
  {
    forall t: nat, k: nat | t in w.lead && Agree(w.lead[t].log, n.log.entries, k)
      ensures Agree(w.lead[t].log, n'.log.entries, k)
    {
      PrefixKeepsAgree(w.lead[t].log, n.log.entries, n'.log.entries, k);
    }
  }

  lemma FindKeepsHeld(w: World, id: nat, n': NodeState, out: seq<Message>, w': World, m: Message)
    requires LogInv(w) && id in w.net.nodes && (m.AppendEntries? ==> m in w.net.pool)
    requires var n := w.net.nodes[id]; LocalEffect(n, n', out) || MessageEffect(n, n', out, m)
    requires Records(w, w.net.nodes[id], n', out, w')
    ensures KeepsHeld(w, w', w.net.nodes[id], n')
  {
    hide NodeLogsOk, LeadLogsOk, VoteLogsOk, AppendsOk, Merged, NodeLogOk, LeadLogOk, KeepsHeld, Broadcast,
      VoteRequests;
    var n := w.net.nodes[id];
    if Followed(n, n', out, m) {
      NodeLogFacts(w, id);
      AppendFacts(w, m);
      LeadLogFacts(w, m.term);
      FollowKeepsHeld(w, w', n, n', out, m);
    } else {
      ExtendKeepsHeld(w, w', n, n');
    }
  }

  /** The ballots of this step, and that each was granted to an up-to-date candidate. */
  lemma FindNewBallots(w: World, id: nat, n': NodeState, out: seq<Message>, w': World, m: Message)
    requires Moves(w, id, n', out, w') && w.net.nodes[id].id == id && (m.RequestVote? ==> MessageOk(w, m))
    requires var n := w.net.nodes[id]; LocalEffect(n, n', out) || MessageEffect(n, n', out, m)
    requires Records(w, w.net.nodes[id], n', out, w') && LeaderOk(w, w.net.nodes[id])
    ensures NewBallots(w, w', id, n')
    ensures forall b | b in w'.votes && b !in w.votes :: VoteUpToDate(w', b)
    ensures (forall b | b in w'.votes :: b in w.votes) || SameLeads(w, w')
  {
    hide Append, FollowerCommit, Broadcast, Voters, Merged;
    var n := w.net.nodes[id];
    if Campaigned(n, n', out) || Granted(n, n', out, m) {
      assert SameLeads(w, w');
    } else {
      NoVoteRecorded(w, n, n', out, m);
    }
  }

  lemma EffectKeepsHold(w: World, id: nat, n': NodeState, out: seq<Message>, w': World, m: Message)
    requires HoldInv(w) && ElectionInv(w) && ElectionInv(w') && LogInv(w) && LogInv(w') && Grows(w, w')
    requires Moves(w, id, n', out, w') && Records(w, w.net.nodes[id], n', out, w') && AckInside(w, n', out)
    requires var n := w.net.nodes[id];
             LocalEffect(n, n', out) || (m in w.net.pool && MessageEffect(n, n', out, m))
    ensures HoldInv(w')
  {
    hide HoldersKeep, VotersHeld, VotesUpToDate, AcksOk, LogInv, VoteUpToDate, Agree, KeepsHeld;
    hide Wired, AlignedNet, BallotsPlaced, OneVote, VoteKept, RolesOk, LeadershipsOk, MessagesOk, MessageOk,
      LeaderOk, CandidateOk;
    hide Merged, Broadcast, VoteRequests, RecordVotes, RecordLead, OwnLead, OwnAcks, NewBallots;
    var n := w.net.nodes[id];
    var x := if LocalEffect(n, n', out) then RequestVoteResp(0, 0, 0, false) else m;
    NodeFacts(w, id);
    NodeFacts(w', id);
    if x.RequestVote? { MessageFacts(w, x); }
    FindOwnLead(w, id, n', out, w');
    FindOwnAcks(w, id, n', out, w', x);
    FindKeepsHeld(w, id, n', out, w', x);
    FindNewBallots(w, id, n', out, w', x);
    HoldStep(w, id, n', out, w');
  }
}
