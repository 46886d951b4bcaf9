/** Election Safety: over every run, with crashes and restarts, at most one node ever becomes leader
    in a term.

    A candidate that hears a leader of its own term gives up its vote and may vote again in that
    term, so "one vote per node and term" is not an invariant. It holds while the term has no leader
    and, once it has one, for the voters that elected it (`Bound`); losing a vote takes a message of
    a leader of the term, and none of that leader's voters was ever a candidate of it.
 */
module Election {
  import opened RaftLog
  import opened Quorum
  import opened NodeModel
  import opened NetworkModel
  import opened Effects
  import opened History

  // ---------------------------------------------------------------- the invariant

  ghost predicate Wired(w: World) {
    && WellWired(w.net)
    && forall m | m in w.net.pool :: m.from in w.net.nodes && m.to in w.net.nodes && m.from != m.to
  }

  /** The vote of `v` in term `t` is still binding. */
  ghost predicate Bound(w: World, t: nat, v: nat) {
    t !in w.lead || v in w.lead[t].quorum
  }

  ghost predicate BallotsPlaced(w: World) {
    forall b | b in w.votes ::
      && b.voter in w.net.nodes && b.candidate in w.net.nodes
      && b.term <= w.net.nodes[b.voter].currentTerm
      && Ballot(b.term, b.candidate, b.candidate) in w.votes
  }

  ghost predicate OneVote(w: World) {
    forall b, b' | b in w.votes && b' in w.votes && b.term == b'.term && b.voter == b'.voter
      && Bound(w, b.term, b.voter) ::
      b.candidate == b'.candidate
  }

  ghost predicate VoteKept(w: World) {
    forall b | b in w.votes && b.voter in w.net.nodes && w.net.nodes[b.voter].currentTerm == b.term
      && Bound(w, b.term, b.voter) ::
      w.net.nodes[b.voter].votedFor == b.candidate
  }

  ghost predicate CandidateOk(w: World, n: NodeState) {
    n.role == Candidate ==>
      && Ballot(n.currentTerm, n.id, n.id) in w.votes
      && w.votes[Ballot(n.currentTerm, n.id, n.id)] == n.log.entries
      && (forall v | v in n.votesGranted :: Ballot(n.currentTerm, v, n.id) in w.votes)
      && (n.currentTerm in w.lead ==> w.lead[n.currentTerm].id != n.id)
  }

  ghost predicate LeaderOk(w: World, n: NodeState) {
    n.role == Leader ==> n.currentTerm in w.lead && w.lead[n.currentTerm].id == n.id
  }

  ghost predicate RolesOk(w: World) {
    forall id | id in w.net.nodes :: CandidateOk(w, w.net.nodes[id]) && LeaderOk(w, w.net.nodes[id])
  }

  ghost predicate LeadershipOk(w: World, t: nat)
    requires t in w.lead
  {
    var l := w.lead[t];
    && l.id in w.net.nodes && Ballot(t, l.id, l.id) in w.votes
    && l.quorum <= w.net.nodes.Keys && 2 * |l.quorum| > |w.net.nodes.Keys|
    && forall v | v in l.quorum :: Ballot(t, v, l.id) in w.votes
  }

  ghost predicate LeadershipsOk(w: World) {
    forall t | t in w.lead :: LeadershipOk(w, t)
  }

  ghost predicate MessageOk(w: World, m: Message) {
    match m
    case RequestVote(from, _, term, li, lt) =>
      var b := Ballot(term, from, from);
      b in w.votes && LastIndex(w.votes[b]) == li && LastTerm(w.votes[b]) == lt
    case RequestVoteResp(from, to, term, granted) => granted ==> Ballot(term, from, to) in w.votes
    case AppendEntries(from, _, term, _, _, _, _) => term in w.lead && w.lead[term].id == from
    case AppendEntriesResp(_, _, _, _, _) => true
  }

  ghost predicate MessagesOk(w: World) {
    forall m | m in w.net.pool :: MessageOk(w, m)
  }

  ghost predicate ElectionInv(w: World) {
    && Wired(w) && AlignedNet(w.net)
    && BallotsPlaced(w) && OneVote(w) && VoteKept(w) && RolesOk(w) && LeadershipsOk(w) && MessagesOk(w)
  }

  // ---------------------------------------------------------------- what every effect keeps

  ghost predicate VotesGrow(w: World, w': World) {
    forall b | b in w.votes :: b in w'.votes && w'.votes[b] == w.votes[b]
  }

  /** The leaderships keep their holder and voters (their logs may have grown). */
  ghost predicate LeadsKept(w: World, w': World) {
    forall t | t in w.lead :: t in w'.lead && w'.lead[t].id == w.lead[t].id && w'.lead[t].quorum == w.lead[t].quorum
  }

  ghost predicate SameLeads(w: World, w': World) {
    LeadsKept(w, w') && w'.lead.Keys == w.lead.Keys
  }

  lemma KeepMessages(w: World, id: nat, n': NodeState, out: seq<Message>, w': World)
    requires MessagesOk(w) && Moves(w, id, n', out, w') && VotesGrow(w, w') && LeadsKept(w, w')
    requires forall m | m in out :: MessageOk(w', m)
    ensures MessagesOk(w')
  {
    forall m | m in w'.net.pool ensures MessageOk(w', m) {
      if m !in out { assert MessageOk(w, m); }
    }
  }

  lemma KeepLeaderships(w: World, w': World)
    requires LeadershipsOk(w) && VotesGrow(w, w') && SameLeads(w, w') && w'.net.nodes.Keys == w.net.nodes.Keys
    ensures LeadershipsOk(w')
  {
    forall t | t in w'.lead ensures LeadershipOk(w', t) { assert LeadershipOk(w, t); }
  }

  lemma KeepRoles(w: World, id: nat, n': NodeState, out: seq<Message>, w': World)
    requires RolesOk(w) && Wired(w) && Moves(w, id, n', out, w') && VotesGrow(w, w') && LeadsKept(w, w')
    requires forall t | t in w'.lead && t !in w.lead :: w'.lead[t].id == id
    requires CandidateOk(w', n') && LeaderOk(w', n')
    ensures RolesOk(w')
  {
    forall i | i in w'.net.nodes ensures CandidateOk(w', w'.net.nodes[i]) && LeaderOk(w', w'.net.nodes[i]) {
      if i != id { assert CandidateOk(w, w.net.nodes[i]) && LeaderOk(w, w.net.nodes[i]); }
    }
  }

  /** What the invariant says of one node and of one message. */
  lemma NodeFacts(w: World, id: nat)
    requires ElectionInv(w) && id in w.net.nodes
    ensures CandidateOk(w, w.net.nodes[id]) && LeaderOk(w, w.net.nodes[id])
    ensures w.net.nodes[id].id == id && id != 0 && Aligned(w.net.nodes[id].log.entries)
    ensures Distinct(w.net.nodes[id].peers) && Elements(w.net.nodes[id].peers) == w.net.nodes.Keys - {id}
            && WellWired(w.net)
  {
  }

  lemma MessageFacts(w: World, m: Message)
    requires ElectionInv(w) && m in w.net.pool
    ensures MessageOk(w, m) && m.from in w.net.nodes && m.to in w.net.nodes && m.from != m.to && WellIndexed(m)
  {
  }

  // ---------------------------------------------------------------- effects that cast no vote

  /** The vote of the moving node is kept, or the node has moved to a later term, or its vote there is
      not binding. */
  ghost predicate VoteMove(w: World, n: NodeState, n': NodeState) {
    && n'.currentTerm >= n.currentTerm
    && (n'.currentTerm == n.currentTerm ==> n'.votedFor == n.votedFor || !Bound(w, n.currentTerm, n.id))
  }

  /** Whoever elected the leader of a term was no other candidate of that term: the vote a candidate
      gives up on hearing that leader binds nobody. */
  lemma LostVoteIsUnbound(w: World, id: nat)
    requires OneVote(w) && RolesOk(w) && LeadershipsOk(w)
    requires id in w.net.nodes && w.net.nodes[id].role != Follower && w.net.nodes[id].id == id
    requires var t := w.net.nodes[id].currentTerm; t in w.lead && w.lead[t].id != id
    ensures !Bound(w, w.net.nodes[id].currentTerm, id)
  {
    var n := w.net.nodes[id];
    var t := n.currentTerm;
    assert CandidateOk(w, n) && LeaderOk(w, n) && LeadershipOk(w, t);
    assert Ballot(t, id, id) in w.votes;
  }

  lemma QuietKeepsVotes(w: World, id: nat, n': NodeState, out: seq<Message>, w': World)
    requires BallotsPlaced(w) && VoteKept(w) && Moves(w, id, n', out, w') && w'.votes == w.votes && SameLeads(w, w')
    requires w.net.nodes[id].id == id && VoteMove(w, w.net.nodes[id], n')
    ensures BallotsPlaced(w') && VoteKept(w')
  {
    forall b | b in w'.votes && b.voter in w'.net.nodes && w'.net.nodes[b.voter].currentTerm == b.term
      && Bound(w', b.term, b.voter)
      ensures w'.net.nodes[b.voter].votedFor == b.candidate
    {
      assert Bound(w, b.term, b.voter);
    }
  }

  lemma QuietKeepsOneVote(w: World, w': World)
    requires OneVote(w) && w'.votes == w.votes && SameLeads(w, w')
    ensures OneVote(w')
  {
    forall b, b' | b in w'.votes && b' in w'.votes && b.term == b'.term && b.voter == b'.voter
      && Bound(w', b.term, b.voter)
      ensures b.candidate == b'.candidate
    {
      assert Bound(w, b.term, b.voter);
    }
  }

  lemma QuietKeepsElection(w: World, id: nat, n': NodeState, out: seq<Message>, w': World)
    requires ElectionInv(w) && Moves(w, id, n', out, w')
    requires Wired(w') && AlignedNet(w'.net)
    requires w'.votes == w.votes && SameLeads(w, w') && VoteMove(w, w.net.nodes[id], n')
    requires CandidateOk(w', n') && LeaderOk(w', n')
    requires forall m | m in out :: MessageOk(w', m)
    ensures ElectionInv(w')
  {
    hide Wired, AlignedNet, BallotsPlaced, OneVote, VoteKept, RolesOk, LeadershipsOk, MessagesOk, MessageOk,
      CandidateOk, LeaderOk;
    NodeFacts(w, id);
    KeepMessages(w, id, n', out, w');
    KeepLeaderships(w, w');
    KeepRoles(w, id, n', out, w');
    QuietKeepsVotes(w, id, n', out, w');
    QuietKeepsOneVote(w, w');
  }

  // ---------------------------------------------------------------- effects that cast a vote

  /** Node `id` casts its vote of term `n'.currentTerm` for `c`: it had not reached that term, or it
      had no vote there, or it already voted for `c`. */
  ghost predicate Casts(w: World, id: nat, n': NodeState, w': World, c: nat)
    requires id in w.net.nodes
  {
    var n := w.net.nodes[id];
    && c in w.net.nodes
    && w'.votes == Cast(w.votes, Ballot(n'.currentTerm, id, c), n.log.entries)
    && SameLeads(w, w')
    && Ballot(n'.currentTerm, c, c) in w'.votes
    && n'.votedFor == c && n'.currentTerm >= n.currentTerm
    && (n'.currentTerm == n.currentTerm ==> n.votedFor == 0 || n.votedFor == c)
  }

  /** Every binding ballot of the voter in the new ballot's term names the same candidate. */
  lemma CastAgrees(w: World, id: nat, n': NodeState, w': World, c: nat, x: Ballot)
    requires BallotsPlaced(w) && VoteKept(w) && 0 !in w.net.nodes && id in w.net.nodes && Casts(w, id, n', w', c)
    requires x in w'.votes && x.term == n'.currentTerm && x.voter == id && Bound(w', x.term, x.voter)
    ensures x.candidate == c
  {
    assert Bound(w, x.term, x.voter);
    assert x in w.votes ==> x.candidate in w.net.nodes && x.term <= w.net.nodes[id].currentTerm;
  }

  lemma CastKeepsVotes(w: World, id: nat, n': NodeState, out: seq<Message>, w': World, c: nat)
    requires BallotsPlaced(w) && VoteKept(w) && 0 !in w.net.nodes
    requires Moves(w, id, n', out, w') && Casts(w, id, n', w', c)
    ensures BallotsPlaced(w') && VoteKept(w')
  {
    CastKeepsBallots(w, id, n', out, w', c);
    hide BallotsPlaced;
    forall b | b in w'.votes && b.voter in w'.net.nodes && w'.net.nodes[b.voter].currentTerm == b.term
      && Bound(w', b.term, b.voter)
      ensures w'.net.nodes[b.voter].votedFor == b.candidate
    {
      if b.voter == id {
        assert BallotsPlaced(w);
        CastAgrees(w, id, n', w', c, b);
      } else {
        assert Bound(w, b.term, b.voter);
      }
    }
  }

  lemma CastKeepsBallots(w: World, id: nat, n': NodeState, out: seq<Message>, w': World, c: nat)
    requires BallotsPlaced(w) && Moves(w, id, n', out, w') && Casts(w, id, n', w', c)
    ensures BallotsPlaced(w')
  {
  }

  lemma CastKeepsOneVote(w: World, id: nat, n': NodeState, w': World, c: nat)
    requires BallotsPlaced(w) && VoteKept(w) && OneVote(w) && 0 !in w.net.nodes && id in w.net.nodes
             && Casts(w, id, n', w', c)
    ensures OneVote(w')
  {
    forall x, y | x in w'.votes && y in w'.votes && x.term == y.term && x.voter == y.voter && Bound(w', x.term, x.voter)
      ensures x.candidate == y.candidate
    {
      if x.voter == id && x.term == n'.currentTerm {
        CastAgrees(w, id, n', w', c, x);
        CastAgrees(w, id, n', w', c, y);
      } else {
        assert Bound(w, x.term, x.voter);
      }
    }
  }

  lemma CastKeepsElection(w: World, id: nat, n': NodeState, out: seq<Message>, w': World, c: nat)
    requires ElectionInv(w) && Moves(w, id, n', out, w') && Casts(w, id, n', w', c)
    requires Wired(w') && AlignedNet(w'.net)
    requires CandidateOk(w', n') && LeaderOk(w', n')
    requires forall m | m in out :: MessageOk(w', m)
    ensures ElectionInv(w')
  {
    hide AlignedNet, BallotsPlaced, OneVote, VoteKept, RolesOk, LeadershipsOk, MessagesOk, MessageOk, CandidateOk,
      LeaderOk;
    KeepMessages(w, id, n', out, w');
    KeepLeaderships(w, w');
    KeepRoles(w, id, n', out, w');
    CastKeepsVotes(w, id, n', out, w', c);
    CastKeepsOneVote(w, id, n', w', c);
  }

  // ---------------------------------------------------------------- winning

  /** The voters a winning candidate counted are a majority of the cluster, each with a ballot. */
  lemma WinnersVoters(w: World, id: nat, n': NodeState, m: Message)
    requires WellWired(w.net) && id in w.net.nodes && MessageOk(w, m) && m.to == id && CandidateOk(w, w.net.nodes[id])
    requires CountsVote(w.net.nodes[id], n', m) && Wins(id, w.net.nodes[id].peers, n'.votesGranted)
    ensures var q := Voters(id, w.net.nodes[id].peers, n'.votesGranted);
            && q <= w.net.nodes.Keys && 2 * |q| > |w.net.nodes.Keys|
            && forall v | v in q :: Ballot(w.net.nodes[id].currentTerm, v, id) in w.votes
  {
    var n := w.net.nodes[id];
    WinIsMajority(id, n.peers, n'.votesGranted);
    assert Elements(n.peers) + {id} == w.net.nodes.Keys;
  }

  /** The moment a candidate wins, its term has no leader yet. */
  lemma FirstLeader(w: World, id: nat, n': NodeState, m: Message)
    requires WellWired(w.net) && id in w.net.nodes && MessageOk(w, m) && m.to == id && CandidateOk(w, w.net.nodes[id])
    requires CountsVote(w.net.nodes[id], n', m) && Wins(id, w.net.nodes[id].peers, n'.votesGranted)
    requires OneVote(w) && LeadershipsOk(w)
    ensures w.net.nodes[id].currentTerm !in w.lead
  {
    var n := w.net.nodes[id];
    var t := n.currentTerm;
    WinnersVoters(w, id, n', m);
    if t in w.lead {
      assert LeadershipOk(w, t);
      var v := Pigeonhole(Voters(id, n.peers, n'.votesGranted), w.lead[t].quorum, w.net.nodes.Keys);
      var x, y := Ballot(t, v, id), Ballot(t, v, w.lead[t].id);
      assert x in w.votes && y in w.votes && Bound(w, x.term, x.voter);
    }
  }

  lemma WinKeepsElection(w: World, id: nat, n': NodeState, out: seq<Message>, w': World, m: Message)
    requires ElectionInv(w) && Moves(w, id, n', out, w') && m in w.net.pool && m.to == id
    requires Wired(w') && AlignedNet(w'.net)
    requires Elected(w.net.nodes[id], n', out, m) && Records(w, w.net.nodes[id], n', out, w')
    ensures ElectionInv(w')
  {
    hide Wired, AlignedNet, BallotsPlaced, OneVote, VoteKept, RolesOk, LeadershipsOk, MessagesOk, Broadcast,
      FreshIndexes, Voters, Wins;
    var n := w.net.nodes[id];
    NodeFacts(w, id);
    MessageFacts(w, m);
    FirstLeader(w, id, n', m);
    WinnersVoters(w, id, n', m);
    NoVoteRecorded(w, n, n', out, m);
    forall x | x in out ensures MessageOk(w', x) { BroadcastMember(n', x); }
    KeepMessages(w, id, n', out, w');
    KeepRoles(w, id, n', out, w');
    WinKeepsLeaderships(w, id, n', out, w');
    WinKeepsVotes(w, id, n', out, w');
  }

  lemma WinKeepsLeaderships(w: World, id: nat, n': NodeState, out: seq<Message>, w': World)
    requires LeadershipsOk(w) && Moves(w, id, n', out, w') && w'.votes == w.votes
    requires w'.lead == w.lead[n'.currentTerm := Leadership(id, Voters(id, n'.peers, n'.votesGranted), n'.log.entries)]
    requires var q := Voters(id, n'.peers, n'.votesGranted);
             && q <= w.net.nodes.Keys && 2 * |q| > |w.net.nodes.Keys|
             && forall v | v in q :: Ballot(n'.currentTerm, v, id) in w.votes
    requires Ballot(n'.currentTerm, id, id) in w.votes
    ensures LeadershipsOk(w')
  {
    assert w'.net.nodes.Keys == w.net.nodes.Keys;
    forall u | u in w'.lead ensures LeadershipOk(w', u) {
      if u != n'.currentTerm { assert LeadershipOk(w, u); }
    }
  }

  lemma WinKeepsBallots(w: World, id: nat, n': NodeState, out: seq<Message>, w': World)
    requires BallotsPlaced(w) && VoteKept(w)
    requires Moves(w, id, n', out, w') && SameBallot(w.net.nodes[id], n')
    requires w'.votes == w.votes && LeadsKept(w, w')
    ensures BallotsPlaced(w') && VoteKept(w')
  {
    assert BallotsPlaced(w') by { hide VoteKept, Bound, LeadsKept; }
    hide BallotsPlaced;
    forall b | b in w.votes && Bound(w', b.term, b.voter) ensures Bound(w, b.term, b.voter) {}
  }

  lemma WinKeepsVotes(w: World, id: nat, n': NodeState, out: seq<Message>, w': World)
    requires BallotsPlaced(w) && OneVote(w) && VoteKept(w)
    requires Moves(w, id, n', out, w') && SameBallot(w.net.nodes[id], n')
    requires w'.votes == w.votes && LeadsKept(w, w')
    ensures BallotsPlaced(w') && OneVote(w') && VoteKept(w')
  {
    WinKeepsBallots(w, id, n', out, w');
    hide BallotsPlaced, VoteKept, Moves;
    forall b, b' | b in w'.votes && b' in w'.votes && b.term == b'.term && b.voter == b'.voter
      && Bound(w', b.term, b.voter)
      ensures b.candidate == b'.candidate
    {
      assert Bound(w, b.term, b.voter);
    }
  }

  // ---------------------------------------------------------------- one event

  lemma MovesKeepsWiring(w: World, e: Event, w': World)
    requires ElectionInv(w) && Enabled(w.net, e) && w' == Advance(w, e)
    ensures Wired(w') && AlignedNet(w'.net)
    ensures Moves(w, Target(e), React(w.net.nodes[Target(e)], e).node, React(w.net.nodes[Target(e)], e).out, w')
  {
    var n := w.net.nodes[Target(e)];
    ApplyKeepsAligned(w.net, e);
    ReactAddresses(n, e);
    ReactKeepsIdentity(n, e);
    assert w'.net.nodes.Keys == w.net.nodes.Keys;
    assert forall p | p in n.peers :: p in Elements(n.peers);
  }

  lemma NoVoteRecorded(w: World, n: NodeState, n': NodeState, out: seq<Message>, m: Message)
    requires || Calm(n, n', out) || Bumped(n, n', out) || Beat(n, n', out) || Proposed(n, n', out)
             || Rebooted(n, n', out)
             || Tallied(n, n', out, m) || Elected(n, n', out, m) || Followed(n, n', out, m) || Counted(n, n', out, m)
    ensures RecordVotes(w.votes, n, n', out) == w.votes
  {
    if |out| == 1 {
      assert out[0] in out;
      if out == Broadcast(n') { BroadcastMember(n', out[0]); }
    }
  }

  lemma LocalKeepsElection(w: World, id: nat, n': NodeState, out: seq<Message>, w': World)
    requires ElectionInv(w) && Moves(w, id, n', out, w') && Wired(w') && AlignedNet(w'.net)
    requires LocalEffect(w.net.nodes[id], n', out) && Records(w, w.net.nodes[id], n', out, w')
    ensures ElectionInv(w')
  {
    hide Wired, AlignedNet, BallotsPlaced, OneVote, VoteKept, RolesOk, LeadershipsOk, MessagesOk;
    var n := w.net.nodes[id];
    NodeFacts(w, id);
    if Campaigned(n, n', out) {
      CampaignKeepsElection(w, id, n', out, w');
    } else {
      NoVoteRecorded(w, n, n', out, RequestVote(0, 0, 0, 0, 0));
      forall m | m in out ensures MessageOk(w', m) {
        if Beat(n, n', out) { BroadcastMember(n', m); }
      }
      QuietKeepsElection(w, id, n', out, w');
    }
  }

  /** A term the node has not reached holds no ballot of it, nor a leadership of its own. */
  lemma FreshTerm(w: World, id: nat, t: nat)
    requires ElectionInv(w) && id in w.net.nodes && t > w.net.nodes[id].currentTerm
    ensures Ballot(t, id, id) !in w.votes && (t in w.lead ==> w.lead[t].id != id)
  {
    if t in w.lead { assert LeadershipOk(w, t); }
  }

  lemma CampaignKeepsElection(w: World, id: nat, n': NodeState, out: seq<Message>, w': World)
    requires ElectionInv(w) && Moves(w, id, n', out, w') && Wired(w') && AlignedNet(w'.net)
    requires Campaigned(w.net.nodes[id], n', out) && Records(w, w.net.nodes[id], n', out, w')
    ensures ElectionInv(w')
  {
    hide Wired, AlignedNet, BallotsPlaced, OneVote, VoteKept, RolesOk, LeadershipsOk, MessagesOk;
    NodeFacts(w, id);
    FreshTerm(w, id, n'.currentTerm);
    forall m | m in out ensures MessageOk(w', m) {
      var i :| 0 <= i < |out| && out[i] == m;
    }
    CastKeepsElection(w, id, n', out, w', id);
  }

  lemma GrantKeepsElection(w: World, id: nat, n': NodeState, out: seq<Message>, w': World, m: Message)
    requires ElectionInv(w) && Moves(w, id, n', out, w') && Wired(w') && AlignedNet(w'.net)
    requires m in w.net.pool && m.to == id
    requires Granted(w.net.nodes[id], n', out, m) && Records(w, w.net.nodes[id], n', out, w')
    ensures ElectionInv(w')
  {
    hide Wired, AlignedNet, BallotsPlaced, OneVote, VoteKept, RolesOk, LeadershipsOk, MessagesOk;
    var n := w.net.nodes[id];
    NodeFacts(w, id);
    MessageFacts(w, m);
    assert n'.role == Candidate ==> n'.currentTerm == n.currentTerm;
    assert w'.votes == Cast(w.votes, Ballot(m.term, id, m.from), n.log.entries);
    CastKeepsElection(w, id, n', out, w', m.from);
  }

  lemma ReplyKeepsElection(w: World, id: nat, n': NodeState, out: seq<Message>, w': World, m: Message)
    requires ElectionInv(w) && Moves(w, id, n', out, w') && Wired(w') && AlignedNet(w'.net)
    requires m in w.net.pool && m.to == id && Records(w, w.net.nodes[id], n', out, w')
    requires var n := w.net.nodes[id]; Tallied(n, n', out, m) || Counted(n, n', out, m)
    ensures ElectionInv(w')
  {
    hide Wired, AlignedNet, BallotsPlaced, OneVote, VoteKept, RolesOk, LeadershipsOk, MessagesOk;
    var n := w.net.nodes[id];
    NodeFacts(w, id);
    MessageFacts(w, m);
    NoVoteRecorded(w, n, n', out, m);
    QuietKeepsElection(w, id, n', out, w');
  }

  lemma FollowKeepsElection(w: World, id: nat, n': NodeState, out: seq<Message>, w': World, m: Message)
    requires ElectionInv(w) && Moves(w, id, n', out, w') && Wired(w') && AlignedNet(w'.net)
    requires m in w.net.pool && m.to == id && Records(w, w.net.nodes[id], n', out, w')
    requires Followed(w.net.nodes[id], n', out, m)
    ensures ElectionInv(w')
  {
    hide Wired, AlignedNet, BallotsPlaced, OneVote, VoteKept, RolesOk, LeadershipsOk, MessagesOk;
    var n := w.net.nodes[id];
    NodeFacts(w, id);
    MessageFacts(w, m);
    NoVoteRecorded(w, n, n', out, m);
    if n'.currentTerm == n.currentTerm && n'.votedFor != n.votedFor { LostVoteIsUnbound(w, id); }
    QuietKeepsElection(w, id, n', out, w');
  }

  lemma AdvanceKeepsElection(w: World, e: Event)
    requires ElectionInv(w)
    ensures ElectionInv(Advance(w, e))
  {
    if Enabled(w.net, e) {
      var id, w' := Target(e), Advance(w, e);
      var n := w.net.nodes[id];
      var o := React(n, e);
      MovesKeepsWiring(w, e, w');
      Classify(n, e);
      if LocalEffect(n, o.node, o.out) {
        LocalKeepsElection(w, id, o.node, o.out, w');
      } else if Granted(n, o.node, o.out, e.m) {
        GrantKeepsElection(w, id, o.node, o.out, w', e.m);
      } else if Elected(n, o.node, o.out, e.m) {
        WinKeepsElection(w, id, o.node, o.out, w', e.m);
      } else if Followed(n, o.node, o.out, e.m) {
        FollowKeepsElection(w, id, o.node, o.out, w', e.m);
      } else {
        ReplyKeepsElection(w, id, o.node, o.out, w', e.m);
      }
    }
  }

  // ---------------------------------------------------------------- every run

  lemma {:induction false} ElectionHolds(init: Net, es: seq<Event>)
    requires Initial(init) && WellWired(init)
    ensures ElectionInv(Chronicle(init, es))
  {
    if es == [] {
      var w := Start(init);
      forall id | id in init.nodes
        ensures Aligned(init.nodes[id].log.entries) && CandidateOk(w, init.nodes[id]) && LeaderOk(w, init.nodes[id]) {
        var draw: Draw :| init.nodes[id] == InitNode(id, init.nodes[id].peers, draw);
      }
    } else {
      ElectionHolds(init, es[..|es| - 1]);
      AdvanceKeepsElection(Chronicle(init, es[..|es| - 1]), es[|es| - 1]);
    }
  }

  // ---------------------------------------------------------------- Election Safety

  /** The history only grows: a leadership keeps its holder and voters, and its log only extends. */
  ghost predicate Remembers(w: World, w': World) {
    && VotesGrow(w, w') && LeadsKept(w, w')
    && w.net.pool <= w'.net.pool
  }

  lemma NoSecondLeader(w: World, id: nat, n': NodeState, m: Message)
    requires ElectionInv(w) && m in w.net.pool && m.to == id && id in w.net.nodes
    requires CountsVote(w.net.nodes[id], n', m) && Wins(id, w.net.nodes[id].peers, n'.votesGranted)
    ensures w.net.nodes[id].currentTerm !in w.lead
  {
    hide AlignedNet, BallotsPlaced, OneVote, VoteKept, RolesOk, LeadershipsOk, MessagesOk, CountsVote, Wins;
    NodeFacts(w, id);
    MessageFacts(w, m);
    FirstLeader(w, id, n', m);
  }

  lemma AdvanceRemembers(w: World, e: Event)
    requires ElectionInv(w)
    ensures Remembers(w, Advance(w, e))
  {
    hide React, ElectionInv, RecordLead, RecordVotes;
    if Enabled(w.net, e) {
      var n := w.net.nodes[Target(e)];
      var o := React(n, e);
      RecordedVotesGrow(w.votes, n, o.node, o.out);
      LeadIsKept(w, e);
    }
  }

  lemma RecordedVotesGrow(votes: map<Ballot, Entries>, n: NodeState, n': NodeState, out: seq<Message>)
    ensures forall b | b in votes ::
            b in RecordVotes(votes, n, n', out) && RecordVotes(votes, n, n', out)[b] == votes[b]
  {
  }

  lemma LeadIsKept(w: World, e: Event)
    requires ElectionInv(w) && Enabled(w.net, e)
    ensures LeadsKept(w, Advance(w, e))
  {
    hide React, ElectionInv, Broadcast, VoteRequests, RecordVotes, Wins, ScanCommit, Append, FreshIndexes,
      CandidateOk, Merged;
    var id := Target(e);
    var n := w.net.nodes[id];
    var o := React(n, e);
    NodeFacts(w, id);
    Classify(n, e);
    if o.node.role == Leader && n.role != Leader {
      MessageFacts(w, e.m);
      NoSecondLeader(w, id, o.node, e.m);
    }
  }

  lemma {:induction false} RunRemembers(init: Net, es: seq<Event>, i: nat)
    requires Initial(init) && WellWired(init) && i <= |es|
    ensures Remembers(Chronicle(init, es[..i]), Chronicle(init, es))
    decreases |es|
  {
    if i == |es| {
      assert es[..i] == es;
    } else {
      var most := es[..|es| - 1];
      RunRemembers(init, most, i);
      assert most[..i] == es[..i];
      ElectionHolds(init, most);
      AdvanceRemembers(Chronicle(init, most), es[|es| - 1]);
    }
  }

  /** In every run, a vote changes inside its term exactly when a live candidate is handed an AppendEntries
      of that term: a leader never is, and the term then has another leader already. */
  lemma ReachableVoteLostIff(init: Net, es: seq<Event>, e: Event)
    requires Initial(init) && WellWired(init) && Enabled(Exec(init, es), e)
    requires Exec(init, es).nodes[Target(e)].votedFor != 0
    ensures var n := Exec(init, es).nodes[Target(e)]; var n' := Apply(Exec(init, es), e).nodes[Target(e)];
            && (n'.currentTerm == n.currentTerm && n'.votedFor != n.votedFor <==>
                !n.crashed && n.role == Candidate && e.DeliverEvent? && e.m.AppendEntries? && e.m.term == n.currentTerm)
            && (n'.currentTerm == n.currentTerm && n'.votedFor != n.votedFor ==>
                var lead := Chronicle(init, es).lead; n.currentTerm in lead && lead[n.currentTerm].id != n.id)
  {
    hide React, ElectionInv, Initial, WellWired, CandidateOk, Representable;
    var w := Chronicle(init, es);
    ChronicleIsExec(init, es);
    ElectionHolds(init, es);
    NodeFacts(w, Target(e));
    VoteLostIff(w.net.nodes[Target(e)], e);
    if e.DeliverEvent? { MessageFacts(w, e.m); }
  }

  /** Whoever is leader at some point of a run is the one leader its term ever has. */
  lemma LeaderIsRecorded(init: Net, es: seq<Event>, i: nat, id: nat, t: nat)
    requires Initial(init) && WellWired(init) && i <= |es| && LeaderAt(Exec(init, es[..i]), id, t)
    ensures var w := Chronicle(init, es); t in w.lead && w.lead[t].id == id
  {
    var w := Chronicle(init, es[..i]);
    ChronicleIsExec(init, es[..i]);
    ElectionHolds(init, es[..i]);
    NodeFacts(w, id);
    RunRemembers(init, es, i);
  }

  /** Election Safety: two nodes that are leaders of the same term, at whatever points of a run, are
      the same node. */
  lemma ElectionSafety(init: Net, es: seq<Event>, i: nat, j: nat, a: nat, b: nat, t: nat)
    requires Initial(init) && WellWired(init) && i <= |es| && j <= |es|
    requires LeaderAt(Exec(init, es[..i]), a, t) && LeaderAt(Exec(init, es[..j]), b, t)
    ensures a == b
  {
    LeaderIsRecorded(init, es, i, a, t);
    LeaderIsRecorded(init, es, j, b, t);
  }
}
