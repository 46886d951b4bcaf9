/** What an AppendEntries does to a follower whose log matches the leader's: the two are identical up
    to any index at which their terms coincide. */
module Merging {
  import opened RaftLog
  import opened NodeModel

  /** Equal terms at an index mean equal logs through it. */
  ghost predicate Matching(a: seq<Entry>, b: seq<Entry>) {
    forall i | 0 <= i < |a| && i < |b| && a[i].term == b[i].term :: Agree(a, b, i)
  }

  /** The batch of an AppendEntries is a stretch of the leader's log. */
  ghost predicate Stretch(m: Message, log: Entries)
    requires m.AppendEntries?
  {
    && m.prevLogIndex + |m.entries| < |log|
    && m.prevLogTerm == log[m.prevLogIndex].term
    && m.entries == log[m.prevLogIndex + 1..m.prevLogIndex + 1 + |m.entries|]
  }

  lemma StretchFollows(m: Message, log: Entries)
    requires m.AppendEntries? && Stretch(m, log) && Aligned(log)
    ensures Follows(m.entries, m.prevLogIndex)
  {
  }

  lemma StretchExtends(m: Message, log: Entries, log': Entries)
    requires m.AppendEntries? && Stretch(m, log) && log <= log'
    ensures Stretch(m, log')
  {
    assert log == log'[..|log|];
  }

  /** What a leader sends is a stretch of its log. */
  lemma AppendForIsStretch(n: NodeState, p: nat)
    requires Aligned(n.log.entries)
    ensures Stretch(AppendFor(n, p), n.log.entries)
  {
    var es, ni := n.log.entries, Get(n.nextIndex, p);
    assert LastIndex(es) == |es| - 1 && es[0].term == 0;
    hide Aligned;
    if ni <= LastIndex(es) {
      TailOf(es, ni);
      hide Slice;
      var m := AppendFor(n, p);
      assert m.entries == es[m.prevLogIndex + 1..|es|];
      assert m.prevLogIndex + 1 + |m.entries| == |es|;
    } else {
      var m := AppendFor(n, p);
      assert m.entries == [] && m.prevLogIndex < |es|;
      assert es[m.prevLogIndex + 1..m.prevLogIndex + 1] == [];
    }
  }

  /** The slice from an index of the log to its end. */
  lemma TailOf(es: Entries, ni: nat)
    requires LastIndex(es) == |es| - 1 && ni <= LastIndex(es)
    ensures ni >= 1 ==> Slice(es, ni, LastIndex(es) + 1) == es[ni..|es|]
    ensures ni == 0 ==> Slice(es, ni, LastIndex(es) + 1) == es[1..|es|]
  {
    if |es| == 1 { assert es[1..|es|] == []; }
  }

  /** What a leader sends reaches its last index exactly when the peer's next index is not beyond the
      end of the log; otherwise the fallback to index 0 sends nothing at all. */
  lemma AppendReachesLast(n: NodeState, p: nat)
    requires Aligned(n.log.entries)
    ensures var m, last := AppendFor(n, p), LastIndex(n.log.entries);
            && (m.prevLogIndex + |m.entries| == last <==> Get(n.nextIndex, p) <= last + 1 || last == 0)
            && (Get(n.nextIndex, p) > last + 1 ==> m.prevLogIndex == 0 && m.entries == [])
  {
    var es, ni := n.log.entries, Get(n.nextIndex, p);
    if ni <= LastIndex(es) {
      var lo := if ni < 1 then 1 else ni;
      assert Slice(es, ni, LastIndex(es) + 1) == es[lo..];
    }
  }

  /** A matching previous entry means the whole prefix before it matches. */
  lemma PrevAgrees(es: Entries, log: Entries, m: Message)
    requires m.AppendEntries? && Stretch(m, log) && Aligned(es) && Aligned(log) && Matching(es, log)
    requires MatchesPrevLogTerm(es, m.prevLogIndex, m.prevLogTerm)
    ensures m.prevLogIndex < |es| && Agree(es, log, m.prevLogIndex)
  {
    assert es[0].term == log[0].term;
  }

  /** As far as the batch is held term for term, the follower agrees with the leader. */
  lemma HeldPrefixAgrees(es: Entries, log: Entries, m: Message, d: nat)
    requires m.AppendEntries? && Stretch(m, log) && Follows(m.entries, m.prevLogIndex) && Matching(es, log)
    requires m.prevLogIndex < |es| && Agree(es, log, m.prevLogIndex) && DivergesAt(es, m.entries, d)
    ensures Agree(es, log, m.prevLogIndex + d)
  {
    if d > 0 {
      assert m.entries[d - 1].index == m.prevLogIndex + d;
      assert m.entries[d - 1] == log[m.prevLogIndex + d];
    }
  }

  /** Merging leaves the follower's log unchanged or makes it a prefix of the leader's log, and either
      way it then agrees with the leader through the end of the batch. */
  lemma MergeYieldsLeaderPrefix(l: LogState, log: Entries, m: Message) returns (d: nat)
    requires m.AppendEntries? && Stretch(m, log) && Aligned(l.entries) && Aligned(log) && Matching(l.entries, log)
    requires MatchesPrevLogTerm(l.entries, m.prevLogIndex, m.prevLogTerm)
    ensures var r, end := Append(l, m.entries), m.prevLogIndex + |m.entries|;
            && r.error == None && Agree(r.log.entries, log, end)
            && (r.log == l || r.log.entries == log[..end + 1])
            && DivergesAt(l.entries, m.entries, d)
            && (d == |m.entries| ==> r.log == l)
            && (d < |m.entries| ==>
                  && m.prevLogIndex + 1 + d <= |l.entries|
                  && r.log.commitIndex
                     == (if m.prevLogIndex + 1 + d == |l.entries| || l.commitIndex <= m.prevLogIndex + d
                                           then l.commitIndex else m.prevLogIndex + d))
  {
    hide Matching;
    var prev, batch := m.prevLogIndex, m.entries;
    StretchFollows(m, log);
    PrevAgrees(l.entries, log, m);
    FollowsIsContiguous(batch, prev);
    d := MergeResult(l, batch, prev, 0);
    HeldPrefixAgrees(l.entries, log, m, d);
    if d < |batch| {
      var r := l.entries[..prev + 1 + d] + batch[d..];
      assert l.entries[..prev + 1 + d] == log[..prev + 1 + d];
      assert batch[d..] == log[prev + 1 + d..prev + 1 + |batch|];
      assert r == log[..prev + 1 + |batch|];
    }
  }

  /** Merging a leader's entries keeps what the follower already shares with that leader, and does not
      touch a commit index inside it. */
  lemma MergeKeepsShared(l: LogState, log: Entries, m: Message, k: nat)
    requires m.AppendEntries? && Stretch(m, log) && Aligned(l.entries) && Aligned(log) && Matching(l.entries, log)
    requires MatchesPrevLogTerm(l.entries, m.prevLogIndex, m.prevLogTerm)
    requires Agree(l.entries, log, k)
    ensures var r := Append(l, m.entries).log;
            Agree(r.entries, log, k) && (l.commitIndex <= k ==> r.commitIndex == l.commitIndex)
  {
    hide Matching;
    var d := MergeYieldsLeaderPrefix(l, log, m);
    var prev, batch := m.prevLogIndex, m.entries;
    StretchFollows(m, log);
    if d < |batch| {
      assert batch[d].index == prev + 1 + d && batch[d] == log[prev + 1 + d];
      AgreeAt(l.entries, log, k, if k > prev + d then prev + 1 + d else k);
      assert k <= prev + d;
      var r := Append(l, batch).log;
      AgreeAt(r.entries, log, prev + |batch|, k);
    }
  }

  // ---------------------------------------------------------------- when an acknowledgement is truthful

  /** The follower already holds the whole batch, term for term. */
  ghost predicate HoldsBatch(es: Entries, m: Message)
    requires m.AppendEntries?
  {
    && m.prevLogIndex + |m.entries| < |es|
    && forall j | 0 <= j < |m.entries| :: es[m.prevLogIndex + 1 + j].term == m.entries[j].term
  }

  /** A successful acknowledgement reports the follower's own last index. That index lies inside what the
      follower now shares with the leader, except in exactly one situation: the follower already held the
      whole batch and has a surplus tail whose last entry is not the leader's. */
  lemma AckTruthfulIff(l: LogState, log: Entries, m: Message)
    requires m.AppendEntries? && Stretch(m, log) && Aligned(l.entries) && Aligned(log) && Matching(l.entries, log)
    requires MatchesPrevLogTerm(l.entries, m.prevLogIndex, m.prevLogTerm)
    ensures var r, last := Append(l, m.entries).log.entries, LastIndex(l.entries);
            Agree(r, log, LastIndex(r)) <==>
            !(HoldsBatch(l.entries, m) && last > m.prevLogIndex + |m.entries|
              && (last >= |log| || l.entries[last].term != log[last].term))
  {
    hide Append, MatchesPrevLogTerm, Stretch, HoldsBatch, Follows, Matching, Aligned, Agree, LastIndex;
    var end := m.prevLogIndex + |m.entries|;
    StretchFollows(m, log);
    PrevAgrees(l.entries, log, m);
    var d := MergeYieldsLeaderPrefix(l, log, m);
    BatchHeldIff(l.entries, m, d);
    if d < |m.entries| {
      MergedEnd(l, m, d);
    } else {
      SharesLastIff(l.entries, log, end);
    }
  }

  /** A batch that was not held in full ends the log. */
  lemma MergedEnd(l: LogState, m: Message, d: nat)
    requires m.AppendEntries? && Aligned(l.entries) && Follows(m.entries, m.prevLogIndex)
             && m.prevLogIndex < |l.entries|
    requires DivergesAt(l.entries, m.entries, d) && d < |m.entries|
    ensures LastIndex(Append(l, m.entries).log.entries) == m.prevLogIndex + |m.entries|
  {
    BatchHeldIff(l.entries, m, d);
    var x := AppendHoldsBatch(l, m.entries, m.prevLogIndex);
    BatchHeldIff(l.entries, m, x);
    AppendKeepsAligned(l, m.entries, m.prevLogIndex);
    hide Append, Follows, DivergesAt, HoldsBatch;
  }

  /** Matching logs that agree through `end` agree through the last index of the first exactly when that
      is not beyond `end` or the terms there coincide. */
  lemma SharesLastIff(es: Entries, log: Entries, end: nat)
    requires Aligned(es) && Matching(es, log) && Agree(es, log, end)
    ensures var last := LastIndex(es);
            && last < |es|
            && (Agree(es, log, last) <==> last <= end || (last < |log| && es[last].term == log[last].term))
  {
    var last := LastIndex(es);
    assert last == |es| - 1;
    if last <= end {
      AgreeAt(es, log, end, last);
    } else if Agree(es, log, last) {
      AgreeAt(es, log, last, last);
    }
  }

  /** Before the call one can tell whether the acknowledgement will pass the end of the batch. */
  lemma AckPastBatchIff(l: LogState, log: Entries, m: Message)
    requires m.AppendEntries? && Stretch(m, log) && Aligned(l.entries) && Aligned(log) && Matching(l.entries, log)
    requires MatchesPrevLogTerm(l.entries, m.prevLogIndex, m.prevLogTerm)
    ensures var end := m.prevLogIndex + |m.entries|;
            LastIndex(Append(l, m.entries).log.entries) > end <==>
            HoldsBatch(l.entries, m) && LastIndex(l.entries) > end
  {
    hide Append, MatchesPrevLogTerm, Stretch, HoldsBatch, Follows, Matching, Aligned, Agree, LastIndex;
    StretchFollows(m, log);
    PrevAgrees(l.entries, log, m);
    var d := MergeYieldsLeaderPrefix(l, log, m);
    BatchHeldIff(l.entries, m, d);
    if d < |m.entries| { MergedEnd(l, m, d); }
  }

  lemma BatchHeldIff(es: Entries, m: Message, d: nat)
    requires m.AppendEntries? && Follows(m.entries, m.prevLogIndex) && m.prevLogIndex < |es|
             && DivergesAt(es, m.entries, d)
    ensures d == |m.entries| <==> HoldsBatch(es, m)
  {
    forall j | 0 <= j < |m.entries| ensures m.entries[j].index == m.prevLogIndex + 1 + j {}
    if d == |m.entries| && d > 0 { assert m.entries[d - 1].index < |es|; }
  }

  lemma FollowerCommitKeepsEntries(l: LogState, leaderCommit: nat)
    ensures FollowerCommit(l, leaderCommit).entries == l.entries
  {
  }

  lemma FollowerCommitInLog(l: LogState, leaderCommit: nat)
    requires Aligned(l.entries) && l.commitIndex < |l.entries|
    ensures var r := FollowerCommit(l, leaderCommit);
            r.entries == l.entries && l.commitIndex <= r.commitIndex < |l.entries|
    ensures var r := FollowerCommit(l, leaderCommit);
            r.commitIndex == l.commitIndex || r.commitIndex <= leaderCommit
  {
  }

  lemma AppendForShape(n: NodeState, p: nat)
    ensures var m := AppendFor(n, p);
            m.AppendEntries? && m.from == n.id && m.to == p && m.term == n.currentTerm
              && m.leaderCommit == n.log.commitIndex
  {
  }

  lemma CommitAfterMerge(l: LogState, m: Message, r: LogState)
    requires m.AppendEntries? && Aligned(l.entries) && l.commitIndex < |l.entries|
             && Follows(m.entries, m.prevLogIndex) && m.prevLogIndex < |l.entries|
    requires r == Append(l, m.entries).log
    ensures Aligned(r.entries) && r.commitIndex < |r.entries| && r.commitIndex <= l.commitIndex
  {
    FollowsIsContiguous(m.entries, m.prevLogIndex);
    AppendKeepsAligned(l, m.entries, m.prevLogIndex);
    var d := MergeResult(l, m.entries, m.prevLogIndex, 0);
  }
}
