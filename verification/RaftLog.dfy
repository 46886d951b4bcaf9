/** The replicated log of one peer: a sequence whose position 0 holds a dummy entry of term 0,
    so that the entry with index `i` lives at position `i`, and a commit index.

    Pure functions specify each operation on values; class `Log` is the mutable log whose
    methods are proved against them.
 */
module RaftLog {

  type Byte = b: nat | b < 256

  datatype Entry = Entry(term: nat, index: nat, command: seq<Byte>)

  datatype Option<+T> = None | Some(value: T)

  datatype LogError =
    | IndexOutOfRange
    | CommitRegression
    | NonContiguous(at: nat)
    | TruncatesDummy
    | LeavesGap
    | CommitBeyondEnd

  /** The stored entries; position 0 is the dummy entry, so there is always one. */
  type Entries = es: seq<Entry> | |es| >= 1 witness [DUMMY]

  datatype LogState = LogState(entries: Entries, commitIndex: nat)

  /** The outcome of an operation that may be refused; `log` is the state afterwards either way. */
  datatype LogOutcome = LogOutcome(log: LogState, error: Option<LogError>)

  const DUMMY := Entry(0, 0, [])

  const EMPTY_LOG := LogState([DUMMY], 0)

  // ---------------------------------------------------------------- shape

  /** Every entry sits at its own index, below the dummy entry. */
  ghost predicate Aligned(es: seq<Entry>) {
    && |es| >= 1
    && es[0] == DUMMY
    && forall i | 0 <= i < |es| :: es[i].index == i
  }

  /** Terms never decrease along the log. */
  ghost predicate TermsAscend(es: seq<Entry>) {
    forall i, j | 0 <= i <= j < |es| :: es[i].term <= es[j].term
  }

  ghost predicate WellFormed(es: seq<Entry>) {
    Aligned(es) && TermsAscend(es)
  }

  /** `a` and `b` both hold index `k` and are identical (commands included) through it. */
  ghost predicate Agree(a: seq<Entry>, b: seq<Entry>, k: nat) {
    k < |a| && k < |b| && a[..k + 1] == b[..k + 1]
  }

  lemma AgreeAt(a: seq<Entry>, b: seq<Entry>, k: nat, i: nat)
    requires Agree(a, b, k) && i <= k
    ensures a[i] == b[i] && Agree(a, b, i)
  {
    assert a[i] == a[..k + 1][i] == b[..k + 1][i] == b[i];
    assert a[..i + 1] == a[..k + 1][..i + 1];
    assert b[..i + 1] == b[..k + 1][..i + 1];
  }

  lemma AgreeIntro(a: seq<Entry>, b: seq<Entry>, k: nat)
    requires k < |a| && k < |b|
    requires forall i | 0 <= i <= k :: a[i] == b[i]
    ensures Agree(a, b, k)
  {
    assert a[..k + 1] == b[..k + 1];
  }

  // ---------------------------------------------------------------- reads

  function LastIndex(es: Entries): nat
  {
    if |es| == 1 then 0 else es[|es| - 1].index
  }

  function LastTerm(es: Entries): nat
  {
    if |es| == 1 then 0 else es[|es| - 1].term
  }

  /** Entries in `[lo, hi)`, clamped to the real entries of the log. */
  function Slice(es: Entries, lo: nat, hi: nat): seq<Entry>
  {
    var lo' := if lo < 1 then 1 else lo;
    var hi' := if hi > LastIndex(es) + 1 then LastIndex(es) + 1 else hi;
    if lo' >= hi' || hi' > |es| then [] else es[lo'..hi']
  }

  predicate MatchesPrevLogTerm(es: seq<Entry>, prevIndex: nat, prevTerm: nat) {
    prevIndex == 0 || (prevIndex < |es| && es[prevIndex].term == prevTerm)
  }

  // ---------------------------------------------------------------- updates

  predicate Contiguous(batch: seq<Entry>) {
    forall i | 1 <= i < |batch| :: batch[i].index == batch[i - 1].index + 1
  }

  /** Position of the first entry of a non-contiguous batch that does not follow its predecessor. */
  function FirstGap(batch: seq<Entry>, i: nat): (g: nat)
    requires 1 <= i && !Contiguous(batch)
    requires forall j | 1 <= j < i && j < |batch| :: batch[j].index == batch[j - 1].index + 1
    ensures i <= g < |batch| && batch[g].index != batch[g - 1].index + 1
    ensures forall j | 1 <= j < g :: batch[j].index == batch[j - 1].index + 1
    decreases |batch| - i
  {
    if batch[i].index != batch[i - 1].index + 1 then i else FirstGap(batch, i + 1)
  }

  function Truncate(l: LogState, fromIndex: nat): LogOutcome
    requires fromIndex <= LastIndex(l.entries) + 1 ==> fromIndex <= |l.entries|
  {
    if fromIndex == 0 then LogOutcome(l, Some(TruncatesDummy))
    else if fromIndex > LastIndex(l.entries) + 1 then LogOutcome(l, Some(LeavesGap))
    else
      var c := if l.commitIndex > LastIndex(l.entries) then LastIndex(l.entries) else l.commitIndex;
      LogOutcome(LogState(l.entries[..fromIndex], if c > fromIndex - 1 then fromIndex - 1 else c), None)
  }

  /** Skip the entries of `batch` from position `i` that the log already holds, then replace the
      rest of the log by the rest of the batch at the first conflict or at the end of the log. */
  function MergeFrom(l: LogState, batch: seq<Entry>, i: nat): LogState
    requires i <= |batch|
    decreases |batch| - i
  {
    if i == |batch| then l
    else if batch[i].index >= |l.entries| then l.(entries := l.entries + batch[i..])
    else if l.entries[batch[i].index].term != batch[i].term then
      var cut := Truncate(l, batch[i].index).log;
      cut.(entries := cut.entries + batch[i..])
    else MergeFrom(l, batch, i + 1)
  }

  function Append(l: LogState, batch: seq<Entry>): LogOutcome
  {
    if !Contiguous(batch) then LogOutcome(l, Some(NonContiguous(FirstGap(batch, 1))))
    else LogOutcome(MergeFrom(l, batch, 0), None)
  }

  function CommitTo(l: LogState, index: nat): LogOutcome
  {
    if index > LastIndex(l.entries) then LogOutcome(l, Some(CommitBeyondEnd))
    else if index < l.commitIndex then LogOutcome(l, Some(CommitRegression))
    else LogOutcome(l.(commitIndex := index), None)
  }

  function CommittedEntries(l: LogState): seq<Entry>
  {
    var hi := if l.commitIndex > LastIndex(l.entries) then LastIndex(l.entries) else l.commitIndex;
    Slice(l.entries, 1, hi + 1)
  }

  // ---------------------------------------------------------------- what Append promises

  /** A batch that follows index `prev` without a gap. */
  ghost predicate Follows(batch: seq<Entry>, prev: nat) {
    forall i | 0 <= i < |batch| :: batch[i].index == prev + 1 + i
  }

  lemma FollowsIsContiguous(batch: seq<Entry>, prev: nat)
    requires Follows(batch, prev)
    ensures Contiguous(batch)
  {
    forall i | 1 <= i < |batch| ensures batch[i].index == batch[i - 1].index + 1 {
      assert batch[i].index == prev + 1 + i && batch[i - 1].index == prev + 1 + (i - 1);
    }
  }

  /** Where the batch stops agreeing with the log: all its entries before `d` are held with equal
      terms, and the one at `d` (if there is one) conflicts or lies past the end. */
  ghost predicate DivergesAt(es: seq<Entry>, batch: seq<Entry>, d: nat) {
    && d <= |batch|
    && (forall j | 0 <= j < d :: batch[j].index < |es| && es[batch[j].index].term == batch[j].term)
    && (d < |batch| ==> batch[d].index >= |es| || es[batch[d].index].term != batch[d].term)
  }

  /** The exact result of merging: untouched if the log already holds the whole batch, otherwise
      the log cut at the divergence followed by the rest of the batch. */
  lemma {:induction false} MergeResult(l: LogState, batch: seq<Entry>, prev: nat, i: nat) returns (d: nat)
    requires Aligned(l.entries) && Follows(batch, prev) && prev < |l.entries| && i <= |batch|
    requires forall j | 0 <= j < i :: batch[j].index < |l.entries| && l.entries[batch[j].index].term == batch[j].term
    ensures DivergesAt(l.entries, batch, d)
    ensures d == |batch| ==> MergeFrom(l, batch, i) == l
    ensures d < |batch| ==>
              && prev + 1 + d <= |l.entries|
              && MergeFrom(l, batch, i).entries == l.entries[..prev + 1 + d] + batch[d..]
              && MergeFrom(l, batch, i).commitIndex == (
                if prev + 1 + d == |l.entries| || l.commitIndex <= prev + d then l.commitIndex else prev + d)
    decreases |batch| - i
  {
    if i == |batch| {
      d := i;
    } else if batch[i].index >= |l.entries| {
      d := i;
      if i > 0 { assert batch[i - 1].index < |l.entries|; }
      assert prev + 1 + i == |l.entries|;
      assert l.entries[..prev + 1 + i] == l.entries;
    } else if l.entries[batch[i].index].term != batch[i].term {
      d := i;
      assert LastIndex(l.entries) + 1 == |l.entries|;
    } else {
      d := MergeResult(l, batch, prev, i + 1);
    }
  }

  /** Append keeps the shape of the log: indices stay equal to positions, and terms keep ascending
      when the batch ascends from the entry it follows. */
  lemma AppendKeepsAligned(l: LogState, batch: seq<Entry>, prev: nat)
    requires Aligned(l.entries) && Follows(batch, prev) && prev < |l.entries|
    ensures Append(l, batch).error == None && Aligned(Append(l, batch).log.entries)
  {
    FollowsIsContiguous(batch, prev);
    var d := MergeResult(l, batch, prev, 0);
  }

  /** What the log holds after an append: the batch's terms over its whole range, the batch's own
      entries from the divergence on, and everything the log held before the divergence. */
  lemma AppendHoldsBatch(l: LogState, batch: seq<Entry>, prev: nat) returns (d: nat)
    requires Aligned(l.entries) && Follows(batch, prev) && prev < |l.entries|
    ensures DivergesAt(l.entries, batch, d)
    ensures var r := Append(l, batch);
            && r.error == None
            && prev + |batch| < |r.log.entries|
            && prev + 1 + d <= |l.entries| && l.entries[..prev + 1 + d] == r.log.entries[..prev + 1 + d]
            && (forall j | 0 <= j < |batch| :: r.log.entries[prev + 1 + j].term == batch[j].term)
            && (forall j | d <= j < |batch| :: r.log.entries[prev + 1 + j] == batch[j])
            && (if d == |batch| then r.log == l else |r.log.entries| == prev + 1 + |batch|)
  {
    FollowsIsContiguous(batch, prev);
    d := MergeResult(l, batch, prev, 0);
    var r := Append(l, batch).log.entries;
    if d > 0 { assert batch[d - 1].index == prev + d; }
    forall j | 0 <= j < |batch|
      ensures r[prev + 1 + j].term == batch[j].term && (j >= d ==> r[prev + 1 + j] == batch[j]) {
      assert batch[j].index == prev + 1 + j;
      if j >= d { assert r[prev + 1 + j] == batch[d..][j - d]; }
    }
  }

  /** A batch the log already holds, term for term, changes nothing. */
  lemma AbsorbHeld(l: LogState, batch: seq<Entry>, prev: nat)
    requires Aligned(l.entries) && Follows(batch, prev) && prev + |batch| < |l.entries|
    requires forall j | 0 <= j < |batch| :: l.entries[prev + 1 + j].term == batch[j].term
    ensures Append(l, batch) == LogOutcome(l, None)
  {
    FollowsIsContiguous(batch, prev);
    assert forall j | 0 <= j < |batch| :: batch[j].index == prev + 1 + j;
    var d := MergeResult(l, batch, prev, 0);
  }

  /** Append absorbs resends: once `batch` has been appended, sending it, or any prefix of it,
      again changes nothing. */
  lemma AppendAbsorbsResends(l: LogState, batch: seq<Entry>, prev: nat, n: nat, r: LogState)
    requires Aligned(l.entries) && Follows(batch, prev) && prev < |l.entries| && n <= |batch|
    requires Append(l, batch) == LogOutcome(r, None)
    ensures Aligned(r.entries)
    ensures Append(r, batch) == LogOutcome(r, None)
    ensures Append(r, batch[..n]) == LogOutcome(r, None)
  {
    hide Append, Aligned, DivergesAt;
    var d := AppendHoldsBatch(l, batch, prev);
    AppendKeepsAligned(l, batch, prev);
    AbsorbHeld(r, batch, prev);
    AbsorbHeld(r, batch[..n], prev);
  }

  // ---------------------------------------------------------------- what Truncate and CommitTo promise

  /** Truncation is refused exactly for the dummy entry and past a gap, and then nothing changes; otherwise exactly
      the entries before the index stay, and the commit index is lowered only as far as they require. */
  lemma TruncateLaw(l: LogState, fromIndex: nat)
    requires Aligned(l.entries) && l.commitIndex < |l.entries|
    ensures var r := Truncate(l, fromIndex);
            && r.error == (if fromIndex == 0 then Some(TruncatesDummy)
                           else if fromIndex > |l.entries| then Some(LeavesGap) else None)
            && (r.error.Some? ==> r.log == l)
            && (r.error == None ==>
                  && |r.log.entries| == fromIndex && r.log.entries <= l.entries
                  && r.log.commitIndex == if l.commitIndex < fromIndex then l.commitIndex else fromIndex - 1)
  {
  }

  /** A commit index is accepted exactly when it lies in the log and is no step back; nothing else ever changes. */
  lemma CommitLaw(l: LogState, index: nat)
    requires Aligned(l.entries)
    ensures var r := CommitTo(l, index);
            && (r.error == None <==> l.commitIndex <= index < |l.entries|)
            && (r.error == Some(CommitBeyondEnd) <==> index >= |l.entries|)
            && r.log == (if r.error == None then l.(commitIndex := index) else l)
  {
  }

  // ---------------------------------------------------------------- the mutable log

  class Log {
    var entries: Entries
    var commitIndex: nat

    ghost function State(): LogState
      reads this
    {
      LogState(entries, commitIndex)
    }

    /** Every entry sits at its own index, so no read below runs off the end. */
    ghost predicate Valid()
      reads this
    {
      Aligned(entries)
    }

    constructor ()
      ensures State() == EMPTY_LOG && Valid()
    {
      entries := [DUMMY];
      commitIndex := 0;
    }

    method Last() returns (index: nat, term: nat)
      ensures index == LastIndex(entries) && term == LastTerm(entries)
      ensures Valid() ==> index == |entries| - 1 && term == entries[index].term
    {
      if |entries| == 1 { return 0, 0; }
      var last := entries[|entries| - 1];
      return last.index, last.term;
    }

    method EntryAt(index: nat) returns (e: Option<Entry>)
      ensures e.Some? <==> index < |entries|
      ensures e.Some? ==> e.value == entries[index]
    {
      if index >= |entries| { return None; }
      return Some(entries[index]);
    }

    /** The clamped half-open range, copied out entry by entry. */
    method CopyRange(lo: nat, hi: nat) returns (out: seq<Entry>)
      requires Valid()
      ensures out == Slice(entries, lo, hi)
      ensures forall e :: e in out <==> e in entries && e.index >= 1 && lo <= e.index < hi
    {
      var lo' := if lo < 1 then 1 else lo;
      var lastIdx, _ := Last();
      var hi' := if hi > lastIdx + 1 then lastIdx + 1 else hi;
      out := [];
      if lo' >= hi' { return; }
      var i := lo';
      while i < hi'
        invariant lo' <= i <= hi' && out == entries[lo'..i]
      {
        out := out + [entries[i]];
        i := i + 1;
      }
      forall e ensures e in out <==> e in entries && e.index >= 1 && lo <= e.index < hi {
        if e in entries && e.index >= 1 && lo <= e.index < hi { assert out[e.index - lo'] == e; }
      }
    }

    /** The real entries up to the commit index. */
    method Committed() returns (out: seq<Entry>)
      requires Valid()
      ensures out == CommittedEntries(State())
      ensures forall e :: e in out <==> e in entries && 1 <= e.index <= commitIndex
    {
      var lastIdx, _ := Last();
      var hi := commitIndex;
      if hi > lastIdx { hi := lastIdx; }
      out := CopyRange(1, hi + 1);
    }

    method AppendTail(batch: seq<Entry>)
      modifies this
      ensures entries == old(entries) + batch && commitIndex == old(commitIndex)
    {
      var i := 0;
      while i < |batch|
        invariant i <= |batch|
        invariant entries == old(entries) + batch[..i] && commitIndex == old(commitIndex)
      {
        entries := entries + [batch[i]];
        i := i + 1;
      }
      assert batch[..|batch|] == batch;
    }

    method TruncateAt(fromIndex: nat) returns (error: Option<LogError>)
      requires fromIndex <= LastIndex(entries) + 1 ==> fromIndex <= |entries|
      modifies this
      ensures LogOutcome(State(), error) == Truncate(old(State()), fromIndex)
      ensures old(commitIndex) < fromIndex && old(Valid()) && error == None ==>
                commitIndex == old(commitIndex) || old(commitIndex) >= |old(entries)|
    {
      if fromIndex == 0 { return Some(TruncatesDummy); }
      var lastIdx, _ := Last();
      if fromIndex > lastIdx + 1 { return Some(LeavesGap); }
      entries := entries[..fromIndex];
      if commitIndex > lastIdx { commitIndex := lastIdx; }
      if commitIndex > fromIndex - 1 { commitIndex := fromIndex - 1; }
      return None;
    }

    /** The first place where the batch skips or repeats an index. */
    method FindGap(batch: seq<Entry>) returns (gap: Option<nat>)
      ensures gap == if Contiguous(batch) then None else Some(FirstGap(batch, 1))
    {
      var i := 1;
      while i < |batch|
        invariant 1 <= i
        invariant forall j | 1 <= j < i && j < |batch| :: batch[j].index == batch[j - 1].index + 1
        invariant !Contiguous(batch) ==> FirstGap(batch, 1) == FirstGap(batch, i)
      {
        if batch[i].index != batch[i - 1].index + 1 { return Some(i); }
        i := i + 1;
      }
      return None;
    }

    /** Conflict-resolving append: validate the batch, then scan for the first entry to replace. */
    method AppendBatch(batch: seq<Entry>) returns (error: Option<LogError>)
      modifies this
      ensures LogOutcome(State(), error) == Append(old(State()), batch)
    {
      hide Contiguous, FirstGap, Truncate;
      var gap := FindGap(batch);
      if gap.Some? { return Some(NonContiguous(gap.value)); }
      var i := 0;
      while i < |batch|
        invariant i <= |batch| && State() == old(State())
        invariant MergeFrom(State(), batch, i) == MergeFrom(State(), batch, 0)
      {
        var e := batch[i];
        if e.index >= |entries| {
          AppendTail(batch[i..]);
          return None;
        }
        if entries[e.index].term != e.term {
          var _ := TruncateAt(e.index);
          AppendTail(batch[i..]);
          return None;
        }
        i := i + 1;
      }
      return None;
    }

    method Commit(index: nat) returns (error: Option<LogError>)
      modifies this
      ensures LogOutcome(State(), error) == CommitTo(old(State()), index)
      ensures commitIndex >= old(commitIndex)
      ensures error == None ==> commitIndex == index <= LastIndex(entries)
    {
      var lastIdx, _ := Last();
      if index > lastIdx { return Some(CommitBeyondEnd); }
      if index < commitIndex { return Some(CommitRegression); }
      if index == commitIndex { return None; }
      commitIndex := index;
      return None;
    }
  }
}
