/** Discarding the committed front of a log, and reading what is left by absolute index.

    After a compaction position 0 holds the term and index of the last discarded entry, so a position
    is an index relative to that base. */
module Compaction {
  import opened RaftLog

  /** The last discarded index. */
  function Base(es: Entries): nat {
    es[0].index
  }

  function Compact(l: LogState, k: nat): LogOutcome {
    var base := Base(l.entries);
    if k > l.commitIndex then LogOutcome(l, Some(IndexOutOfRange))
    else if k == 0 then LogOutcome(l, None)
    else if k <= base || k - base >= |l.entries| then LogOutcome(l, Some(IndexOutOfRange))
    else
      var kept := l.entries[k - base];
      LogOutcome(l.(entries := [Entry(kept.term, kept.index, [])] + l.entries[k - base + 1..]), None)
  }

  /** The entries from absolute index `i` on that are still there. */
  function EntrySince(es: Entries, i: nat): seq<Entry> {
    var pos := if i <= Base(es) then 1 else i - Base(es);
    if pos >= |es| then [] else es[pos..]
  }

  method CompactTo(l: Log, k: nat) returns (error: Option<LogError>)
    modifies l
    ensures LogOutcome(l.State(), error) == Compact(old(l.State()), k)
  {
    if k > l.commitIndex { return Some(IndexOutOfRange); }
    if k == 0 { return None; }
    var base := l.entries[0].index;
    // The 64-bit difference of a smaller index wraps to a negative position.
    if k <= base || k - base >= |l.entries| { return Some(IndexOutOfRange); }
    var pos := k - base;
    var sentinel := Entry(l.entries[pos].term, l.entries[pos].index, []);
    var remaining := [sentinel];
    remaining := remaining + l.entries[pos + 1..];
    l.entries := remaining;
    return None;
  }

  method ReadSince(l: Log, startIndex: nat) returns (out: seq<Entry>)
    ensures out == EntrySince(l.entries, startIndex)
  {
    var base := l.entries[0].index;
    var start := if startIndex <= base then base + 1 else startIndex;
    var pos := start - base;
    if pos >= |l.entries| { return []; }
    return l.entries[pos..];
  }

  method CompactionPoint(l: Log) returns (index: nat, term: nat)
    ensures index == Base(l.entries) && term == l.entries[0].term
  {
    return l.entries[0].index, l.entries[0].term;
  }

  // ---------------------------------------------------------------- against the uncompacted log

  /** `es` is `full` with everything through `base` discarded. */
  ghost predicate CutAt(full: seq<Entry>, es: Entries, base: nat) {
    && base < |full| && |es| == |full| - base
    && es[0] == Entry(full[base].term, base, [])
    && forall p | 1 <= p < |es| :: es[p] == full[base + p]
  }

  /** The log after a list of compaction requests; a refused one leaves the log alone. */
  function CompactAll(l: LogState, ks: seq<nat>): LogState {
    if ks == [] then l else Compact(CompactAll(l, ks[..|ks| - 1]), ks[|ks| - 1]).log
  }

  /** The request in `ks` that reaches furthest without passing `limit`, or 0. */
  ghost predicate Furthest(ks: seq<nat>, limit: nat, base: nat) {
    base <= limit && (base == 0 || base in ks) && forall k | k in ks && k <= limit :: k <= base
  }

  /** One request against a compacted log: it is refused unless it lies past the base, inside the log
      and the commit index. */
  lemma CompactMovesBase(full: seq<Entry>, l: LogState, base: nat, k: nat)
    requires Aligned(full) && CutAt(full, l.entries, base)
    ensures var r := Compact(l, k);
            var moves := base < k <= l.commitIndex && k < |full|;
            && CutAt(full, r.log.entries, if moves then k else base)
            && r.log.commitIndex == l.commitIndex
            && (r.error == None <==> moves || k == 0)
  {
  }

  /** After any list of compaction requests the log is the full one cut at the furthest request that
      lies within the commit index and the log. */
  lemma {:induction false} CompactAllCuts(l: LogState, ks: seq<nat>)
    requires Aligned(l.entries)
    ensures var r := CompactAll(l, ks);
            var limit := if l.commitIndex < |l.entries| then l.commitIndex else |l.entries| - 1;
            && CutAt(l.entries, r.entries, Base(r.entries)) && r.commitIndex == l.commitIndex
            && Furthest(ks, limit, Base(r.entries))
  {
    if ks != [] {
      var init, k := ks[..|ks| - 1], ks[|ks| - 1];
      CompactAllCuts(l, init);
      var mid := CompactAll(l, init);
      assert ks == init + [k];
      CompactMovesBase(l.entries, mid, Base(mid.entries), k);
    }
  }

  /** Compaction agrees with the full log: whatever was requested, reading from index `i` yields
      exactly the full log's entries from the later of `i` and the first index past the base. */
  lemma CompactionAgrees(l: LogState, ks: seq<nat>, i: nat)
    requires Aligned(l.entries)
    ensures var es := CompactAll(l, ks).entries;
            var from := if i > Base(es) then i else Base(es) + 1;
            EntrySince(es, i) == if from < |l.entries| then l.entries[from..] else []
  {
    hide CompactAll, Furthest, CutAt, EntrySince, Aligned;
    CompactAllCuts(l, ks);
    CutReads(l.entries, CompactAll(l, ks).entries, i);
  }

  lemma CutReads(full: seq<Entry>, es: Entries, i: nat)
    requires CutAt(full, es, Base(es))
    ensures var from := if i > Base(es) then i else Base(es) + 1;
            EntrySince(es, i) == if from < |full| then full[from..] else []
  {
    var from := if i > Base(es) then i else Base(es) + 1;
    if from < |full| {
      var a, b := EntrySince(es, i), full[from..];
      assert |a| == |b|;
      forall j | 0 <= j < |a| ensures a[j] == b[j] {
        assert a[j] == es[from - Base(es) + j];
      }
    }
  }

  /** Nothing uncommitted is ever discarded. */
  lemma UncommittedSurvive(l: LogState, ks: seq<nat>)
    requires Aligned(l.entries) && l.commitIndex < |l.entries|
    ensures EntrySince(CompactAll(l, ks).entries, l.commitIndex + 1) == l.entries[l.commitIndex + 1..]
  {
    CompactAllCuts(l, ks);
    CompactionAgrees(l, ks, l.commitIndex + 1);
  }

  // ---------------------------------------------------------------- iteration

  function SeekPosition(es: Entries, index: nat): nat {
    if index <= Base(es) then 1 else index - Base(es)
  }

  class LogIterator {
    const log: Log
    var pos: nat

    constructor (log: Log)
      ensures this.log == log && pos == 1
    {
      this.log := log;
      pos := 1;
    }

    predicate Valid()
      reads this, log
    {
      pos < |log.entries|
    }

    method Next()
      modifies this
      ensures pos == old(pos) + 1
    {
      pos := pos + 1;
    }

    /** On a compacted log: the entry of the uncompacted log as far past the base as the position, or the zero
        entry past the end. */
    function Current(): (e: Entry)
      reads this, log
      ensures forall full: seq<Entry> | CutAt(full, log.entries, Base(log.entries)) && pos >= 1 ::
                e == if Base(log.entries) + pos < |full| then full[Base(log.entries) + pos] else DUMMY
    {
      if !Valid() then DUMMY else log.entries[pos]
    }

    function Index(): (i: nat)
      reads this, log
      ensures i == Current().index
    {
      if !Valid() then 0 else log.entries[pos].index
    }

    method Rewind()
      modifies this
      ensures pos == 1
    {
      pos := 1;
    }

    /** On a compacted log the iterator lands on the entry with the given index, on the first real entry
        if that index is gone, and past the end if it is yet to come. */
    method Seek(index: nat)
      modifies this
      ensures pos == SeekPosition(log.entries, index)
      ensures forall full: seq<Entry> ::
                Aligned(full) && CutAt(full, log.entries, Base(log.entries)) && Base(log.entries) < index < |full| ==>
                  Valid() && Current() == full[index]
    {
      var base := log.entries[0].index;
      pos := if index < base then 0 else index - base;
      if pos < 1 { pos := 1; }
    }

    function Count(): (n: nat)
      reads this, log
      ensures n == |EntrySince(log.entries, 0)|
    {
      |log.entries| - 1
    }

    /** The loop a caller writes: seek, then visit entry after entry while there is one. */
    method VisitFrom(index: nat) returns (visited: seq<Entry>)
      modifies this
      ensures visited == EntrySince(log.entries, index)
      ensures !Valid()
    {
      Seek(index);
      visited := [];
      var start := pos;
      while Valid()
        invariant start <= pos && start == SeekPosition(log.entries, index)
        invariant pos <= |log.entries| || pos == start
        invariant visited == if start <= |log.entries| then log.entries[start..pos] else []
        decreases |log.entries| - pos
      {
        visited := visited + [Current()];
        Next();
      }
    }
  }
}
