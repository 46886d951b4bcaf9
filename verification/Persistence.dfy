/** The persisted part of a peer's state (term, vote, entries) as a byte string:

      [currentTerm:8][votedFor:8][numEntries:8] then, per entry, [term:8][index:8][cmdLen:8][command]

    with every integer little-endian. `DecodesExactly` characterises the decoder completely.
 */
module Persistence {
  import opened RaftLog

  const WORD := 0x1_0000_0000_0000_0000

  datatype PersistedState = PersistedState(currentTerm: nat, votedFor: nat, entries: seq<Entry>)

  datatype Corruption =
    | TruncatedTerm
    | TruncatedVote
    | TruncatedCount
    | ImplausibleCount(count: nat)
    | TruncatedEntry(at: nat)
    | NonContiguousIndex(at: nat)
    | TruncatedCommand(at: nat)

  datatype Decoded = Ok(state: PersistedState) | Corrupt(error: Corruption)

  // ---------------------------------------------------------------- little-endian words

  /** The `n` low-order base-256 digits of `v`, least significant first. */
  function Digits(v: nat, n: nat): (ds: seq<Byte>)
    ensures |ds| == n
    decreases n, v
  {
    if n == 0 then [] else [v % 256] + Digits(v / 256, n - 1)
  }

  function Value(ds: seq<Byte>): nat {
    if ds == [] then 0 else ds[0] + 256 * Value(ds[1..])
  }

  function Pow256(n: nat): (p: nat)
    ensures p > 0
  {
    if n == 0 then 1 else 256 * Pow256(n - 1)
  }

  lemma {:induction false} ValueOfDigits(v: nat, n: nat)
    requires v < Pow256(n)
    ensures Value(Digits(v, n)) == v
    decreases n
  {
    if n > 0 {
      ValueOfDigits(v / 256, n - 1);
      assert Digits(v, n)[1..] == Digits(v / 256, n - 1);
    }
  }

  lemma {:induction false} DigitsOfValue(ds: seq<Byte>)
    ensures Value(ds) < Pow256(|ds|) && Digits(Value(ds), |ds|) == ds
  {
    if ds != [] {
      DigitsOfValue(ds[1..]);
      assert ds == [ds[0]] + ds[1..];
    }
  }

  lemma WordIsPow256()
    ensures Pow256(8) == WORD
  {
    assert Pow256(4) == 0x1_0000_0000;
    assert Pow256(8) == 256 * (256 * (256 * (256 * Pow256(4))));
  }

  function U64(v: nat): (ds: seq<Byte>)
    ensures |ds| == 8
  {
    Digits(v, 8)
  }

  /** Little-endian: byte `i` is the digit of weight 256 to the `i`. */
  lemma {:induction false} DigitAt(v: nat, n: nat, i: nat)
    requires i < n
    ensures Digits(v, n)[i] == v / Pow256(i) % 256
    decreases n
  {
    if i > 0 {
      DigitAt(v / 256, n - 1, i - 1);
      DivideTwice(v, Pow256(i - 1));
    }
  }

  lemma DivideTwice(v: nat, b: nat)
    requires b > 0
    ensures v / 256 / b == v / (256 * b)
  {
    var q, r := v / (256 * b), v % (256 * b);
    assert v == 256 * b * q + r;
    assert v / 256 == b * q + r / 256 by {
      assert v == 256 * (b * q + r / 256) + r % 256;
    }
    assert r / 256 < b;
    QuotientIs(v / 256, b, q, r / 256);
  }

  lemma QuotientIs(v: nat, b: nat, q: nat, r: nat)
    requires v == b * q + r && r < b
    ensures v / b == q
  {
    var d := v / b - q;
    assert b * d == r - v % b by { assert b * d == b * (v / b) - b * q; }
    if d != 0 { MultipleIsFar(b, d); }
  }

  lemma MultipleIsFar(b: int, d: int)
    requires b >= 0 && d != 0
    ensures b * d >= b || b * d <= -b
  {
    if d > 0 {
      ProductIsNat(b, d - 1);
      assert b * d == b + b * (d - 1);
    } else {
      ProductIsNat(b, -d - 1);
      assert b * d == -b - b * (-d - 1);
    }
  }

  lemma ProductIsNat(b: nat, k: nat)
    ensures b * k >= 0
  {
  }

  /** The eight bytes of a word, least significant first. */
  lemma U64Bytes(v: nat, i: nat)
    requires i < 8
    ensures U64(v)[i] == v / Pow256(i) % 256
  {
    DigitAt(v, 8, i);
  }

  lemma U64RoundTrip(v: nat)
    requires v < WORD
    ensures Value(U64(v)) == v
  {
    WordIsPow256();
    ValueOfDigits(v, 8);
  }

  lemma U64OfValue(ds: seq<Byte>)
    requires |ds| == 8
    ensures Value(ds) < WORD && U64(Value(ds)) == ds
  {
    WordIsPow256();
    DigitsOfValue(ds);
  }

  // ---------------------------------------------------------------- encoding

  function EncodeEntry(e: Entry): seq<Byte> {
    U64(e.term) + U64(e.index) + U64(|e.command|) + e.command
  }

  function EncodeEntries(es: seq<Entry>): seq<Byte> {
    if es == [] then [] else EncodeEntries(es[..|es| - 1]) + EncodeEntry(es[|es| - 1])
  }

  function Header(s: PersistedState): (ds: seq<Byte>)
    ensures |ds| == 24
  {
    U64(s.currentTerm) + U64(s.votedFor) + U64(|s.entries|)
  }

  function Serialize(s: PersistedState): seq<Byte> {
    Header(s) + EncodeEntries(s.entries)
  }

  // ---------------------------------------------------------------- the layout

  /** The header is the term, the vote and the number of entries, in this order. */
  lemma LayoutHeader(s: PersistedState)
    ensures var ds := Serialize(s);
            && |ds| >= 24
            && ds[..8] == U64(s.currentTerm) && ds[8..16] == U64(s.votedFor) && ds[16..24] == U64(|s.entries|)
  {
    hide U64;
  }

  /** Where entry `k` starts: past the header and, for each entry before it, three words and its command. */
  function Offset(es: seq<Entry>, k: nat): nat
    requires k <= |es|
  {
    if k == 0 then 24 else Offset(es, k - 1) + 24 + |es[k - 1].command|
  }

  lemma {:induction false} EncodedSize(es: seq<Entry>, k: nat)
    requires k <= |es|
    ensures Offset(es, k) == 24 + |EncodeEntries(es[..k])|
  {
    hide U64;
    if k > 0 {
      EncodedSize(es, k - 1);
      assert es[..k][..k - 1] == es[..k - 1];
    }
  }

  /** Each entry is its term, its index, the length of its command and the command, in this order. */
  lemma LayoutEntry(s: PersistedState, k: nat)
    requires k < |s.entries|
    ensures var ds, e, at := Serialize(s), s.entries[k], Offset(s.entries, k);
            && at + 24 + |e.command| <= |ds|
            && ds[at..at + 8] == U64(e.term) && ds[at + 8..at + 16] == U64(e.index)
            && ds[at + 16..at + 24] == U64(|e.command|) && ds[at + 24..at + 24 + |e.command|] == e.command
  {
    var es, e := s.entries, s.entries[k];
    EncodedSize(es, k);
    SplitAt(s, k);
    EntryWords(Header(s) + EncodeEntries(es[..k]), e, EncodeEntries(es[k + 1..]));
    hide U64, Header, EncodeEntry, EncodeEntries, Offset, Serialize;
  }

  lemma SplitAt(s: PersistedState, k: nat)
    requires k < |s.entries|
    ensures var es := s.entries;
            Serialize(s) == Header(s) + EncodeEntries(es[..k]) + EncodeEntry(es[k]) + EncodeEntries(es[k + 1..])
  {
    hide U64, Header, EncodeEntry, EncodeEntries;
    var es := s.entries;
    assert es == (es[..k] + [es[k]]) + es[k + 1..];
    EncodeAppend(es[..k] + [es[k]], es[k + 1..]);
    EncodeSnoc(es[..k], es[k]);
  }

  lemma EntryWords(before: seq<Byte>, e: Entry, rest: seq<Byte>)
    ensures var ds, at := before + EncodeEntry(e) + rest, |before|;
            && at + 24 + |e.command| <= |ds|
            && ds[at..at + 8] == U64(e.term) && ds[at + 8..at + 16] == U64(e.index)
            && ds[at + 16..at + 24] == U64(|e.command|) && ds[at + 24..at + 24 + |e.command|] == e.command
  {
    hide U64;
  }

  // ---------------------------------------------------------------- decoding

  /** The entry at `pos`, given that 24 bytes of header and the command are there. */
  function EntryAtPos(data: seq<Byte>, pos: nat): Entry
    requires pos + 24 <= |data| && Value(data[pos + 16..pos + 24]) <= |data| - (pos + 24)
  {
    Entry(Value(data[pos..pos + 8]), Value(data[pos + 8..pos + 16]),
          data[pos + 24..pos + 24 + Value(data[pos + 16..pos + 24])])
  }

  datatype DecodedEntries = Entries(entries: seq<Entry>, end: nat) | BadEntries(error: Corruption)

  /** Decode entries from `pos` until `n` of them are held, `acc` being those already decoded. */
  function DecodeEntries(data: seq<Byte>, pos: nat, n: nat, acc: seq<Entry>): DecodedEntries
    requires pos <= |data| && |acc| <= n
    decreases n - |acc|
  {
    if |acc| == n then Entries(acc, pos)
    else if pos + 24 > |data| then BadEntries(TruncatedEntry(|acc|))
    else if Value(data[pos + 8..pos + 16]) != |acc| + 1 then BadEntries(NonContiguousIndex(|acc|))
    else
      var cmdLen := Value(data[pos + 16..pos + 24]);
      if |data| - (pos + 24) < cmdLen then BadEntries(TruncatedCommand(|acc|))
      else DecodeEntries(data, pos + 24 + cmdLen, n, acc + [EntryAtPos(data, pos)])
  }

  function Deserialize(data: seq<Byte>): Decoded {
    if |data| < 8 then Corrupt(TruncatedTerm)
    else if |data| < 16 then Corrupt(TruncatedVote)
    else if |data| < 24 then Corrupt(TruncatedCount)
    else
      var n := Value(data[16..24]);
      if n > |data| / 24 + 1 then Corrupt(ImplausibleCount(n))
      else match DecodeEntries(data, 24, n, [])
        case BadEntries(error) => Corrupt(error)
        case Entries(es, _) => Ok(PersistedState(Value(data[..8]), Value(data[8..16]), es))
  }

  // ---------------------------------------------------------------- the two directions

  /** Entries numbered 1, 2, 3, ... */
  ghost predicate Numbered(es: seq<Entry>) {
    forall i | 0 <= i < |es| :: es[i].index == i + 1
  }

  /** Every integer of the state fits an unsigned 64-bit word. */
  predicate Fits64(s: PersistedState) {
    && s.currentTerm < WORD && s.votedFor < WORD && |s.entries| < WORD
    && forall i | 0 <= i < |s.entries| ::
         s.entries[i].term < WORD && s.entries[i].index < WORD && |s.entries[i].command| < WORD
  }

  lemma {:induction false} EncodeAppend(a: seq<Entry>, b: seq<Entry>)
    ensures EncodeEntries(a + b) == EncodeEntries(a) + EncodeEntries(b)
    decreases |b|
  {
    hide Digits, Value, U64, EncodeEntry;
    if b == [] {
      assert a + b == a;
    } else {
      EncodeAppend(a, b[..|b| - 1]);
      EncodeSnoc(a + b[..|b| - 1], b[|b| - 1]);
      assert a + b == (a + b[..|b| - 1]) + [b[|b| - 1]];
    }
  }

  lemma {:induction false} EncodedLength(es: seq<Entry>)
    ensures |EncodeEntries(es)| >= 24 * |es|
  {
    if es != [] { EncodedLength(es[..|es| - 1]); }
  }

  /** The bytes `w` stand in `data` at `pos`. */
  ghost predicate At(data: seq<Byte>, pos: nat, w: seq<Byte>) {
    pos + |w| <= |data| && data[pos..pos + |w|] == w
  }

  lemma AtSplit(data: seq<Byte>, pos: nat, a: seq<Byte>, b: seq<Byte>)
    requires At(data, pos, a + b)
    ensures At(data, pos, a) && At(data, pos + |a|, b)
  {
    var d := data[pos..pos + |a + b|];
    assert data[pos..pos + |a|] == d[..|a|] == a;
    assert data[pos + |a|..pos + |a| + |b|] == d[|a|..] == b;
  }

  /** Reading an encoded entry back. */
  lemma EntryRoundTrip(data: seq<Byte>, pos: nat, e: Entry)
    requires e.term < WORD && e.index < WORD && |e.command| < WORD
    requires At(data, pos, EncodeEntry(e))
    ensures Value(data[pos + 16..pos + 24]) == |e.command|
    ensures Value(data[pos + 8..pos + 16]) == e.index
    ensures EntryAtPos(data, pos) == e
  {
    AtSplit(data, pos, U64(e.term) + U64(e.index) + U64(|e.command|), e.command);
    AtSplit(data, pos, U64(e.term) + U64(e.index), U64(|e.command|));
    AtSplit(data, pos, U64(e.term), U64(e.index));
    U64RoundTrip(e.term);
    U64RoundTrip(e.index);
    U64RoundTrip(|e.command|);
  }

  /** Encoding the entry just read yields the bytes it was read from. */
  lemma EntryReencodes(data: seq<Byte>, pos: nat)
    requires pos + 24 <= |data| && Value(data[pos + 16..pos + 24]) <= |data| - (pos + 24)
    ensures var e := EntryAtPos(data, pos);
            && e.term < WORD && e.index < WORD && |e.command| < WORD
            && EncodeEntry(e) == data[pos..pos + 24 + |e.command|]
  {
    U64OfValue(data[pos..pos + 8]);
    U64OfValue(data[pos + 8..pos + 16]);
    U64OfValue(data[pos + 16..pos + 24]);
  }

  /** Decoding the encoding of `rest` after `acc` continues `acc` with `rest`. */
  lemma {:induction false} DecodeOfEncode(data: seq<Byte>, pos: nat, acc: seq<Entry>, rest: seq<Entry>)
    requires At(data, pos, EncodeEntries(rest))
    requires Numbered(acc + rest) && Fits64(PersistedState(0, 0, acc + rest))
    ensures DecodeEntries(data, pos, |acc| + |rest|, acc) == Entries(acc + rest, pos + |EncodeEntries(rest)|)
    decreases |rest|
  {
    hide Digits, Value, U64;
    if rest == [] {
      assert acc + rest == acc;
    } else {
      var e, tail := rest[0], rest[1..];
      assert rest == [e] + tail;
      EncodeAppend([e], tail);
      assert EncodeEntries([e]) == EncodeEntry(e) by { assert [e][..0] == []; }
      AtSplit(data, pos, EncodeEntry(e), EncodeEntries(tail));
      assert (acc + rest)[|acc|] == e;
      EntryRoundTrip(data, pos, e);
      assert acc + [e] + tail == acc + rest;
      DecodeOfEncode(data, pos + |EncodeEntry(e)|, acc + [e], tail);
    }
  }

  lemma EncodeNothing()
    ensures EncodeEntries([]) == []
  {
  }

  lemma EncodeSnoc(acc: seq<Entry>, e: Entry)
    ensures EncodeEntries(acc + [e]) == EncodeEntries(acc) + EncodeEntry(e)
  {
    hide Digits, Value, U64;
    assert (acc + [e])[..|acc|] == acc;
  }

  /** Whatever the decoder accepts re-encodes to the bytes it consumed. */
  lemma {:induction false} EncodeOfDecode(data: seq<Byte>, pos: nat, n: nat, acc: seq<Entry>, r: DecodedEntries)
    requires pos <= |data| && |acc| <= n < WORD
    requires Numbered(acc) && Fits64(PersistedState(0, 0, acc))
    requires r == DecodeEntries(data, pos, n, acc) && r.Entries?
    ensures Numbered(r.entries) && Fits64(PersistedState(0, 0, r.entries)) && |r.entries| == n
    ensures pos <= r.end <= |data|
    ensures EncodeEntries(r.entries) == EncodeEntries(acc) + data[pos..r.end]
    decreases n - |acc|
  {
    hide Digits, Value, U64;
    if |acc| < n {
      var e := EntryAtPos(data, pos);
      EntryReencodes(data, pos);
      EncodeSnoc(acc, e);
      var pos' := pos + 24 + |e.command|;
      EncodeOfDecode(data, pos', n, acc + [e], r);
      assert data[pos..r.end] == data[pos..pos'] + data[pos'..r.end];
    }
  }

  lemma HeaderReads(s: PersistedState, data: seq<Byte>)
    requires s.currentTerm < WORD && s.votedFor < WORD && |s.entries| < WORD
    requires Header(s) <= data
    ensures Value(data[..8]) == s.currentTerm && Value(data[8..16]) == s.votedFor && Value(data[16..24]) == |s.entries|
  {
    var h := Header(s);
    assert data[..8] == h[..8] == U64(s.currentTerm);
    assert data[8..16] == h[8..16] == U64(s.votedFor);
    assert data[16..24] == h[16..24] == U64(|s.entries|);
    U64RoundTrip(s.currentTerm);
    U64RoundTrip(s.votedFor);
    U64RoundTrip(|s.entries|);
  }

  /** Deserialize undoes Serialize, whatever bytes follow. */
  lemma DeserializeAfterSerialize(s: PersistedState, data: seq<Byte>)
    requires Fits64(s) && Numbered(s.entries) && Serialize(s) <= data
    ensures Deserialize(data) == Ok(s)
  {
    hide Digits, Value, U64, DecodeEntries, EncodeEntries;
    var w := Serialize(s);
    assert w[..24] == Header(s);
    assert Header(s) <= data;
    HeaderReads(s, data);
    EncodedLength(s.entries);
    assert data[24..24 + |EncodeEntries(s.entries)|] == w[24..] == EncodeEntries(s.entries);
    assert [] + s.entries == s.entries;
    DecodeOfEncode(data, 24, [], s.entries);
  }

  /** Writing the three header words just read yields the header's bytes. */
  lemma HeaderRewrites(data: seq<Byte>)
    requires |data| >= 24
    ensures Value(data[..8]) < WORD && Value(data[8..16]) < WORD && Value(data[16..24]) < WORD
    ensures U64(Value(data[..8])) + U64(Value(data[8..16])) + U64(Value(data[16..24])) == data[..24]
  {
    hide Digits, Value;
    U64OfValue(data[..8]);
    U64OfValue(data[8..16]);
    U64OfValue(data[16..24]);
    assert data[..24] == data[..8] + data[8..16] + data[16..24];
  }

  /** Re-serializing any accepted input yields exactly the prefix that was consumed. */
  lemma SerializeAfterDeserialize(s: PersistedState, data: seq<Byte>)
    requires Deserialize(data) == Ok(s)
    ensures Fits64(s) && Numbered(s.entries) && Serialize(s) <= data
  {
    EncodeNothing();
    hide U64, Value, EncodeEntries, DecodeEntries;
    HeaderRewrites(data);
    var n := Value(data[16..24]);
    var r := DecodeEntries(data, 24, n, []);
    EncodeOfDecode(data, 24, n, [], r);
    assert Serialize(s) == data[..24] + data[24..r.end];
    assert data[..r.end] == data[..24] + data[24..r.end];
  }

  /** The decoder accepts exactly the extensions of encodings of numbered 64-bit states, and
      returns the state that was encoded. */
  lemma DecodesExactly(s: PersistedState, data: seq<Byte>)
    ensures Deserialize(data) == Ok(s) <==> Fits64(s) && Numbered(s.entries) && Serialize(s) <= data
  {
    if Deserialize(data) == Ok(s) { SerializeAfterDeserialize(s, data); }
    if Fits64(s) && Numbered(s.entries) && Serialize(s) <= data { DeserializeAfterSerialize(s, data); }
  }

  // ---------------------------------------------------------------- the loops

  method SerializeState(s: PersistedState) returns (buf: seq<Byte>)
    ensures buf == Serialize(s)
    ensures Fits64(s) && Numbered(s.entries) ==> Deserialize(buf) == Ok(s)
  {
    buf := U64(s.currentTerm) + U64(s.votedFor) + U64(|s.entries|);
    var i := 0;
    while i < |s.entries|
      invariant i <= |s.entries|
      invariant buf == Header(s) + EncodeEntries(s.entries[..i])
    {
      var e := s.entries[i];
      buf := buf + U64(e.term) + U64(e.index) + U64(|e.command|) + e.command;
      assert s.entries[..i + 1][..i] == s.entries[..i];
      i := i + 1;
    }
    assert s.entries[..|s.entries|] == s.entries;
    if Fits64(s) && Numbered(s.entries) { DeserializeAfterSerialize(s, buf); }
  }

  /** One guarded read of the moving cursor. */
  method ReadU64(data: seq<Byte>, pos: nat) returns (v: nat, ok: bool, pos': nat)
    requires pos <= |data|
    ensures ok <==> pos + 8 <= |data|
    ensures if ok then pos' == pos + 8 && v == Value(data[pos..pos + 8]) else pos' == pos && v == 0
  {
    if pos + 8 > |data| { return 0, false, pos; }
    return Value(data[pos..pos + 8]), true, pos + 8;
  }

  method DeserializeState(data: seq<Byte>) returns (r: Decoded)
    ensures r == Deserialize(data)
    ensures r.Ok? ==> Serialize(r.state) <= data
  {
    var pos: nat, ok, cur, vote, n := 0, false, 0, 0, 0;
    cur, ok, pos := ReadU64(data, pos);
    if !ok { return Corrupt(TruncatedTerm); }
    vote, ok, pos := ReadU64(data, pos);
    if !ok { return Corrupt(TruncatedVote); }
    n, ok, pos := ReadU64(data, pos);
    if !ok { return Corrupt(TruncatedCount); }
    if n > |data| / 24 + 1 { return Corrupt(ImplausibleCount(n)); }
    var entries: seq<Entry>, prevIndex := [], 0;
    var i := 0;
    while i < n
      invariant i <= n && |entries| == i == prevIndex && pos <= |data|
      invariant DecodeEntries(data, pos, n, entries) == DecodeEntries(data, 24, n, [])
    {
      var start := pos;
      var term, ok1, p1 := ReadU64(data, pos);
      var index, ok2, p2 := ReadU64(data, p1);
      var cmdLen, ok3, p3 := ReadU64(data, p2);
      if !ok1 || !ok2 || !ok3 { return Corrupt(TruncatedEntry(i)); }
      if index != prevIndex + 1 { return Corrupt(NonContiguousIndex(i)); }
      prevIndex := index;
      pos := p3;
      if |data| - pos < cmdLen { return Corrupt(TruncatedCommand(i)); }
      var e := Entry(term, index, data[pos..pos + cmdLen]);
      pos := pos + cmdLen;
      assert e == EntryAtPos(data, start);
      entries := entries + [e];
      i := i + 1;
    }
    r := Ok(PersistedState(cur, vote, entries));
    SerializeAfterDeserialize(r.state, data);
  }
}
