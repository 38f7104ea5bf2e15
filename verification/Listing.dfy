/** What a client can tell from the answers of TKv: a read key has the value of its last set, and a
    listing is a line "key = value" for each pair. */
module Listing {
  import opened Messages
  import opened Bytes
  import opened Kv
  import Log

  // --- Reading one key ------------------------------------------------------------------------

  /** The request for a key. */
  function ReadRequest(key: Bin): Bin { ToBytes(|key|, 2) + key }

  /** The value of the last set of a key, nothing when it was never set or deleted since. */
  function Latest(cmds: seq<Command>, key: Bin): Bin {
    if cmds == [] then []
    else
      var c := cmds[|cmds| - 1];
      if c.key != key then Latest(cmds[..|cmds| - 1], key) else if c.Set? then c.val else []
  }

  lemma {:induction false} EffectsLatest(cmds: seq<Command>, key: Bin)
    requires forall c | c in cmds :: Fits(c)
    ensures var h := Effects(map[], cmds);
            Latest(cmds, key) == (if key in h then h[key] else []) && (key in h <==> Latest(cmds, key) != [])
  {
    if cmds != [] {
      EffectsLatest(cmds[..|cmds| - 1], key);
      assert Fits(cmds[|cmds| - 1]);
    }
  }

  /** After any fitting commands carried through the log, a read of a key returns the value of its last
      set, and nothing when there was none or it was deleted since. */
  lemma ReadLatest(term: nat, cmds: seq<Command>, key: Bin, data: Bin)
    requires (forall c | c in cmds :: Fits(c)) && 1 <= |key| < LIMIT
    ensures var request := ReadRequest(key);
            ReadFormed(request)
            && (IsRead(Fold(map[], EntriesOf(term, cmds)), request, data) <==> data == Latest(cmds, key))
  {
    hide ToBytes, FromBytes, Pow256, Fits, Latest, Fold, EntriesOf;
    CommandsRoundTrip(map[], term, cmds);
    EffectsLatest(cmds, key);
    FieldSizes();
    FieldRoundTrip(|key|, 2);
    var request := ReadRequest(key);
    assert request[..2] == ToBytes(|key|, 2) && request[2..2 + |key|] == key;
  }

  // --- Reading a listing ----------------------------------------------------------------------

  const LF: byte := 10
  const SEP: Bin := [32, 61, 32]

  /** Where the first line feed is; |data| when there is none. */
  function LineEnd(data: Bin): (i: nat)
    ensures i <= |data| && (forall k | 0 <= k < i :: data[k] != LF) && (i < |data| ==> data[i] == LF)
  {
    if data == [] || data[0] == LF then 0 else LineEnd(data[1..]) + 1
  }

  /** The lines of a text. */
  function Cut(data: Bin): seq<Bin>
    decreases |data|
  {
    if data == [] then []
    else
      var i := LineEnd(data);
      [data[..i]] + (if i < |data| then Cut(data[i + 1..]) else [])
  }

  /** A separator begins at `i`. */
  predicate SepAt(s: Bin, i: nat) { i + 2 < |s| && s[i] == SEP[0] && s[i + 1] == SEP[1] && s[i + 2] == SEP[2] }

  /** The first separator from `k` on; |s| when there is none. */
  function FirstSep(s: Bin, k: nat): (i: nat)
    requires k <= |s|
    ensures k <= i <= |s| && (forall j | k <= j < i :: !SepAt(s, j)) && (i < |s| ==> SepAt(s, i))
    decreases |s| - k
  {
    if k == |s| || SepAt(s, k) then k else FirstSep(s, k + 1)
  }

  /** Key and value of a line. */
  function PairOf(line: Bin): Option<(Bin, Bin)> {
    var i := FirstSep(line, 0);
    if i < |line| then Some((line[..i], line[i + 3..])) else None
  }

  function PairsIn(lines: seq<Bin>): seq<Option<(Bin, Bin)>> {
    seq(|lines|, i requires 0 <= i < |lines| => PairOf(lines[i]))
  }

  /** What a reader takes a listing for. */
  function PairsOf(data: Bin): seq<Option<(Bin, Bin)>> { PairsIn(Cut(data)) }

  /** The pair can be told from its line: neither part has a line feed, and no separator begins in the key,
      not even one that ends in the space behind it. */
  ghost predicate Plain(key: Bin, val: Bin) {
    LF !in key && LF !in val && forall i: nat :: !SepAt(key + [32], i)
  }

  /** A text that ends its last line. */
  predicate Whole(data: Bin) { data == [] || data[|data| - 1] == LF }

  lemma EndOfFirst(data: Bin, rest: Bin)
    requires LF in data
    ensures LineEnd(data + rest) == LineEnd(data) < |data|
  {
    var i, j := LineEnd(data), LineEnd(data + rest);
    assert forall k | 0 <= k < |data| :: (data + rest)[k] == data[k];
  }

  lemma CutStep(data: Bin)
    requires LineEnd(data) < |data|
    ensures Cut(data) == [data[..LineEnd(data)]] + Cut(data[LineEnd(data) + 1..])
  {
    hide LineEnd;
  }

  lemma {:induction false} CutConcat(a: Bin, b: Bin)
    requires Whole(a)
    ensures Cut(a + b) == Cut(a) + Cut(b)
    decreases |a|
  {
    hide Cut, LineEnd;
    if a == [] {
      assert a + b == b;
      NothingToCut();
    } else {
      assert a[|a| - 1] == LF;
      EndOfFirst(a, b);
      var i := LineEnd(a);
      var line, rest := a[..i], a[i + 1..];
      SplitConcat(a, b, i);
      CutStep(a);
      CutStep(a + b);
      CutConcat(rest, b);
      Log.Assoc([line], Cut(rest), Cut(b));
    }
  }

  lemma NothingToCut()
    ensures Cut([]) == []
  {
  }

  lemma SplitConcat(a: Bin, b: Bin, i: nat)
    requires i < |a| && Whole(a)
    ensures (a + b)[i + 1..] == a[i + 1..] + b && (a + b)[..i] == a[..i] && Whole(a[i + 1..])
  {
  }

  lemma PairsConcat(a: Bin, b: Bin)
    requires Whole(a)
    ensures PairsOf(a + b) == PairsOf(a) + PairsOf(b)
  {
    CutConcat(a, b);
  }

  /** A line without a line feed inside is one line; with one it is more. */
  lemma OneLineIff(line: Bin)
    ensures LF !in line ==> Cut(line + [LF]) == [line]
    ensures LF in line ==> |Cut(line + [LF])| >= 2
  {
    var data := line + [LF];
    var i := LineEnd(data);
    assert data[|line|] == LF;
    assert forall k | 0 <= k < |line| :: data[k] == line[k];
    if LF in line {
      var k :| 0 <= k < |line| && line[k] == LF;
      assert data[i + 1..] != [];
    } else {
      assert i == |line| && data[..i] == line && data[i + 1..] == [];
    }
  }

  /** The separator of a line is found behind the key exactly when none begins in the key. */
  lemma SepBehindKeyIff(key: Bin, val: Bin)
    ensures FirstSep(key + SEP + val, 0) == |key| <==> forall i: nat :: !SepAt(key + [32], i)
  {
    var line, first := key + SEP + val, FirstSep(key + SEP + val, 0);
    assert SepAt(line, |key|);
    forall i: nat | i < |key| ensures SepAt(line, i) <==> SepAt(key + [32], i) {
      assert forall k | 0 <= k <= |key| :: line[k] == (key + [32])[k];
      assert line[|key|] == 32 != SEP[1];
    }
  }

  /** A line is read as its pair exactly when the pair is plain. */
  lemma LineRoundTripIff(key: Bin, val: Bin)
    ensures PairsOf(key + SEP + val + [LF]) == [Some((key, val))] <==> Plain(key, val)
  {
    var line := key + SEP + val;
    OneLineIff(line);
    SepBehindKeyIff(key, val);
    InLine(key, val);
    hide Cut, FirstSep;
    if LF !in line {
      var i := FirstSep(line, 0);
      assert PairsOf(line + [LF]) == [PairOf(line)];
      assert line[..|key|] == key && line[|key| + 3..] == val;
    }
  }

  lemma InLine(key: Bin, val: Bin)
    ensures LF in key + SEP + val <==> LF in key || LF in val
  {
  }

  /** Every text with a line feed at its end has a line. */
  lemma SomeLine(line: Bin)
    ensures |PairsOf(line + [LF])| >= 1
  {
  }

  // --- Whole listings -------------------------------------------------------------------------

  function PairsFor(h: Store, keys: seq<Bin>): seq<Option<(Bin, Bin)>>
    requires forall k | k in keys :: k in h
  {
    seq(|keys|, i requires 0 <= i < |keys| => Some((keys[i], h[keys[i]])))
  }

  lemma {:induction false} LinesWhole(h: Store, keys: seq<Bin>)
    requires forall k | k in keys :: k in h
    ensures Whole(Lines(h, keys))
  {
  }

  lemma {:induction false} PairsAtLeast(h: Store, keys: seq<Bin>)
    requires forall k | k in keys :: k in h
    ensures |PairsOf(Lines(h, keys))| >= |keys|
  {
    if keys != [] {
      hide PairsOf;
      var n := |keys| - 1;
      PairsAtLeast(h, keys[..n]);
      LinesWhole(h, keys[..n]);
      LineIs(h, keys[n]);
      PairsConcat(Lines(h, keys[..n]), Line(h, keys[n]));
      SomeLine(keys[n] + SEP + h[keys[n]]);
    }
  }

  lemma LineIs(h: Store, key: Bin)
    requires key in h
    ensures Line(h, key) == key + SEP + h[key] + [LF]
  {
  }

  /** The last line is read by itself. */
  lemma LastLineIff(h: Store, keys: seq<Bin>)
    requires keys != [] && forall k | k in keys :: k in h
    ensures var n := |keys| - 1;
            PairsOf(Lines(h, keys)) == PairsFor(h, keys) <==>
            PairsOf(Lines(h, keys[..n])) == PairsFor(h, keys[..n]) && Plain(keys[n], h[keys[n]])
  {
    hide PairsOf, Plain;
    var n := |keys| - 1;
    var init, k := keys[..n], keys[n];
    assert keys == init + [k];
    LinesWhole(h, init);
    LineIs(h, k);
    PairsConcat(Lines(h, init), Line(h, k));
    PairsAtLeast(h, init);
    SomeLine(k + SEP + h[k]);
    LineRoundTripIff(k, h[k]);
    assert PairsFor(h, keys) == PairsFor(h, init) + [Some((k, h[k]))];
    SplitEqual(PairsOf(Lines(h, init)), PairsOf(Line(h, k)), PairsFor(h, init), [Some((k, h[k]))]);
  }

  /** A listing is read as exactly its pairs, in its order, exactly when all of them are plain. */
  lemma {:induction false} ListingRoundTripIff(h: Store, keys: seq<Bin>)
    requires forall k | k in keys :: k in h
    ensures PairsOf(Lines(h, keys)) == PairsFor(h, keys) <==> forall k | k in keys :: Plain(k, h[k])
  {
    if keys == [] {
      assert Cut([]) == [];
    } else {
      hide PairsOf, Plain, Lines, PairsFor;
      var n := |keys| - 1;
      assert keys == keys[..n] + [keys[n]];
      LastLineIff(h, keys);
      ListingRoundTripIff(h, keys[..n]);
    }
  }

  lemma SplitEqual<T>(a: seq<T>, b: seq<T>, c: seq<T>, d: seq<T>)
    requires |a| >= |c| && |b| >= |d|
    ensures a + b == c + d <==> a == c && b == d
  {
    if a + b == c + d {
      assert |a + b| == |c + d|;
      assert a == (a + b)[..|a|] && c == (c + d)[..|c|];
      assert b == (a + b)[|a|..] && d == (c + d)[|c|..];
    }
  }

  ghost predicate PlainStore(h: Store) { forall k | k in h :: Plain(k, h[k]) }

  /** What `list` returns for a plain store is read as its pairs, each once and nothing else. */
  lemma ListingTells(h: Store, request: Bin, data: Bin) returns (keys: seq<Bin>)
    requires ReadFormed(request) && FromBytes(request[..2]) == 0 && IsRead(h, request, data) && PlainStore(h)
    ensures Enumerates(keys, h) && PairsOf(data) == PairsFor(h, keys)
  {
    keys :| Enumerates(keys, h) && data == Lines(h, keys);
    hide PairsOf, Plain;
    ListingRoundTripIff(h, keys);
  }

  /** Plain stores with equal listings are equal. */
  lemma EqualListings(h: Store, h': Store, request: Bin, data: Bin)
    requires ReadFormed(request) && FromBytes(request[..2]) == 0 && PlainStore(h) && PlainStore(h')
    requires IsRead(h, request, data) && IsRead(h', request, data)
    ensures h == h'
  {
    hide PairsOf, IsRead, PlainStore;
    var keys := ListingTells(h, request, data);
    var keys' := ListingTells(h', request, data);
    SamePairs(h, h', keys, keys');
  }

  lemma SamePairs(h: Store, h': Store, keys: seq<Bin>, keys': seq<Bin>)
    requires Enumerates(keys, h) && Enumerates(keys', h') && PairsFor(h, keys) == PairsFor(h', keys')
    ensures h == h'
  {
    assert |keys| == |PairsFor(h, keys)| == |PairsFor(h', keys')| == |keys'|;
    forall i | 0 <= i < |keys| ensures keys[i] == keys'[i] && h[keys[i]] == h'[keys'[i]] {
      assert PairsFor(h, keys)[i] == PairsFor(h', keys')[i];
    }
    assert keys == keys';
    assert h.Keys == h'.Keys by { assert forall k :: k in h <==> k in h'; }
    forall k | k in h ensures h[k] == h'[k] {
      var i :| 0 <= i < |keys| && keys[i] == k;
    }
  }

  /** Without that different stores can have the same listing, although no key and no value has a line
      feed or a separator in it: the key "a =" with "b", and the key "a" with "= b". */
  lemma AmbiguousListing() returns (h: Store, h': Store, keys: seq<Bin>, keys': seq<Bin>)
    ensures h != h' && Enumerates(keys, h) && Enumerates(keys', h') && Lines(h, keys) == Lines(h', keys')
    ensures forall k | k in h :: LF !in k && LF !in h[k] && forall i: nat :: !SepAt(k, i) && !SepAt(h[k], i)
    ensures forall k | k in h' :: LF !in k && LF !in h'[k] && forall i: nat :: !SepAt(k, i) && !SepAt(h'[k], i)
  {
    h, h' := map[[97, 32, 61] := [98]], map[[97] := [61, 32, 98]];
    keys, keys' := [[97, 32, 61]], [[97]];
    assert h[keys[0]] == [98] && h'[keys'[0]] == [61, 32, 98];
    assert keys[..0] == [] && keys'[..0] == [];
    assert Lines(h, keys) == [97, 32, 61, 32, 61, 32, 98, 10];
    assert Lines(h', keys') == [97, 32, 61, 32, 61, 32, 98, 10];
  }
}
