/** TKv of examples/kv.cpp: a replicated map from keys to values, and the byte layout of its
    commands: two 16-bit sizes, the key, the value. A value of size 0 means deletion. */
module Kv {
  import opened Messages
  import opened Bytes

  type Store = map<Bin, Bin>

  /** What a client asks for. */
  datatype Command = Set(key: Bin, val: Bin) | Del(key: Bin)

  function Effect(h: Store, c: Command): Store {
    match c
    case Set(key, val) => h[key := val]
    case Del(key) => h - {key}
  }

  const LIMIT: nat := 0x1_0000

  /** The command body the client builds; the sizes are narrowed to 16 bits. */
  function Encode(c: Command): Bin {
    var val := if c.Set? then c.val else [];
    ToBytes(|c.key| % LIMIT, 2) + ToBytes(|val| % LIMIT, 2) + c.key + val
  }

  function KeySize(data: Bin): nat
    requires |data| >= 4
  {
    FromBytes(data[..2])
  }

  function ValSize(data: Bin): nat
    requires |data| >= 4
  {
    FromBytes(data[2..4])
  }

  /** The sizes stay within the command. */
  predicate WellFormed(data: Bin) {
    |data| >= 4 && 4 + KeySize(data) + ValSize(data) <= |data|
  }

  function KeyOf(data: Bin): Bin
    requires WellFormed(data)
  {
    data[4..4 + KeySize(data)]
  }

  function ValOf(data: Bin): Bin
    requires WellFormed(data)
  {
    data[4 + KeySize(data)..4 + KeySize(data) + ValSize(data)]
  }

  /** TKv::Write on the command bytes; a command that is not well formed is outside the model. */
  function Apply(h: Store, data: Bin): Store {
    if !WellFormed(data) then h
    else if ValSize(data) != 0 then h[KeyOf(data) := ValOf(data)]
    else h - {KeyOf(data)}
  }

  function Fold(h: Store, entries: seq<Entry>): Store {
    if entries == [] then h
    else Apply(Fold(h, entries[..|entries| - 1]), entries[|entries| - 1].data)
  }

  lemma {:induction false} FoldConcat(h: Store, a: seq<Entry>, b: seq<Entry>)
    ensures Fold(h, a + b) == Fold(Fold(h, a), b)
  {
    if b == [] {
      assert a + b == a;
    } else {
      var n := |b| - 1;
      assert (a + b)[..|a + b| - 1] == a + b[..n];
      FoldConcat(h, a, b[..n]);
    }
  }

  // --- Round trip of a command ----------------------------------------------------------------

  /** The sizes survive the narrowing, and a value to set is not mistaken for a deletion. */
  predicate Fits(c: Command) {
    |c.key| < LIMIT && (c.Set? ==> 1 <= |c.val| < LIMIT)
  }

  lemma EncodedSizes(c: Command)
    ensures var val := if c.Set? then c.val else [];
            var data := Encode(c);
            && WellFormed(data) && KeySize(data) == |c.key| % LIMIT && ValSize(data) == |val| % LIMIT
            && data[4..] == c.key + val
  {
    hide ToBytes, FromBytes, Pow256;
    var val := if c.Set? then c.val else [];
    var ks, vs := ToBytes(|c.key| % LIMIT, 2), ToBytes(|val| % LIMIT, 2);
    FieldSizes();
    FieldRoundTrip(|c.key| % LIMIT, 2);
    FieldRoundTrip(|val| % LIMIT, 2);
    SplitBody(ks, vs, c.key, val);
  }

  lemma SplitBody(ks: Bin, vs: Bin, key: Bin, val: Bin)
    requires |ks| == 2 && |vs| == 2
    ensures var data := ks + vs + key + val;
            data[..2] == ks && data[2..4] == vs && data[4..] == key + val
  {
  }

  /** What the narrowed sizes cut out of the body. */
  lemma EncodedParts(c: Command)
    ensures var val := if c.Set? then c.val else [];
            var data := Encode(c);
            var ks, vs := |c.key| % LIMIT, |val| % LIMIT;
            && WellFormed(data) && KeyOf(data) == c.key[..ks] && ValSize(data) == vs
            && (ks == |c.key| ==> ValOf(data) == val[..vs])
  {
    EncodedSizes(c);
    hide ToBytes, FromBytes, Pow256, Encode;
    var val := if c.Set? then c.val else [];
    var data := Encode(c);
    var ks, vs := |c.key| % LIMIT, |val| % LIMIT;
    var body := c.key + val;
    assert KeyOf(data) == data[4..][..ks] == body[..ks];
    assert ValOf(data) == data[4..][ks..ks + vs] == body[ks..ks + vs];
  }

  /** A command has the effect the client asked for, on every store, exactly when it fits. */
  lemma CommandRoundTripIff(c: Command)
    ensures (forall h: Store :: Apply(h, Encode(c)) == Effect(h, c)) <==> Fits(c)
  {
    if !Fits(c) {
      var h := Misapplied(c);
    } else {
      EncodedParts(c);
      hide Encode;
      assert c.key[..|c.key|] == c.key;
      assert c.Set? ==> c.val[..|c.val|] == c.val;
    }
  }

  /** A store on which a command that does not fit has another effect. */
  lemma Misapplied(c: Command) returns (h: Store)
    requires !Fits(c)
    ensures Apply(h, Encode(c)) != Effect(h, c)
  {
    EncodedParts(c);
    hide Encode;
    var data := Encode(c);
    h := if c.Del? then map[c.key := []] else map[];
    if c.Del? || |c.key| >= LIMIT {
      assert KeyOf(data) != c.key;
      assert c.key in Effect(h, c) <==> c.key !in Apply(h, data);
    } else if ValSize(data) == 0 {
      assert c.key in Effect(h, c) && c.key !in Apply(h, data);
    } else {
      assert c.key[..|c.key|] == c.key;
      assert ValOf(data) != c.val;
      assert Effect(h, c)[c.key] != Apply(h, data)[c.key];
    }
  }

  function EntriesOf(term: nat, cmds: seq<Command>): seq<Entry> {
    seq(|cmds|, i requires 0 <= i < |cmds| => Entry(term, 0, Encode(cmds[i])))
  }

  function Effects(h: Store, cmds: seq<Command>): Store {
    if cmds == [] then h else Effect(Effects(h, cmds[..|cmds| - 1]), cmds[|cmds| - 1])
  }

  /** Any sequence of fitting commands, carried through the log, builds the map they describe. */
  lemma {:induction false} CommandsRoundTrip(h: Store, term: nat, cmds: seq<Command>)
    requires forall c | c in cmds :: Fits(c)
    ensures Fold(h, EntriesOf(term, cmds)) == Effects(h, cmds)
  {
    if cmds != [] {
      var n := |cmds| - 1;
      CommandsRoundTrip(h, term, cmds[..n]);
      assert EntriesOf(term, cmds)[..n] == EntriesOf(term, cmds[..n]);
      CommandRoundTripIff(cmds[n]);
      assert Fits(cmds[n]);
    }
  }

  // --- The object -----------------------------------------------------------------------------

  /** The line the list command prints for a key. */
  function Line(h: Store, key: Bin): Bin
    requires key in h
  {
    key + [32, 61, 32] + h[key] + [10]
  }

  /** The lines of some keys, in order. */
  function Lines(h: Store, keys: seq<Bin>): Bin
    requires forall k | k in keys :: k in h
  {
    if keys == [] then [] else Lines(h, keys[..|keys| - 1]) + Line(h, keys[|keys| - 1])
  }

  /** All keys of `h`, each once, in some order. */
  ghost predicate Enumerates(keys: seq<Bin>, h: Store) {
    (forall k :: k in keys <==> k in h) && forall i, j | 0 <= i < j < |keys| :: keys[i] != keys[j]
  }

  /** What reading `request` from `h` may return: the value of a key, nothing for a missing one; a
      key of size 0 lists the whole store. */
  ghost predicate IsRead(h: Store, request: Bin, data: Bin)
    requires ReadFormed(request)
  {
    var size := FromBytes(request[..2]);
    var key := request[2..2 + size];
    if size == 0 then exists keys :: Enumerates(keys, h) && data == Lines(h, keys)
    else data == if key in h then h[key] else []
  }

  predicate ReadFormed(request: Bin) {
    |request| >= 2 && 2 + FromBytes(request[..2]) <= |request|
  }

  class KvRsm {
    var store: Store
    var lastAppliedIndex: nat

    constructor ()
      ensures store == map[] && lastAppliedIndex == 0
    {
      store := map[];
      lastAppliedIndex := 0;
    }

    /** Applies an entry once: one at or below LastAppliedIndex is skipped. */
    method Write(e: Entry, index: nat)
      requires WellFormed(e.data)
      modifies this
      ensures lastAppliedIndex == if old(lastAppliedIndex) < index then index else old(lastAppliedIndex)
      ensures store == if old(lastAppliedIndex) < index then Apply(old(store), e.data) else old(store)
    {
      if lastAppliedIndex < index {
        var keySize, valSize := KeySize(e.data), ValSize(e.data);
        var k := e.data[4..4 + keySize];
        if valSize != 0 {
          store := store[k := e.data[4 + keySize..4 + keySize + valSize]];
        } else {
          store := store - {k};
        }
        lastAppliedIndex := index;
      }
    }

    /** Prepare copies the command body into a log entry. */
    method Prepare(body: Bin) returns (e: Entry)
      ensures e.data == body && e.flags == 0
    {
      e := Entry(1, 0, body);
    }

    method Read(request: Bin) returns (data: Bin)
      requires ReadFormed(request)
      ensures IsRead(store, request, data)
    {
      var size := FromBytes(request[..2]);
      if size == 0 {
        data := List();
      } else {
        var key := request[2..2 + size];
        data := if key in store then store[key] else [];
      }
    }

    method List() returns (data: Bin)
      ensures exists keys :: Enumerates(keys, store) && data == Lines(store, keys)
    {
      data := [];
      ghost var keys := [];
      var left := store.Keys;
      while left != {}
        invariant left <= store.Keys
        invariant forall k :: k in keys <==> k in store && k !in left
        invariant forall i, j | 0 <= i < j < |keys| :: keys[i] != keys[j]
        invariant data == Lines(store, keys)
        decreases left
      {
        var k :| k in left;
        assert (keys + [k])[..|keys|] == keys;
        data := data + (k + [32, 61, 32] + store[k] + [10]);
        keys := keys + [k];
        left := left - {k};
      }
      assert Enumerates(keys, store);
    }
  }
}
