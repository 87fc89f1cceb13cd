/**
  Codecs of the values the shanten results are built from, and the two
  container shapes the result codecs use: a set of keys written as a list,
  and a dict whose keys are codec-encoded strings.
*/
module Codecs {
  import opened PyJson

  /** `__encode__` / `__decode__` of a type whose encoding is a string, so that
      it can serve as a dict key (Tile, Tatsu). */
  datatype KeyCodec<!T> = KeyCodec(encode: T -> string, decode: Json -> Result<T>)

  /** `__encode__` / `__decode__` of a type encoded as an arbitrary JSON value (Hand). */
  datatype ValueCodec<!T> = ValueCodec(encode: T -> Json, decode: Json -> Result<T>)

  /** Decoding the string a key encodes to gives the key back. */
  ghost predicate KeyRoundTrips<T(!new)>(c: KeyCodec<T>)
  {
    forall t :: c.decode(JStr(c.encode(t))) == Ok(t)
  }

  /** Decoding the encoding of a value gives the value back. */
  ghost predicate ValueRoundTrips<T(!new)>(c: ValueCodec<T>)
  {
    forall t :: c.decode(c.encode(t)) == Ok(t)
  }

  /** A key codec that round-trips never encodes two keys alike. */
  lemma KeyEncodingInjective<T(!new)>(c: KeyCodec<T>, a: T, b: T)
    requires KeyRoundTrips(c)
    ensures a != b ==> c.encode(a) != c.encode(b)
  {
    assert c.decode(JStr(c.encode(a))) == Ok(a);
    assert c.decode(JStr(c.encode(b))) == Ok(b);
  }

  // ---------------------------------------------------------------- sets

  /** `[t.__encode__() for t in xs]` */
  function EncodeAll<T>(c: KeyCodec<T>, xs: seq<T>): (r: seq<Json>)
    ensures |r| == |xs|
    ensures forall i :: 0 <= i < |xs| ==> r[i] == JStr(c.encode(xs[i]))
  {
    if xs == [] then [] else [JStr(c.encode(xs[0]))] + EncodeAll(c, xs[1..])
  }

  /** A set written as a list, in the set's own iteration order. */
  ghost function EncodeSet<T(!new)>(c: KeyCodec<T>, s: set<T>): seq<Json>
  {
    EncodeAll(c, SetToSeq(s))
  }

  /** `set(T.__decode__(x) for x in items)`: the first element that fails to decode
      raises, otherwise the set of the decoded elements. */
  function DecodeSet<T>(c: KeyCodec<T>, items: seq<Json>): Result<set<T>>
  {
    if items == [] then Ok({})
    else
      var t :- c.decode(items[0]);
      var rest :- DecodeSet(c, items[1..]);
      Ok({t} + rest)
  }

  /** `set(T.__decode__(x) for x in raw)`: `raw` is iterated, then each element decoded. */
  ghost function DecodeIterable<T>(c: KeyCodec<T>, raw: Json): Result<set<T>>
  {
    var items :- Iterate(raw);
    DecodeSet(c, items)
  }

  /** `DecodeSet` succeeds exactly when every element decodes, and then yields the set
      of the decoded elements; otherwise it reports the error of the first element that fails. */
  lemma {:induction false} DecodeSetSpec<T>(c: KeyCodec<T>, items: seq<Json>)
    ensures DecodeSet(c, items).Ok? <==> forall i :: 0 <= i < |items| ==> c.decode(items[i]).Ok?
    ensures DecodeSet(c, items).Ok? ==>
      DecodeSet(c, items).value == set i | 0 <= i < |items| :: c.decode(items[i]).value
    ensures DecodeSet(c, items).Err? ==>
      exists k :: 0 <= k < |items| && c.decode(items[k]).Err?
        && DecodeSet(c, items).error == c.decode(items[k]).error
        && forall i :: 0 <= i < k ==> c.decode(items[i]).Ok?
  {
    if items != [] {
      DecodeSetSpec(c, items[1..]);
      var tail := items[1..];
      assert forall i :: 1 <= i < |items| ==> items[i] == tail[i - 1];
      if c.decode(items[0]).Ok? && DecodeSet(c, tail).Ok? {
        var t := c.decode(items[0]).value;
        var whole := set i | 0 <= i < |items| :: c.decode(items[i]).value;
        var rest := set i | 0 <= i < |tail| :: c.decode(tail[i]).value;
        forall x | x in whole ensures x in {t} + rest {
          var i :| 0 <= i < |items| && x == c.decode(items[i]).value;
          if i > 0 { assert x == c.decode(tail[i - 1]).value; }
        }
        forall x | x in rest ensures x in whole {
          var i :| 0 <= i < |tail| && x == c.decode(tail[i]).value;
          assert x == c.decode(items[i + 1]).value;
        }
        assert whole == {t} + rest;
      } else if c.decode(items[0]).Ok? {
        var k :| 0 <= k < |tail| && c.decode(tail[k]).Err?
          && DecodeSet(c, tail).error == c.decode(tail[k]).error
          && forall i :: 0 <= i < k ==> c.decode(tail[i]).Ok?;
        assert c.decode(items[k + 1]).Err?;
      } else {
        assert c.decode(items[0]).Err?;
      }
    }
  }

  /** Decoding an encoded sequence of keys gives back the set of its elements. */
  lemma {:induction false} DecodeEncodedAll<T>(c: KeyCodec<T>, xs: seq<T>)
    requires forall x :: x in xs ==> c.decode(JStr(c.encode(x))) == Ok(x)
    ensures DecodeSet(c, EncodeAll(c, xs)) == Ok(set x | x in xs)
  {
    if xs != [] {
      var e := EncodeAll(c, xs);
      DecodeEncodedAll(c, xs[1..]);
      assert e[1..] == EncodeAll(c, xs[1..]);
      assert c.decode(e[0]) == Ok(xs[0]);
      assert DecodeSet(c, e) == Ok({xs[0]} + set x | x in xs[1..]);
      assert (set x | x in xs) == {xs[0]} + set x | x in xs[1..];
    } else {
      assert (set x | x in xs) == {};
    }
  }

  /** The list a set is written as names each element exactly once, and nothing else. */
  lemma EncodedSetEnumerates<T(!new)>(c: KeyCodec<T>, s: set<T>)
    requires KeyRoundTrips(c)
    ensures |EncodeSet(c, s)| == |s|
    ensures forall t :: t in s <==> JStr(c.encode(t)) in EncodeSet(c, s)
    ensures forall i, j :: 0 <= i < j < |EncodeSet(c, s)| ==> EncodeSet(c, s)[i] != EncodeSet(c, s)[j]
  {
    var xs := SetToSeq(s);
    var r := EncodeSet(c, s);
    forall t | JStr(c.encode(t)) in r ensures t in s {
      var i :| 0 <= i < |r| && r[i] == JStr(c.encode(t));
      KeyEncodingInjective(c, t, xs[i]);
    }
    forall i, j | 0 <= i < j < |r| ensures r[i] != r[j] {
      KeyEncodingInjective(c, xs[i], xs[j]);
    }
  }

  /** A set survives being written as a list and read back. */
  lemma SetRoundTrip<T(!new)>(c: KeyCodec<T>, s: set<T>)
    requires KeyRoundTrips(c)
    ensures DecodeSet(c, EncodeSet(c, s)) == Ok(s)
  {
    var xs := SetToSeq(s);
    DecodeEncodedAll(c, xs);
    assert (set x | x in xs) == s;
  }

  /** A set written as a JSON list is read back by iterating the list. */
  lemma IterableRoundTrip<T(!new)>(c: KeyCodec<T>, s: set<T>)
    requires KeyRoundTrips(c)
    ensures DecodeIterable(c, JArr(EncodeSet(c, s))) == Ok(s)
  {
    var items := EncodeSet(c, s);
    assert Iterate(JArr(items)) == Ok(items);
    SetRoundTrip(c, s);
  }

  // ---------------------------------------------------------------- dicts

  /** `(k.__encode__(), v.__encode__())` for one entry. */
  function EncodeEntry<K, V>(kc: KeyCodec<K>, ev: V -> Json, p: (K, V)): (string, Json)
  {
    (kc.encode(p.0), ev(p.1))
  }

  function EncodeEntries<K, V>(kc: KeyCodec<K>, ev: V -> Json, ps: seq<(K, V)>): (r: seq<(string, Json)>)
    ensures |r| == |ps|
    ensures forall i :: 0 <= i < |ps| ==> r[i] == EncodeEntry(kc, ev, ps[i])
  {
    if ps == [] then [] else [EncodeEntry(kc, ev, ps[0])] + EncodeEntries(kc, ev, ps[1..])
  }

  /** `dict((k.__encode__(), v.__encode__()) for (k, v) in m.items())` */
  ghost function EncodeDict<K(!new), V(!new)>(kc: KeyCodec<K>, ev: V -> Json, m: map<K, V>): Json
  {
    JObj(DictOf(EncodeEntries(kc, ev, SetToSeq(m.Items))))
  }

  /** `(K.__decode__(k), decodeValue(v))` for one entry: the key first, then the value. */
  function DecodeEntry<K, V>(kc: KeyCodec<K>, dv: Json -> Result<V>, q: (string, Json)): Result<(K, V)>
  {
    var k :- kc.decode(JStr(q.0));
    var v :- dv(q.1);
    Ok((k, v))
  }

  function DecodeEntries<K, V>(kc: KeyCodec<K>, dv: Json -> Result<V>, qs: seq<(string, Json)>): Result<seq<(K, V)>>
  {
    if qs == [] then Ok([])
    else
      var p :- DecodeEntry(kc, dv, qs[0]);
      var rest :- DecodeEntries(kc, dv, qs[1..]);
      Ok([p] + rest)
  }

  /** `dict((K.__decode__(k), decodeValue(v)) for (k, v) in data.items())` */
  ghost function DecodeDict<K, V>(kc: KeyCodec<K>, dv: Json -> Result<V>, data: Json): Result<map<K, V>>
  {
    var qs :- Items(data);
    var ps :- DecodeEntries(kc, dv, qs);
    Ok(DictOf(ps))
  }

  /** `DecodeEntries` decodes the entries one by one and stops at the first that fails. */
  lemma {:induction false} DecodeEntriesSpec<K, V>(kc: KeyCodec<K>, dv: Json -> Result<V>, qs: seq<(string, Json)>)
    ensures DecodeEntries(kc, dv, qs).Ok? <==> forall i :: 0 <= i < |qs| ==> DecodeEntry(kc, dv, qs[i]).Ok?
    ensures DecodeEntries(kc, dv, qs).Ok? ==>
      |DecodeEntries(kc, dv, qs).value| == |qs|
      && forall i :: 0 <= i < |qs| ==> DecodeEntries(kc, dv, qs).value[i] == DecodeEntry(kc, dv, qs[i]).value
  {
    if qs != [] {
      DecodeEntriesSpec(kc, dv, qs[1..]);
      var tail := qs[1..];
      assert forall i :: 1 <= i < |qs| ==> qs[i] == tail[i - 1];
    }
  }

  /** The entries of `m`, each encoded. */
  ghost function EncodedItems<K, V>(kc: KeyCodec<K>, ev: V -> Json, m: map<K, V>): set<(string, Json)>
  {
    set p | p in m.Items :: EncodeEntry(kc, ev, p)
  }

  /** Encoding the entries of a map, each once, never writes two of them under the same string. */
  lemma EncodedKeysDistinct<K(!new), V>(kc: KeyCodec<K>, ev: V -> Json, m: map<K, V>, es: seq<(K, V)>)
    requires KeyRoundTrips(kc)
    requires forall i, j :: 0 <= i < j < |es| ==> es[i] != es[j]
    requires forall i :: 0 <= i < |es| ==> es[i] in m.Items
    ensures KeysDistinct(EncodeEntries(kc, ev, es))
  {
    var ps := EncodeEntries(kc, ev, es);
    forall i, j | 0 <= i < j < |ps| ensures ps[i].0 != ps[j].0 {
      assert es[i].0 != es[j].0;
      KeyEncodingInjective(kc, es[i].0, es[j].0);
    }
  }

  /** The entries of an encoded dict are exactly the encoded entries of the map:
      every key appears once, under its own string, with its own encoded value. */
  lemma EncodedDictEntries<K(!new), V(!new)>(kc: KeyCodec<K>, ev: V -> Json, m: map<K, V>)
    requires KeyRoundTrips(kc)
    ensures EncodeDict(kc, ev, m).JObj?
    ensures EncodeDict(kc, ev, m).fields.Items == EncodedItems(kc, ev, m)
  {
    var es := SetToSeq(m.Items);
    var ps := EncodeEntries(kc, ev, es);
    EncodedKeysDistinct(kc, ev, m, es);
    DictOfDistinct(ps);
    EncodedEntriesCover(kc, ev, m, es);
  }

  /** Encoding an enumeration of the entries of `m` gives an enumeration of its encoded entries. */
  lemma EncodedEntriesCover<K, V>(kc: KeyCodec<K>, ev: V -> Json, m: map<K, V>, es: seq<(K, V)>)
    requires forall p :: p in m.Items <==> p in es
    ensures (set q | q in EncodeEntries(kc, ev, es)) == EncodedItems(kc, ev, m)
  {
    var ps := EncodeEntries(kc, ev, es);
    forall q | q in EncodedItems(kc, ev, m) ensures q in ps {
      var p :| p in m.Items && q == EncodeEntry(kc, ev, p);
      var i :| 0 <= i < |es| && es[i] == p;
      assert ps[i] == q;
    }
    forall q | q in ps ensures q in EncodedItems(kc, ev, m) {
      var i :| 0 <= i < |ps| && ps[i] == q;
      assert es[i] in m.Items;
    }
  }

  /** Reading back an entry written from `m` gives the entry of `m` it was written from. */
  lemma DecodeEncodedEntry<K(!new), V>(kc: KeyCodec<K>, ev: V -> Json, dv: Json -> Result<V>, m: map<K, V>, q: (string, Json))
    requires KeyRoundTrips(kc)
    requires forall v :: v in m.Values ==> dv(ev(v)) == Ok(v)
    requires q in EncodedItems(kc, ev, m)
    ensures DecodeEntry(kc, dv, q).Ok?
    ensures DecodeEntry(kc, dv, q).value in m.Items
    ensures EncodeEntry(kc, ev, DecodeEntry(kc, dv, q).value) == q
  {
    var p :| p in m.Items && q == EncodeEntry(kc, ev, p);
    assert p.1 in m.Values;
    assert DecodeEntry(kc, dv, q) == Ok(p);
  }

  /** A dict survives being encoded and decoded, provided its keys' codec round-trips
      and so does its values'. */
  lemma DictRoundTrip<K(!new), V(!new)>(kc: KeyCodec<K>, ev: V -> Json, dv: Json -> Result<V>, m: map<K, V>)
    requires KeyRoundTrips(kc)
    requires forall v :: v in m.Values ==> dv(ev(v)) == Ok(v)
    ensures DecodeDict(kc, dv, EncodeDict(kc, ev, m)) == Ok(m)
  {
    EncodedDictEntries(kc, ev, m);
    var fields := EncodeDict(kc, ev, m).fields;
    var qs := SetToSeq(fields.Items);
    assert Items(EncodeDict(kc, ev, m)) == Ok(qs);
    forall i | 0 <= i < |qs|
      ensures DecodeEntry(kc, dv, qs[i]).Ok?
      ensures DecodeEntry(kc, dv, qs[i]).value in m.Items
      ensures EncodeEntry(kc, ev, DecodeEntry(kc, dv, qs[i]).value) == qs[i]
    {
      DecodeEncodedEntry(kc, ev, dv, m, qs[i]);
    }
    DecodeEntriesSpec(kc, dv, qs);
    var rs := DecodeEntries(kc, dv, qs).value;
    DecodedDictOf(kc, ev, m, qs, rs);
  }

  /** The decoded entries, read from an enumeration of the encoded ones, rebuild `m`. */
  lemma DecodedDictOf<K(!new), V(!new)>(kc: KeyCodec<K>, ev: V -> Json, m: map<K, V>, qs: seq<(string, Json)>, rs: seq<(K, V)>)
    requires KeyRoundTrips(kc)
    requires forall i, j :: 0 <= i < j < |qs| ==> qs[i] != qs[j]
    requires forall q :: q in EncodedItems(kc, ev, m) ==> q in qs
    requires |rs| == |qs|
    requires forall i :: 0 <= i < |qs| ==> rs[i] in m.Items && EncodeEntry(kc, ev, rs[i]) == qs[i]
    ensures DictOf(rs) == m
  {
    forall i, j | 0 <= i < j < |rs| ensures rs[i].0 != rs[j].0 {
      assert qs[i] != qs[j];
      assert rs[i] != rs[j];
    }
    DictOfDistinct(rs);
    forall p | p in m.Items ensures p in rs {
      assert EncodeEntry(kc, ev, p) in EncodedItems(kc, ev, m);
      var i :| 0 <= i < |qs| && qs[i] == EncodeEntry(kc, ev, p);
      KeyEncodingInjective(kc, rs[i].0, p.0);
    }
    assert (set p | p in rs) == m.Items;
    SameItemsSameMap(DictOf(rs), m);
  }
}
