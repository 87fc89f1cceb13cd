/**
  The Python side of the boundary: the JSON-like values (dicts, lists and
  scalars) that the native library hands over, the exceptions the decoders
  raise, and the few pieces of Python semantics the codecs rely on
  (subscripting a dict, iterating a container, building a dict from pairs,
  pydantic's check of an `int` field).
*/
module PyJson {

  /** A JSON-like value: what `json.loads` produces and what `__encode__` returns. */
  datatype Json =
    | JNull
    | JBool(b: bool)
    | JInt(i: int)
    | JStr(s: string)
    | JArr(items: seq<Json>)
    | JObj(fields: map<string, Json>)

  /** The exceptions the decoders can raise. */
  datatype Error =
    | KeyError(key: string)          // `d[key]` on a dict without `key`; `Enum[name]` for an unknown name
    | ValueError(message: string)    // `raise ValueError(...)` in a dispatcher
    | ValidationError(field: string) // pydantic refusing the value of a field (a subclass of ValueError)
    | TypeError                      // subscripting, iterating or concatenating a value that does not support it
    | AttributeError                 // `.items()` on a value that is not a dict

  /** Either the decoded value or the exception raised while decoding. */
  datatype Result<+T> = Ok(value: T) | Err(error: Error) {
    predicate IsFailure() { Err? }
    function PropagateFailure<U>(): Result<U> requires Err? { Err(error) }
    function Extract(): T requires Ok? { value }
  }

  /** Python's `Optional[...]`: `None` or a value. */
  datatype Option<+T> = None | Some(value: T)

  /** `data[key]`: a dict lookup; any other value cannot be subscripted by a string. */
  function Get(data: Json, key: string): (r: Result<Json>)
    ensures r.Ok? ==> data.JObj? && key in data.fields && r.value == data.fields[key]
  {
    match data
    case JObj(m) => if key in m then Ok(m[key]) else Err(KeyError(key))
    case _ => Err(TypeError)
  }

  /** `data` is a dict holding `v` under `key`, so that `Get(data, key) == Ok(v)`. */
  predicate Holds(data: Json, key: string, v: Json)
  {
    data.JObj? && key in data.fields && data.fields[key] == v
  }

  /** The order in which Python visits the elements of a set or the entries of a dict.
      It is fixed for one value but not known: any duplicate-free enumeration will do. */
  ghost function SetToSeq<T(!new)>(s: set<T>): (r: seq<T>)
    ensures |r| == |s|
    ensures forall x :: x in s <==> x in r
    ensures forall i, j :: 0 <= i < j < |r| ==> r[i] != r[j]
  {
    if s == {} then []
    else
      var x :| x in s;
      [x] + SetToSeq(s - {x})
  }

  /** `data.items()`: the entries of a dict in its iteration order; other values have no `items`. */
  ghost function Items(data: Json): Result<seq<(string, Json)>>
  {
    match data
    case JObj(m) => Ok(SetToSeq(m.Items))
    case _ => Err(AttributeError)
  }

  /** The first components of a sequence of pairs. */
  function Firsts<K, V>(ps: seq<(K, V)>): (r: seq<K>)
    ensures |r| == |ps|
    ensures forall i :: 0 <= i < |ps| ==> r[i] == ps[i].0
  {
    if ps == [] then [] else [ps[0].0] + Firsts(ps[1..])
  }

  /** `for x in data`: a list yields its elements, a string its characters and a dict
      its keys (in the order of `Items`); nothing else can be iterated. */
  ghost function Iterate(data: Json): Result<seq<Json>>
  {
    match data
    case JArr(xs) => Ok(xs)
    case JStr(s) => Ok(seq(|s|, i requires 0 <= i < |s| => JStr([s[i]])))
    case JObj(m) =>
      var keys := Firsts(SetToSeq(m.Items));
      Ok(seq(|keys|, i requires 0 <= i < |keys| => JStr(keys[i])))
    case _ => Err(TypeError)
  }

  /** `dict(pairs)`: insert the pairs in order, a later pair replacing an earlier one with the same key. */
  function DictOf<K, V>(ps: seq<(K, V)>): map<K, V>
  {
    if ps == [] then map[] else DictOf(ps[..|ps| - 1])[ps[|ps| - 1].0 := ps[|ps| - 1].1]
  }

  /** No two pairs share a key. */
  ghost predicate KeysDistinct<K, V>(ps: seq<(K, V)>)
  {
    forall i, j :: 0 <= i < j < |ps| ==> ps[i].0 != ps[j].0
  }

  /** `dict(pairs)` loses nothing when no key repeats: its entries are exactly the pairs. */
  lemma {:induction false} DictOfDistinct<K, V>(ps: seq<(K, V)>)
    requires KeysDistinct(ps)
    ensures DictOf(ps).Items == set p | p in ps
  {
    if ps != [] {
      var init, last := ps[..|ps| - 1], ps[|ps| - 1];
      assert KeysDistinct(init);
      DictOfDistinct(init);
      assert forall p :: p in init ==> p.0 != last.0;
      assert ps == init + [last];
      var d := DictOf(init);
      forall p | p in DictOf(ps).Items ensures p in ps {
        if p.0 != last.0 {
          assert p in d.Items;
        }
      }
      forall p | p in ps ensures p in DictOf(ps).Items {
        if p != last {
          assert p in init;
          assert p in d.Items;
        }
      }
    }
  }

  /** Two maps with the same entries are the same map. */
  lemma SameItemsSameMap<K, V>(a: map<K, V>, b: map<K, V>)
    requires a.Items == b.Items
    ensures a == b
  {
    forall k | k in a ensures k in b && b[k] == a[k] {
      assert (k, a[k]) in a.Items;
    }
    forall k | k in b ensures k in a {
      assert (k, b[k]) in b.Items;
    }
  }

  /** pydantic's check of an `int` field. */
  function IntField(field: string, raw: Json): Result<int>
  {
    match raw
    case JInt(i) => Ok(i)
    case _ => Err(ValidationError(field))
  }

  /** pydantic's check of an `Optional[int]` field. */
  function OptionalIntField(field: string, raw: Json): Result<Option<int>>
  {
    match raw
    case JNull => Ok(None)
    case JInt(i) => Ok(Some(i))
    case _ => Err(ValidationError(field))
  }

  /** What an `Optional[int]` attribute becomes inside `__encode__`'s dict. */
  function OptionalIntJson(o: Option<int>): (r: Json)
    ensures OptionalIntField("", r) == Ok(o)
    ensures r == JNull <==> o.None?
  {
    match o
    case None => JNull
    case Some(i) => JInt(i)
  }
}
