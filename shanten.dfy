/**
  The shanten result tree of mahjong_utils/shanten.py and its codec to and
  from the JSON-like dicts the native library exchanges with Python.

  Three result shapes share one abstract base, `Shanten`:
    - ShantenWithoutGot: a position before drawing (advance tiles and counts);
    - ShantenWithGot: a position after drawing (the result of every discard
      and every concealed quad);
    - ShantenWithFuroChance: a tile offered by another player (pass, chi
      with each tatsu, pon, open quad).
  A `ShantenResult` tags one of them with the kind of evaluation, the hand
  and, for a union evaluation, the three component results.
*/
module ShantenCodec {
  import opened PyJson
  import opened Codecs
  import opened Models

  // ---------------------------------------------------------------- values

  /** `ShantenWithoutGot` */
  datatype WithoutGot = WithoutGot(
    shanten: int,
    advance: set<Tile>,
    advanceNum: Option<int>,
    goodShapeAdvance: Option<set<Tile>>,
    goodShapeAdvanceNum: Option<int>)

  /** `ShantenWithGot` */
  datatype WithGot = WithGot(
    shanten: int,
    discardToAdvance: map<Tile, WithoutGot>,
    ankanToAdvance: map<Tile, WithoutGot>)

  /** `ShantenWithFuroChance`; `pass` is the Python attribute `pass_`. */
  datatype WithFuroChance = WithFuroChance(
    shanten: int,
    pass: Option<WithoutGot>,
    chi: map<Tatsu, WithGot>,
    pon: Option<WithGot>,
    minkan: Option<WithGot>)

  /** The closed hierarchy under the abstract class `Shanten`. */
  datatype Shanten =
    | ShantenWithoutGot(withoutGot: WithoutGot)
    | ShantenWithGot(withGot: WithGot)
    | ShantenWithFuroChance(withFuroChance: WithFuroChance)
  {
    /** The `shanten` field, which every variant has. */
    function Number(): int
    {
      match this
      case ShantenWithoutGot(w) => w.shanten
      case ShantenWithGot(g) => g.shanten
      case ShantenWithFuroChance(f) => f.shanten
    }

    /** The `type` tag its `__encode__` writes: the class name. */
    function Tag(): string
    {
      match this
      case ShantenWithoutGot(_) => "ShantenWithoutGot"
      case ShantenWithGot(_) => "ShantenWithGot"
      case ShantenWithFuroChance(_) => "ShantenWithFuroChance"
    }
  }

  // ---------------------------------------------------------------- ShantenWithoutGot

  /** `ShantenWithoutGot.__encode__` */
  ghost function EncodeWithoutGot(tc: KeyCodec<Tile>, w: WithoutGot): Json
  {
    JObj(map[
      "type" := JStr("ShantenWithoutGot"),
      "shantenNum" := JInt(w.shanten),
      "advance" := JArr(EncodeSet(tc, w.advance)),
      "advanceNum" := OptionalIntJson(w.advanceNum),
      "goodShapeAdvance" :=
        if w.goodShapeAdvance.Some? then JArr(EncodeSet(tc, w.goodShapeAdvance.value)) else JNull,
      "goodShapeAdvanceNum" := OptionalIntJson(w.goodShapeAdvanceNum)])
  }

  /** `ShantenWithoutGot.__decode__`: the keyword arguments are evaluated left to right,
      then pydantic checks the fields in declaration order. The `type` key is not read. */
  ghost function DecodeWithoutGot(tc: KeyCodec<Tile>, data: Json): Result<WithoutGot>
  {
    var shantenNum :- Get(data, "shantenNum");
    var advanceList :- Get(data, "advance");
    var advance :- DecodeIterable(tc, advanceList);
    var advanceNum :- Get(data, "advanceNum");
    var goodShapeList :- Get(data, "goodShapeAdvance");
    var goodShape :- if goodShapeList.JNull? then Ok(None)
                     else var s :- DecodeIterable(tc, goodShapeList); Ok(Some(s));
    var goodShapeNum :- Get(data, "goodShapeAdvanceNum");
    var n :- IntField("shanten", shantenNum);
    var an :- OptionalIntField("advance_num", advanceNum);
    var gn :- OptionalIntField("good_shape_advance_num", goodShapeNum);
    Ok(WithoutGot(n, advance, an, goodShape, gn))
  }

  /** `x.__encode__() if x is not None else None` for an optional ShantenWithoutGot */
  ghost function EncodeOptionalWithoutGot(tc: KeyCodec<Tile>, o: Option<WithoutGot>): Json
  {
    if o.Some? then EncodeWithoutGot(tc, o.value) else JNull
  }

  /** `ShantenWithoutGot.__decode__(x) if x is not None else None` */
  ghost function DecodeOptionalWithoutGot(tc: KeyCodec<Tile>, raw: Json): Result<Option<WithoutGot>>
  {
    if raw.JNull? then Ok(None) else var w :- DecodeWithoutGot(tc, raw); Ok(Some(w))
  }

  /** What `ShantenWithoutGot.__encode__` writes under the keys after `shantenNum`. */
  lemma WithoutGotEncodedFields(tc: KeyCodec<Tile>, w: WithoutGot)
    ensures Holds(EncodeWithoutGot(tc, w), "advance", JArr(EncodeSet(tc, w.advance)))
    ensures Holds(EncodeWithoutGot(tc, w), "advanceNum", OptionalIntJson(w.advanceNum))
    ensures Holds(EncodeWithoutGot(tc, w), "goodShapeAdvance",
      if w.goodShapeAdvance.Some? then JArr(EncodeSet(tc, w.goodShapeAdvance.value)) else JNull)
    ensures Holds(EncodeWithoutGot(tc, w), "goodShapeAdvanceNum", OptionalIntJson(w.goodShapeAdvanceNum))
  {
  }

  /** On every input whose fields each read back as the corresponding field of `w`,
      `ShantenWithoutGot.__decode__` yields `w`. */
  lemma WithoutGotDecodeFromFields(tc: KeyCodec<Tile>, data: Json, w: WithoutGot)
    requires Get(data, "shantenNum") == Ok(JInt(w.shanten))
    requires Get(data, "advance").Ok? && DecodeIterable(tc, Get(data, "advance").value) == Ok(w.advance)
    requires Get(data, "advanceNum").Ok?
    requires OptionalIntField("advance_num", Get(data, "advanceNum").value) == Ok(w.advanceNum)
    requires Get(data, "goodShapeAdvance").Ok?
    requires Get(data, "goodShapeAdvance").value.JNull? ==> w.goodShapeAdvance.None?
    requires !Get(data, "goodShapeAdvance").value.JNull? ==>
      w.goodShapeAdvance.Some? && DecodeIterable(tc, Get(data, "goodShapeAdvance").value) == Ok(w.goodShapeAdvance.value)
    requires Get(data, "goodShapeAdvanceNum").Ok?
    requires OptionalIntField("good_shape_advance_num", Get(data, "goodShapeAdvanceNum").value) == Ok(w.goodShapeAdvanceNum)
    ensures DecodeWithoutGot(tc, data) == Ok(w)
  {
  }

  lemma WithoutGotRoundTrip(tc: KeyCodec<Tile>, w: WithoutGot)
    requires KeyRoundTrips(tc)
    ensures DecodeWithoutGot(tc, EncodeWithoutGot(tc, w)) == Ok(w)
  {
    WithoutGotTagAndNumber(tc, w);
    WithoutGotEncodedFields(tc, w);
    IterableRoundTrip(tc, w.advance);
    if w.goodShapeAdvance.Some? {
      IterableRoundTrip(tc, w.goodShapeAdvance.value);
    }
    assert OptionalIntField("advance_num", OptionalIntJson(w.advanceNum)) == Ok(w.advanceNum);
    assert OptionalIntField("good_shape_advance_num", OptionalIntJson(w.goodShapeAdvanceNum)) == Ok(w.goodShapeAdvanceNum);
    WithoutGotDecodeFromFields(tc, EncodeWithoutGot(tc, w), w);
  }

  /** `advance` is written as a list naming each tile of the set exactly once, so the list is
      as long as the set. */
  lemma WithoutGotAdvanceList(tc: KeyCodec<Tile>, w: WithoutGot)
    requires KeyRoundTrips(tc)
    ensures Holds(EncodeWithoutGot(tc, w), "advance", JArr(EncodeSet(tc, w.advance)))
    ensures |EncodeSet(tc, w.advance)| == |w.advance|
    ensures forall t :: t in w.advance <==> JStr(tc.encode(t)) in EncodeSet(tc, w.advance)
    ensures forall i, j :: 0 <= i < j < |EncodeSet(tc, w.advance)| ==> EncodeSet(tc, w.advance)[i] != EncodeSet(tc, w.advance)[j]
  {
    EncodedSetEnumerates(tc, w.advance);
  }

  /** The optional fields are written as null exactly when they are None. */
  lemma WithoutGotEncodedNulls(tc: KeyCodec<Tile>, w: WithoutGot)
    ensures Get(EncodeWithoutGot(tc, w), "advanceNum") == Ok(JNull) <==> w.advanceNum.None?
    ensures Get(EncodeWithoutGot(tc, w), "goodShapeAdvance") == Ok(JNull) <==> w.goodShapeAdvance.None?
    ensures Get(EncodeWithoutGot(tc, w), "goodShapeAdvanceNum") == Ok(JNull) <==> w.goodShapeAdvanceNum.None?
  {
  }

  /** On every input, a decoded optional field is None exactly when the dict holds null there,
      and `shanten` is the integer under `shantenNum`. */
  lemma WithoutGotDecodedFields(tc: KeyCodec<Tile>, data: Json)
    requires DecodeWithoutGot(tc, data).Ok?
    ensures Get(data, "shantenNum") == Ok(JInt(DecodeWithoutGot(tc, data).value.shanten))
    ensures DecodeWithoutGot(tc, data).value.advanceNum.None? <==> Get(data, "advanceNum") == Ok(JNull)
    ensures DecodeWithoutGot(tc, data).value.goodShapeAdvance.None? <==> Get(data, "goodShapeAdvance") == Ok(JNull)
    ensures DecodeWithoutGot(tc, data).value.goodShapeAdvanceNum.None? <==> Get(data, "goodShapeAdvanceNum") == Ok(JNull)
  {
    assert Get(data, "shantenNum").Ok? && Get(data, "advance").Ok? && Get(data, "advanceNum").Ok?;
    assert Get(data, "goodShapeAdvance").Ok? && Get(data, "goodShapeAdvanceNum").Ok?;
  }

  // ---------------------------------------------------------------- ShantenWithGot

  /** `ShantenWithGot.__encode__` */
  ghost function EncodeWithGot(tc: KeyCodec<Tile>, g: WithGot): Json
  {
    JObj(map[
      "type" := JStr("ShantenWithGot"),
      "shantenNum" := JInt(g.shanten),
      "discardToAdvance" := EncodeDict(tc, w => EncodeWithoutGot(tc, w), g.discardToAdvance),
      "ankanToAdvance" := EncodeDict(tc, w => EncodeWithoutGot(tc, w), g.ankanToAdvance)])
  }

  /** `ShantenWithGot.__decode__` */
  ghost function DecodeWithGot(tc: KeyCodec<Tile>, data: Json): Result<WithGot>
  {
    var shantenNum :- Get(data, "shantenNum");
    var discardDict :- Get(data, "discardToAdvance");
    var discard :- DecodeDict(tc, v => DecodeWithoutGot(tc, v), discardDict);
    var ankanDict :- Get(data, "ankanToAdvance");
    var ankan :- DecodeDict(tc, v => DecodeWithoutGot(tc, v), ankanDict);
    var n :- IntField("shanten", shantenNum);
    Ok(WithGot(n, discard, ankan))
  }

  /** `x.__encode__() if x is not None else None` for an optional ShantenWithGot */
  ghost function EncodeOptionalWithGot(tc: KeyCodec<Tile>, o: Option<WithGot>): Json
  {
    if o.Some? then EncodeWithGot(tc, o.value) else JNull
  }

  /** `ShantenWithGot.__decode__(x) if x is not None else None` */
  ghost function DecodeOptionalWithGot(tc: KeyCodec<Tile>, raw: Json): Result<Option<WithGot>>
  {
    if raw.JNull? then Ok(None) else var g :- DecodeWithGot(tc, raw); Ok(Some(g))
  }

  /** A map from tiles to WithoutGot results survives encoding and decoding. */
  lemma WithoutGotDictRoundTrip(tc: KeyCodec<Tile>, m: map<Tile, WithoutGot>)
    requires KeyRoundTrips(tc)
    ensures DecodeDict(tc, v => DecodeWithoutGot(tc, v), EncodeDict(tc, w => EncodeWithoutGot(tc, w), m)) == Ok(m)
  {
    var ev := w => EncodeWithoutGot(tc, w);
    var dv := v => DecodeWithoutGot(tc, v);
    forall w | w in m.Values ensures dv(ev(w)) == Ok(w) {
      WithoutGotRoundTrip(tc, w);
    }
    DictRoundTrip(tc, ev, dv, m);
  }

  /** The encoding holds each of the two maps' own encodings. */
  lemma WithGotEncodedDicts(tc: KeyCodec<Tile>, g: WithGot)
    ensures Holds(EncodeWithGot(tc, g), "discardToAdvance", EncodeDict(tc, w => EncodeWithoutGot(tc, w), g.discardToAdvance))
    ensures Holds(EncodeWithGot(tc, g), "ankanToAdvance", EncodeDict(tc, w => EncodeWithoutGot(tc, w), g.ankanToAdvance))
  {
  }

  /** On every input whose fields each read back as the corresponding field of `g`,
      `ShantenWithGot.__decode__` yields `g`. */
  lemma WithGotDecodeFromFields(tc: KeyCodec<Tile>, data: Json, g: WithGot)
    requires Get(data, "shantenNum") == Ok(JInt(g.shanten))
    requires Get(data, "discardToAdvance").Ok?
    requires DecodeDict(tc, v => DecodeWithoutGot(tc, v), Get(data, "discardToAdvance").value) == Ok(g.discardToAdvance)
    requires Get(data, "ankanToAdvance").Ok?
    requires DecodeDict(tc, v => DecodeWithoutGot(tc, v), Get(data, "ankanToAdvance").value) == Ok(g.ankanToAdvance)
    ensures DecodeWithGot(tc, data) == Ok(g)
  {
  }

  /** On every input a decoded ShantenWithGot has the number under `shantenNum`, and its
      maps are what the two dicts read as. */
  lemma WithGotDecodedFields(tc: KeyCodec<Tile>, data: Json)
    requires DecodeWithGot(tc, data).Ok?
    ensures Get(data, "shantenNum") == Ok(JInt(DecodeWithGot(tc, data).value.shanten))
    ensures Get(data, "discardToAdvance").Ok?
    ensures DecodeDict(tc, v => DecodeWithoutGot(tc, v), Get(data, "discardToAdvance").value)
         == Ok(DecodeWithGot(tc, data).value.discardToAdvance)
    ensures Get(data, "ankanToAdvance").Ok?
    ensures DecodeDict(tc, v => DecodeWithoutGot(tc, v), Get(data, "ankanToAdvance").value)
         == Ok(DecodeWithGot(tc, data).value.ankanToAdvance)
  {
    assert Get(data, "shantenNum").Ok? && Get(data, "discardToAdvance").Ok? && Get(data, "ankanToAdvance").Ok?;
    assert DecodeDict(tc, v => DecodeWithoutGot(tc, v), Get(data, "discardToAdvance").value).Ok?;
    assert DecodeDict(tc, v => DecodeWithoutGot(tc, v), Get(data, "ankanToAdvance").value).Ok?;
  }

  lemma WithGotRoundTrip(tc: KeyCodec<Tile>, g: WithGot)
    requires KeyRoundTrips(tc)
    ensures DecodeWithGot(tc, EncodeWithGot(tc, g)) == Ok(g)
  {
    WithGotTagAndNumber(tc, g);
    WithGotEncodedDicts(tc, g);
    WithoutGotDictRoundTrip(tc, g.discardToAdvance);
    WithoutGotDictRoundTrip(tc, g.ankanToAdvance);
    WithGotDecodeFromFields(tc, EncodeWithGot(tc, g), g);
  }

  /** Each discard (and each concealed quad) is written once, under its tile's string,
      with the encoding of its own result. */
  lemma WithGotEncodedEntries(tc: KeyCodec<Tile>, g: WithGot)
    requires KeyRoundTrips(tc)
    ensures Get(EncodeWithGot(tc, g), "discardToAdvance").Ok?
    ensures Get(EncodeWithGot(tc, g), "discardToAdvance").value.fields.Items
         == EncodedItems(tc, w => EncodeWithoutGot(tc, w), g.discardToAdvance)
    ensures Get(EncodeWithGot(tc, g), "ankanToAdvance").value.fields.Items
         == EncodedItems(tc, w => EncodeWithoutGot(tc, w), g.ankanToAdvance)
  {
    WithGotEncodedDicts(tc, g);
    EncodedDictEntries(tc, w => EncodeWithoutGot(tc, w), g.discardToAdvance);
    EncodedDictEntries(tc, w => EncodeWithoutGot(tc, w), g.ankanToAdvance);
  }

  // ---------------------------------------------------------------- ShantenWithFuroChance

  /** `ShantenWithFuroChance.__encode__` */
  ghost function EncodeWithFuroChance(cs: ModelCodecs, f: WithFuroChance): Json
  {
    JObj(map[
      "type" := JStr("ShantenWithFuroChance"),
      "shantenNum" := JInt(f.shanten),
      "pass" := EncodeOptionalWithoutGot(cs.tile, f.pass),
      "chi" := EncodeDict(cs.tatsu, g => EncodeWithGot(cs.tile, g), f.chi),
      "pon" := EncodeOptionalWithGot(cs.tile, f.pon),
      "minkan" := EncodeOptionalWithGot(cs.tile, f.minkan)])
  }

  /** What both `ShantenWithFuroChance.__decode__` variants have evaluated before `minkan`:
      the raw `shantenNum` (pydantic checks it only after every argument is evaluated),
      and the decoded `pass`, `chi` and `pon`. */
  datatype FuroChancePrefix = FuroChancePrefix(
    shantenNum: Json,
    pass: Option<WithoutGot>,
    chi: map<Tatsu, WithGot>,
    pon: Option<WithGot>)

  /** The keyword arguments of `ShantenWithFuroChance.__decode__` before `minkan`, left to right. */
  ghost function DecodeFuroChancePrefix(cs: ModelCodecs, data: Json): Result<FuroChancePrefix>
  {
    var shantenNum :- Get(data, "shantenNum");
    var passRaw :- Get(data, "pass");
    var pass :- DecodeOptionalWithoutGot(cs.tile, passRaw);
    var chiDict :- Get(data, "chi");
    var chi :- DecodeDict(cs.tatsu, v => DecodeWithGot(cs.tile, v), chiDict);
    var ponRaw :- Get(data, "pon");
    var pon :- DecodeOptionalWithGot(cs.tile, ponRaw);
    Ok(FuroChancePrefix(shantenNum, pass, chi, pon))
  }

  /** `ShantenWithFuroChance.__decode__` as written: `minkan` is read with
      `ShantenWithoutGot.__decode__`. When that succeeds, pydantic refuses the
      ShantenWithoutGot it returns for the `Optional[ShantenWithGot]` field. */
  ghost function DecodeWithFuroChanceAsWritten(cs: ModelCodecs, data: Json): Result<WithFuroChance>
  {
    var p :- DecodeFuroChancePrefix(cs, data);
    var minkanRaw :- Get(data, "minkan");
    var minkan :- DecodeOptionalWithoutGot(cs.tile, minkanRaw);
    var n :- IntField("shanten", p.shantenNum);
    if minkan.Some? then Err(ValidationError("minkan"))
    else Ok(WithFuroChance(n, p.pass, p.chi, p.pon, None))
  }

  /** `ShantenWithFuroChance.__decode__` as intended: `minkan` is read with
      `ShantenWithGot.__decode__`, the decoder matching its encoder. */
  ghost function DecodeWithFuroChance(cs: ModelCodecs, data: Json): Result<WithFuroChance>
  {
    var p :- DecodeFuroChancePrefix(cs, data);
    var minkanRaw :- Get(data, "minkan");
    var minkan :- DecodeOptionalWithGot(cs.tile, minkanRaw);
    var n :- IntField("shanten", p.shantenNum);
    Ok(WithFuroChance(n, p.pass, p.chi, p.pon, minkan))
  }

  /** A map from tatsu to WithGot results survives encoding and decoding. */
  lemma ChiDictRoundTrip(cs: ModelCodecs, m: map<Tatsu, WithGot>)
    requires Lawful(cs)
    ensures DecodeDict(cs.tatsu, v => DecodeWithGot(cs.tile, v), EncodeDict(cs.tatsu, g => EncodeWithGot(cs.tile, g), m)) == Ok(m)
  {
    var ev := g => EncodeWithGot(cs.tile, g);
    var dv := v => DecodeWithGot(cs.tile, v);
    forall g | g in m.Values ensures dv(ev(g)) == Ok(g) {
      WithGotRoundTrip(cs.tile, g);
    }
    DictRoundTrip(cs.tatsu, ev, dv, m);
  }

  /** An optional ShantenWithoutGot survives `EncodeOptionalWithoutGot` and its decoder. */
  lemma OptionalWithoutGotRoundTrip(tc: KeyCodec<Tile>, o: Option<WithoutGot>)
    requires KeyRoundTrips(tc)
    ensures DecodeOptionalWithoutGot(tc, EncodeOptionalWithoutGot(tc, o)) == Ok(o)
  {
    if o.Some? { WithoutGotRoundTrip(tc, o.value); }
  }

  /** An optional ShantenWithGot survives `EncodeOptionalWithGot` and its decoder. */
  lemma OptionalWithGotRoundTrip(tc: KeyCodec<Tile>, o: Option<WithGot>)
    requires KeyRoundTrips(tc)
    ensures DecodeOptionalWithGot(tc, EncodeOptionalWithGot(tc, o)) == Ok(o)
  {
    if o.Some? { WithGotRoundTrip(tc, o.value); }
  }

  /** What `ShantenWithFuroChance.__encode__` writes under each key it reads back. */
  lemma FuroChanceEncodedFields(cs: ModelCodecs, f: WithFuroChance)
    ensures Get(EncodeWithFuroChance(cs, f), "shantenNum") == Ok(JInt(f.shanten))
    ensures Get(EncodeWithFuroChance(cs, f), "pass") == Ok(EncodeOptionalWithoutGot(cs.tile, f.pass))
    ensures Get(EncodeWithFuroChance(cs, f), "chi") == Ok(EncodeDict(cs.tatsu, g => EncodeWithGot(cs.tile, g), f.chi))
    ensures Get(EncodeWithFuroChance(cs, f), "pon") == Ok(EncodeOptionalWithGot(cs.tile, f.pon))
    ensures Get(EncodeWithFuroChance(cs, f), "minkan") == Ok(EncodeOptionalWithGot(cs.tile, f.minkan))
  {
  }

  /** `data` reads as `f` up to `minkan`, which is present: both decoders get that far. */
  ghost predicate FuroChancePrefixReads(cs: ModelCodecs, data: Json, f: WithFuroChance)
  {
    && DecodeFuroChancePrefix(cs, data) == Ok(FuroChancePrefix(JInt(f.shanten), f.pass, f.chi, f.pon))
    && Get(data, "minkan").Ok?
  }

  /** The fields before `minkan` decode back from an encoding, so both decoders reach `minkan`. */
  lemma FuroChancePrefixRoundTrip(cs: ModelCodecs, f: WithFuroChance)
    requires Lawful(cs)
    ensures FuroChancePrefixReads(cs, EncodeWithFuroChance(cs, f), f)
  {
    FuroChanceEncodedFields(cs, f);
    OptionalWithoutGotRoundTrip(cs.tile, f.pass);
    ChiDictRoundTrip(cs, f.chi);
    OptionalWithGotRoundTrip(cs.tile, f.pon);
  }

  /** On every input that reads as `f` up to `minkan`, the intended decoder yields `f` exactly
      when `minkan` reads back as `f.minkan`. */
  lemma FuroChanceDecodeFromPrefix(cs: ModelCodecs, data: Json, f: WithFuroChance)
    requires FuroChancePrefixReads(cs, data, f)
    ensures DecodeOptionalWithGot(cs.tile, Get(data, "minkan").value) == Ok(f.minkan)
      ==> DecodeWithFuroChance(cs, data) == Ok(f)
  {
  }

  /** On every input that reads as `f` up to `minkan`, the decoder as written yields the
      outcome of reading `minkan` as a ShantenWithoutGot: an error from it, a refusal of what
      it returns, or `f` with no open quad. */
  lemma FuroChanceAsWrittenFromPrefix(cs: ModelCodecs, data: Json, f: WithFuroChance)
    requires FuroChancePrefixReads(cs, data, f)
    ensures var m := DecodeOptionalWithoutGot(cs.tile, Get(data, "minkan").value);
      && (m.Err? ==> DecodeWithFuroChanceAsWritten(cs, data) == Err(m.error))
      && (m == Ok(None) ==> DecodeWithFuroChanceAsWritten(cs, data) == Ok(f.(minkan := None)))
      && (m.Ok? && m.value.Some? ==> DecodeWithFuroChanceAsWritten(cs, data) == Err(ValidationError("minkan")))
  {
  }

  lemma FuroChanceRoundTrip(cs: ModelCodecs, f: WithFuroChance)
    requires Lawful(cs)
    ensures DecodeWithFuroChance(cs, EncodeWithFuroChance(cs, f)) == Ok(f)
  {
    var data := EncodeWithFuroChance(cs, f);
    FuroChancePrefixRoundTrip(cs, f);
    FuroChanceEncodedFields(cs, f);
    OptionalWithGotRoundTrip(cs.tile, f.minkan);
    FuroChanceDecodeFromPrefix(cs, data, f);
  }

  /** A ShantenWithGot encoding has no `advance` key, so reading it as a ShantenWithoutGot
      raises KeyError('advance'). */
  lemma WithGotReadAsWithoutGot(tc: KeyCodec<Tile>, g: WithGot)
    ensures DecodeOptionalWithoutGot(tc, EncodeOptionalWithGot(tc, Some(g))) == Err(KeyError("advance"))
  {
    WithGotTagAndNumber(tc, g);
  }

  /** The decoder as written gives back exactly the values without an open quad; with one,
      it fails looking up the `advance` key that a ShantenWithGot encoding does not have. */
  lemma FuroChanceAsWrittenRoundTrip(cs: ModelCodecs, f: WithFuroChance)
    requires Lawful(cs)
    ensures DecodeWithFuroChanceAsWritten(cs, EncodeWithFuroChance(cs, f)) == Ok(f) <==> f.minkan.None?
    ensures f.minkan.Some? ==> DecodeWithFuroChanceAsWritten(cs, EncodeWithFuroChance(cs, f)) == Err(KeyError("advance"))
  {
    var data := EncodeWithFuroChance(cs, f);
    FuroChancePrefixRoundTrip(cs, f);
    FuroChanceEncodedFields(cs, f);
    FuroChanceAsWrittenFromPrefix(cs, data, f);
    if f.minkan.Some? {
      WithGotReadAsWithoutGot(cs.tile, f.minkan.value);
    }
  }

  /** On every input the decoder as written refuses a present `minkan`, and otherwise
      agrees with the intended decoder. */
  lemma FuroChanceAsWrittenRejectsMinkan(cs: ModelCodecs, data: Json)
    ensures Get(data, "minkan").Ok? && Get(data, "minkan").value != JNull
      ==> DecodeWithFuroChanceAsWritten(cs, data).Err?
  {
  }

  lemma FuroChanceAsWrittenAgreesWithoutMinkan(cs: ModelCodecs, data: Json)
    ensures Get(data, "minkan") == Ok(JNull)
      ==> DecodeWithFuroChanceAsWritten(cs, data) == DecodeWithFuroChance(cs, data)
  {
  }

  /** `pass`, `pon` and `minkan` are written as null exactly when they are None. */
  lemma FuroChanceEncodedNulls(cs: ModelCodecs, f: WithFuroChance)
    ensures Get(EncodeWithFuroChance(cs, f), "pass") == Ok(JNull) <==> f.pass.None?
    ensures Get(EncodeWithFuroChance(cs, f), "pon") == Ok(JNull) <==> f.pon.None?
    ensures Get(EncodeWithFuroChance(cs, f), "minkan") == Ok(JNull) <==> f.minkan.None?
  {
    FuroChanceEncodedFields(cs, f);
  }

  // ---------------------------------------------------------------- Shanten

  /** The polymorphic `__encode__`. */
  ghost function EncodeShanten(cs: ModelCodecs, s: Shanten): Json
  {
    match s
    case ShantenWithoutGot(w) => EncodeWithoutGot(cs.tile, w)
    case ShantenWithGot(g) => EncodeWithGot(cs.tile, g)
    case ShantenWithFuroChance(f) => EncodeWithFuroChance(cs, f)
  }

  /** Which `ShantenWithFuroChance.__decode__` the dispatcher runs: the one the program
      has, which reads `minkan` as a ShantenWithoutGot, or the intended one, which reads it
      as a ShantenWithGot. */
  datatype Reading = AsWritten | Intended

  /** `ShantenWithFuroChance.__decode__` under the given reading. */
  ghost function DecodeFuroChance(cs: ModelCodecs, rd: Reading, data: Json): Result<WithFuroChance>
  {
    match rd
    case AsWritten => DecodeWithFuroChanceAsWritten(cs, data)
    case Intended => DecodeWithFuroChance(cs, data)
  }

  /** `Shanten.__decode__`: dispatch on `type`; an unknown string raises ValueError, and a
      tag that is not a string makes the message concatenation raise TypeError.
      `DecodeShanten(cs, AsWritten, data)` is the program as it stands. */
  ghost function DecodeShanten(cs: ModelCodecs, rd: Reading, data: Json): Result<Shanten>
  {
    var tag :- Get(data, "type");
    if tag == JStr("ShantenWithoutGot") then
      var w :- DecodeWithoutGot(cs.tile, data); Ok(ShantenWithoutGot(w))
    else if tag == JStr("ShantenWithGot") then
      var g :- DecodeWithGot(cs.tile, data); Ok(ShantenWithGot(g))
    else if tag == JStr("ShantenWithFuroChance") then
      var f :- DecodeFuroChance(cs, rd, data); Ok(ShantenWithFuroChance(f))
    else if tag.JStr? then Err(ValueError("invalid type: " + tag.s))
    else Err(TypeError)
  }

  /** The encoding of `s` decodes back under `rd`: always with the intended decoder, and as
      written unless `s` is a ShantenWithFuroChance with an open quad. */
  predicate Decodable(rd: Reading, s: Shanten)
  {
    rd.Intended? || !(s.ShantenWithFuroChance? && s.withFuroChance.minkan.Some?)
  }

  lemma WithoutGotTagAndNumber(tc: KeyCodec<Tile>, w: WithoutGot)
    ensures Holds(EncodeWithoutGot(tc, w), "type", JStr("ShantenWithoutGot"))
    ensures Holds(EncodeWithoutGot(tc, w), "shantenNum", JInt(w.shanten))
  {
  }

  lemma WithGotTagAndNumber(tc: KeyCodec<Tile>, g: WithGot)
    ensures Holds(EncodeWithGot(tc, g), "type", JStr("ShantenWithGot"))
    ensures Holds(EncodeWithGot(tc, g), "shantenNum", JInt(g.shanten))
  {
  }

  lemma FuroChanceTagAndNumber(cs: ModelCodecs, f: WithFuroChance)
    ensures Holds(EncodeWithFuroChance(cs, f), "type", JStr("ShantenWithFuroChance"))
    ensures Holds(EncodeWithFuroChance(cs, f), "shantenNum", JInt(f.shanten))
  {
  }

  /** Every encoder writes its own class name as `type` and the `shanten` field as `shantenNum`. */
  lemma EncodedTagAndNumber(cs: ModelCodecs, s: Shanten)
    ensures Holds(EncodeShanten(cs, s), "type", JStr(s.Tag()))
    ensures Holds(EncodeShanten(cs, s), "shantenNum", JInt(s.Number()))
  {
    match s
    case ShantenWithoutGot(w) => WithoutGotTagAndNumber(cs.tile, w);
    case ShantenWithGot(g) => WithGotTagAndNumber(cs.tile, g);
    case ShantenWithFuroChance(f) => FuroChanceTagAndNumber(cs, f);
  }

  lemma TaggedWithoutGotRoundTrip(cs: ModelCodecs, rd: Reading, w: WithoutGot)
    requires Lawful(cs)
    ensures DecodeShanten(cs, rd, EncodeShanten(cs, ShantenWithoutGot(w))) == Ok(ShantenWithoutGot(w))
  {
    WithoutGotTagAndNumber(cs.tile, w);
    WithoutGotRoundTrip(cs.tile, w);
  }

  lemma TaggedWithGotRoundTrip(cs: ModelCodecs, rd: Reading, g: WithGot)
    requires Lawful(cs)
    ensures DecodeShanten(cs, rd, EncodeShanten(cs, ShantenWithGot(g))) == Ok(ShantenWithGot(g))
  {
    WithGotTagAndNumber(cs.tile, g);
    WithGotRoundTrip(cs.tile, g);
  }

  /** As written, a ShantenWithFuroChance comes back exactly when it has no open quad, and
      otherwise decoding raises KeyError('advance'); the intended decoder gives back every one. */
  lemma TaggedFuroChanceRoundTrip(cs: ModelCodecs, rd: Reading, f: WithFuroChance)
    requires Lawful(cs)
    ensures DecodeShanten(cs, rd, EncodeShanten(cs, ShantenWithFuroChance(f)))
         == if Decodable(rd, ShantenWithFuroChance(f)) then Ok(ShantenWithFuroChance(f)) else Err(KeyError("advance"))
  {
    FuroChanceTagAndNumber(cs, f);
    match rd
    case AsWritten => FuroChanceAsWrittenRoundTrip(cs, f);
    case Intended => FuroChanceRoundTrip(cs, f);
  }

  /** `__encode__` followed by `Shanten.__decode__` gives back every Decodable result, and
      raises KeyError('advance') on the others. */
  lemma ShantenRoundTrip(cs: ModelCodecs, rd: Reading, s: Shanten)
    requires Lawful(cs)
    ensures DecodeShanten(cs, rd, EncodeShanten(cs, s)) == if Decodable(rd, s) then Ok(s) else Err(KeyError("advance"))
  {
    match s
    case ShantenWithoutGot(w) => TaggedWithoutGotRoundTrip(cs, rd, w);
    case ShantenWithGot(g) => TaggedWithGotRoundTrip(cs, rd, g);
    case ShantenWithFuroChance(f) => TaggedFuroChanceRoundTrip(cs, rd, f);
  }

  /** On every input: what decodes is the variant the `type` tag names, with the number under
      `shantenNum`. */
  lemma DecodeShantenDispatch(cs: ModelCodecs, rd: Reading, data: Json)
    ensures DecodeShanten(cs, rd, data).Ok? ==>
      && Get(data, "type") == Ok(JStr(DecodeShanten(cs, rd, data).value.Tag()))
      && Get(data, "shantenNum") == Ok(JInt(DecodeShanten(cs, rd, data).value.Number()))
  {
    var tag := Get(data, "type");
    if tag == Ok(JStr("ShantenWithoutGot")) {
      DecodedAsWithoutGot(cs, rd, data);
    } else if tag == Ok(JStr("ShantenWithGot")) {
      DecodedAsWithGot(cs, rd, data);
    } else if tag == Ok(JStr("ShantenWithFuroChance")) {
      DecodedAsFuroChance(cs, rd, data);
    } else {
      DecodeShantenRejects(cs, rd, data);
    }
  }

  /** Under the `ShantenWithoutGot` tag the dispatcher succeeds exactly when that class's
      decoder does, with its value, and otherwise raises that decoder's error. */
  lemma DecodedAsWithoutGot(cs: ModelCodecs, rd: Reading, data: Json)
    requires Get(data, "type") == Ok(JStr("ShantenWithoutGot"))
    ensures DecodeShanten(cs, rd, data).Ok? <==> DecodeWithoutGot(cs.tile, data).Ok?
    ensures DecodeShanten(cs, rd, data).Ok? ==>
      && DecodeShanten(cs, rd, data).value == ShantenWithoutGot(DecodeWithoutGot(cs.tile, data).value)
      && Get(data, "shantenNum") == Ok(JInt(DecodeWithoutGot(cs.tile, data).value.shanten))
    ensures DecodeShanten(cs, rd, data).Err? ==> DecodeShanten(cs, rd, data).error == DecodeWithoutGot(cs.tile, data).error
  {
    if DecodeWithoutGot(cs.tile, data).Ok? {
      WithoutGotDecodedFields(cs.tile, data);
    }
  }

  /** Under the `ShantenWithGot` tag the dispatcher succeeds exactly when that class's
      decoder does, with its value, and otherwise raises that decoder's error. */
  lemma DecodedAsWithGot(cs: ModelCodecs, rd: Reading, data: Json)
    requires Get(data, "type") == Ok(JStr("ShantenWithGot"))
    ensures DecodeShanten(cs, rd, data).Ok? <==> DecodeWithGot(cs.tile, data).Ok?
    ensures DecodeShanten(cs, rd, data).Ok? ==>
      && DecodeShanten(cs, rd, data).value == ShantenWithGot(DecodeWithGot(cs.tile, data).value)
      && Get(data, "shantenNum") == Ok(JInt(DecodeWithGot(cs.tile, data).value.shanten))
    ensures DecodeShanten(cs, rd, data).Err? ==> DecodeShanten(cs, rd, data).error == DecodeWithGot(cs.tile, data).error
  {
    if DecodeWithGot(cs.tile, data).Ok? {
      WithGotDecodedFields(cs.tile, data);
    }
  }

  /** Under the `ShantenWithFuroChance` tag the dispatcher succeeds exactly when the
      ShantenWithFuroChance decoder of `rd` does, with its value, and otherwise raises that
      decoder's error; as written, what it returns never has an open quad. */
  lemma DecodedAsFuroChance(cs: ModelCodecs, rd: Reading, data: Json)
    requires Get(data, "type") == Ok(JStr("ShantenWithFuroChance"))
    ensures DecodeShanten(cs, rd, data).Ok? <==> DecodeFuroChance(cs, rd, data).Ok?
    ensures DecodeShanten(cs, rd, data).Ok? ==>
      && DecodeShanten(cs, rd, data).value == ShantenWithFuroChance(DecodeFuroChance(cs, rd, data).value)
      && Get(data, "shantenNum") == Ok(JInt(DecodeFuroChance(cs, rd, data).value.shanten))
    ensures DecodeShanten(cs, rd, data).Err? ==> DecodeShanten(cs, rd, data).error == DecodeFuroChance(cs, rd, data).error
    ensures rd.AsWritten? && DecodeShanten(cs, rd, data).Ok? ==> DecodeFuroChance(cs, rd, data).value.minkan.None?
  {
    if DecodeFuroChance(cs, rd, data).Ok? {
      match rd
      case AsWritten => FuroChanceAsWrittenDecodedFields(cs, data);
      case Intended => FuroChanceDecodedFields(cs, data);
    }
  }

  /** On every input a ShantenWithFuroChance decoded by the intended decoder has the number
      under `shantenNum`, and `pass`, `pon` and `minkan` are None exactly when the dict holds
      null there. */
  lemma FuroChanceDecodedFields(cs: ModelCodecs, data: Json)
    requires DecodeWithFuroChance(cs, data).Ok?
    ensures Get(data, "shantenNum") == Ok(JInt(DecodeWithFuroChance(cs, data).value.shanten))
    ensures DecodeWithFuroChance(cs, data).value.pass.None? <==> Get(data, "pass") == Ok(JNull)
    ensures DecodeWithFuroChance(cs, data).value.pon.None? <==> Get(data, "pon") == Ok(JNull)
    ensures DecodeWithFuroChance(cs, data).value.minkan.None? <==> Get(data, "minkan") == Ok(JNull)
  {
    FuroChanceDecodedShape(cs, data);
    FuroChancePrefixFields(cs, data);
    OptionalWithGotNull(cs.tile, Get(data, "minkan").value);
  }

  /** On every input a ShantenWithFuroChance decoded as written was read from a null
      `minkan` and has none; it has the number under `shantenNum`, and `pass` and `pon` are
      None exactly when the dict holds null there. */
  lemma FuroChanceAsWrittenDecodedFields(cs: ModelCodecs, data: Json)
    requires DecodeWithFuroChanceAsWritten(cs, data).Ok?
    ensures Get(data, "minkan") == Ok(JNull)
    ensures DecodeWithFuroChanceAsWritten(cs, data).value.minkan.None?
    ensures Get(data, "shantenNum") == Ok(JInt(DecodeWithFuroChanceAsWritten(cs, data).value.shanten))
    ensures DecodeWithFuroChanceAsWritten(cs, data).value.pass.None? <==> Get(data, "pass") == Ok(JNull)
    ensures DecodeWithFuroChanceAsWritten(cs, data).value.pon.None? <==> Get(data, "pon") == Ok(JNull)
  {
    assert DecodeFuroChancePrefix(cs, data).Ok? && Get(data, "minkan").Ok?;
    FuroChanceAsWrittenRejectsMinkan(cs, data);
    FuroChanceAsWrittenAgreesWithoutMinkan(cs, data);
    FuroChanceDecodedFields(cs, data);
  }

  /** The intended decoder's result is what each field reads as. */
  lemma FuroChanceDecodedShape(cs: ModelCodecs, data: Json)
    requires DecodeWithFuroChance(cs, data).Ok?
    ensures FuroChancePrefixReads(cs, data, DecodeWithFuroChance(cs, data).value)
    ensures DecodeOptionalWithGot(cs.tile, Get(data, "minkan").value) == Ok(DecodeWithFuroChance(cs, data).value.minkan)
  {
    assert DecodeFuroChancePrefix(cs, data).Ok? && Get(data, "minkan").Ok?;
  }

  /** What the fields before `minkan` are read from: `shantenNum` raw, and `pass` and `pon`
      None exactly when the dict holds null there. */
  lemma FuroChancePrefixFields(cs: ModelCodecs, data: Json)
    requires DecodeFuroChancePrefix(cs, data).Ok?
    ensures Get(data, "shantenNum") == Ok(DecodeFuroChancePrefix(cs, data).value.shantenNum)
    ensures DecodeFuroChancePrefix(cs, data).value.pass.None? <==> Get(data, "pass") == Ok(JNull)
    ensures DecodeFuroChancePrefix(cs, data).value.pon.None? <==> Get(data, "pon") == Ok(JNull)
  {
    assert Get(data, "shantenNum").Ok? && Get(data, "pass").Ok? && Get(data, "chi").Ok? && Get(data, "pon").Ok?;
    OptionalWithoutGotNull(cs.tile, Get(data, "pass").value);
    OptionalWithGotNull(cs.tile, Get(data, "pon").value);
  }

  /** A decoded optional ShantenWithoutGot is None exactly when it was read from null. */
  lemma OptionalWithoutGotNull(tc: KeyCodec<Tile>, raw: Json)
    requires DecodeOptionalWithoutGot(tc, raw).Ok?
    ensures DecodeOptionalWithoutGot(tc, raw).value.None? <==> raw == JNull
  {
  }

  /** A decoded optional ShantenWithGot is None exactly when it was read from null. */
  lemma OptionalWithGotNull(tc: KeyCodec<Tile>, raw: Json)
    requires DecodeOptionalWithGot(tc, raw).Ok?
    ensures DecodeOptionalWithGot(tc, raw).value.None? <==> raw == JNull
  {
  }

  /** On every input: a string tag naming no variant raises ValueError, any other tag TypeError. */
  lemma DecodeShantenRejects(cs: ModelCodecs, rd: Reading, data: Json)
    ensures Get(data, "type").Ok? && Get(data, "type").value.JStr?
      && Get(data, "type").value.s !in {"ShantenWithoutGot", "ShantenWithGot", "ShantenWithFuroChance"}
      ==> DecodeShanten(cs, rd, data) == Err(ValueError("invalid type: " + Get(data, "type").value.s))
    ensures Get(data, "type").Ok? && !Get(data, "type").value.JStr?
      ==> DecodeShanten(cs, rd, data) == Err(TypeError)
  {
  }

  // ---------------------------------------------------------------- ShantenResult

  /** `ShantenResultType`, a str-valued Enum. */
  datatype ShantenResultType = Regular | Chitoi | Kokushi | Union | FuroChance
  {
    /** The member's Python name. */
    function Name(): string
    {
      match this
      case Regular => "regular"
      case Chitoi => "chitoi"
      case Kokushi => "kokushi"
      case Union => "union"
      case FuroChance => "furo_chance"
    }

    /** The member's value. */
    function Value(): string
    {
      match this
      case Regular => "Regular"
      case Chitoi => "Chitoi"
      case Kokushi => "Kokushi"
      case Union => "Union"
      case FuroChance => "FuroChance"
    }
  }

  /** `ShantenResultType[name]`: lookup by member name, KeyError for any other name. */
  function MemberNamed(name: string): (r: Result<ShantenResultType>)
    ensures r.Ok? <==> name in {"regular", "chitoi", "kokushi", "union", "furo_chance"}
    ensures r.Ok? ==> r.value.Name() == name
    ensures r.Err? ==> r == Err(KeyError(name))
  {
    if name == "regular" then Ok(Regular)
    else if name == "chitoi" then Ok(Chitoi)
    else if name == "kokushi" then Ok(Kokushi)
    else if name == "union" then Ok(Union)
    else if name == "furo_chance" then Ok(FuroChance)
    else Err(KeyError(name))
  }

  /** `stringcase.pascalcase` on the five member names, the only strings it is given here. */
  function PascalCase(name: string): string
  {
    if name == "regular" then "Regular"
    else if name == "chitoi" then "Chitoi"
    else if name == "kokushi" then "Kokushi"
    else if name == "union" then "Union"
    else if name == "furo_chance" then "FuroChance"
    else name
  }

  /** An ASCII upper-case letter: what the pattern `[A-Z]` matches. */
  predicate IsUpper(c: char)
  {
    'A' <= c <= 'Z'
  }

  /** What `[\-\.\s]` matches among ASCII characters: `-`, `.`, space, tab, line feed,
      vertical tab, form feed, carriage return and the four separators U+001C to U+001F. */
  predicate IsSeparator(c: char)
  {
    c == '-' || c == '.' || c == ' ' || '\t' <= c <= '\r' || '\U{1C}' <= c <= '\U{1F}'
  }

  /** No capital and no separator: what `snakecase` returns. */
  predicate Clean(s: string)
  {
    forall i :: 0 <= i < |s| ==> !IsUpper(s[i]) && !IsSeparator(s[i])
  }

  /** `str.lower` on one character, for ASCII letters. */
  function Lower(c: char): (l: char)
    ensures !IsUpper(l)
    ensures IsSeparator(l) <==> IsSeparator(c)
    ensures !IsUpper(c) ==> l == c
  {
    if IsUpper(c) then (c as int - 'A' as int + 'a' as int) as char else c
  }

  /** `re.sub(r"[\-\.\s]", '_', s)` */
  function Underscored(s: string): string
  {
    seq(|s|, i requires 0 <= i < |s| => if IsSeparator(s[i]) then '_' else s[i])
  }

  /** `re.sub(r"[A-Z]", lambda m: '_' + lowercase(m.group(0)), s)` */
  function SplitCapitals(s: string): string
  {
    if s == [] then []
    else (if IsUpper(s[0]) then ['_', Lower(s[0])] else [s[0]]) + SplitCapitals(s[1..])
  }

  /** `stringcase.snakecase`: every `-`, `.` and white-space character becomes `_`; then the
      first character is lowered and every later capital becomes `_` and its lower case. */
  function SnakeCase(s: string): string
  {
    var t := Underscored(s);
    if t == [] then [] else [Lower(t[0])] + SplitCapitals(t[1..])
  }

  /** `ShantenResultType[snakecase(raw)]` */
  function DecodeResultType(raw: Json): Result<ShantenResultType>
  {
    match raw
    case JStr(s) => MemberNamed(SnakeCase(s))
    case _ => Err(TypeError)
  }

  /** Replacing separators leaves none, keeps every other character, and leaves a string
      without separators alone. */
  lemma UnderscoredSpec(s: string)
    ensures |Underscored(s)| == |s|
    ensures forall i :: 0 <= i < |s| ==> !IsSeparator(Underscored(s)[i])
    ensures forall i :: 0 <= i < |s| ==> (IsUpper(Underscored(s)[i]) <==> IsUpper(s[i]))
    ensures (forall i :: 0 <= i < |s| ==> !IsSeparator(s[i])) ==> Underscored(s) == s
  {
  }

  lemma UnderscoredAppend(a: string, b: string)
    ensures Underscored(a + b) == Underscored(a) + Underscored(b)
  {
  }

  lemma SplitCapitalsCons(c: char, rest: string)
    ensures SplitCapitals([c] + rest) == (if IsUpper(c) then ['_', Lower(c)] else [c]) + SplitCapitals(rest)
  {
    assert ([c] + rest)[1..] == rest;
  }

  lemma {:induction false} SplitCapitalsAppend(a: string, b: string)
    ensures SplitCapitals(a + b) == SplitCapitals(a) + SplitCapitals(b)
  {
    if a != [] {
      assert (a + b)[1..] == a[1..] + b;
      SplitCapitalsAppend(a[1..], b);
    } else {
      assert a + b == b;
    }
  }

  /** Splitting at capitals leaves a string without separators clean. */
  lemma {:induction false} SplitCapitalsClean(s: string)
    requires forall i :: 0 <= i < |s| ==> !IsSeparator(s[i])
    ensures Clean(SplitCapitals(s))
  {
    if s != [] {
      SplitCapitalsClean(s[1..]);
      var head := if IsUpper(s[0]) then ['_', Lower(s[0])] else [s[0]];
      assert SplitCapitals(s) == head + SplitCapitals(s[1..]);
      assert Clean(head);
    }
  }

  /** Splitting at capitals leaves a string without capitals alone. */
  lemma {:induction false} SplitCapitalsPlain(s: string)
    requires forall i :: 0 <= i < |s| ==> !IsUpper(s[i])
    ensures SplitCapitals(s) == s
  {
    if s != [] {
      SplitCapitalsPlain(s[1..]);
      assert s == [s[0]] + s[1..];
    }
  }

  /** What `snakecase` returns has no capital and no separator. */
  lemma SnakeCaseClean(s: string)
    ensures Clean(SnakeCase(s))
  {
    var t := Underscored(s);
    UnderscoredSpec(s);
    if t != [] {
      SplitCapitalsClean(t[1..]);
      assert Clean([Lower(t[0])]);
    }
  }

  /** `snakecase` leaves a string alone exactly when it has no capital and no separator. */
  lemma SnakeCaseFixes(s: string)
    ensures SnakeCase(s) == s <==> Clean(s)
  {
    SnakeCaseClean(s);
    if Clean(s) {
      UnderscoredSpec(s);
      if s != [] {
        SplitCapitalsPlain(s[1..]);
        assert s == [s[0]] + s[1..];
      }
    }
  }

  /** Applying `snakecase` twice is applying it once. */
  lemma SnakeCaseIdempotent(s: string)
    ensures SnakeCase(SnakeCase(s)) == SnakeCase(s)
  {
    SnakeCaseClean(s);
    SnakeCaseFixes(SnakeCase(s));
  }

  /** Without separators, `snakecase` only lowers the first character and splits at the
      later capitals. */
  lemma SnakeCaseUnseparated(s: string)
    requires s != [] && forall i :: 0 <= i < |s| ==> !IsSeparator(s[i])
    ensures SnakeCase(s) == [Lower(s[0])] + SplitCapitals(s[1..])
  {
    UnderscoredSpec(s);
  }

  /** Joining strings and a character without separators gives none. */
  lemma UnseparatedJoin(a: string, c: char, b: string)
    requires forall i :: 0 <= i < |a| ==> !IsSeparator(a[i])
    requires !IsSeparator(c)
    requires forall i :: 0 <= i < |b| ==> !IsSeparator(b[i])
    ensures forall i :: 0 <= i < |a + [c] + b| ==> !IsSeparator((a + [c] + b)[i])
  {
  }

  /** A capital followed by a clean word: the capital is lowered. */
  lemma SnakeCaseOfCapitalized(s: string, c: char, w: string)
    requires s == [c] + w && IsUpper(c) && Clean(w)
    ensures SnakeCase(s) == [Lower(c)] + w
  {
    UnseparatedJoin([], c, w);
    assert s == [] + [c] + w;
    SnakeCaseUnseparated(s);
    assert s[1..] == w;
    SplitCapitalsPlain(w);
  }

  /** Two capitalized clean words: both capitals are lowered and the second gets a `_`. */
  lemma SnakeCaseOfTwoWords(s: string, c1: char, w1: string, c2: char, w2: string)
    requires s == [c1] + w1 + [c2] + w2
    requires IsUpper(c1) && Clean(w1) && IsUpper(c2) && Clean(w2)
    ensures SnakeCase(s) == [Lower(c1)] + w1 + ['_', Lower(c2)] + w2
  {
    var first := [c1] + w1;
    UnseparatedJoin([], c1, w1);
    assert [] + [c1] + w1 == first;
    UnseparatedJoin(first, c2, w2);
    SnakeCaseUnseparated(s);
    var tail := [c2] + w2;
    assert s[1..] == w1 + tail;
    SplitCapitalsAppend(w1, tail);
    SplitCapitalsPlain(w1);
    SplitCapitalsCons(c2, w2);
    SplitCapitalsPlain(w2);
  }

  /** A clean word, a capital and a clean word: the capital becomes `_` and its lower case. */
  lemma SnakeCaseOfCamel(s: string, a: string, c: char, b: string)
    requires s == a + [c] + b && |a| > 0 && Clean(a) && IsUpper(c) && Clean(b)
    ensures SnakeCase(s) == a + ['_', Lower(c)] + b
  {
    UnseparatedJoin(a, c, b);
    SnakeCaseUnseparated(s);
    var tail := [c] + b;
    var rest := a[1..];
    assert s[1..] == rest + tail;
    SplitCapitalsAppend(rest, tail);
    SplitCapitalsPlain(rest);
    SplitCapitalsCons(c, b);
    SplitCapitalsPlain(b);
    assert Lower(a[0]) == a[0];
    assert a == [a[0]] + rest;
  }

  /** Two clean words around a separator: the separator becomes `_`. */
  lemma SnakeCaseOfSeparated(s: string, a: string, sep: char, b: string)
    requires s == a + [sep] + b && |a| > 0 && Clean(a) && IsSeparator(sep) && Clean(b)
    ensures SnakeCase(s) == a + ['_'] + b
  {
    var t := a + ['_'] + b;
    UnderscoredAppend(a + [sep], b);
    UnderscoredAppend(a, [sep]);
    UnderscoredSpec(a);
    UnderscoredSpec(b);
    assert Underscored([sep]) == ['_'];
    assert Underscored(s) == t;
    var rest := a[1..];
    assert t == [a[0]] + (rest + ['_'] + b);
    assert t[1..] == rest + ['_'] + b;
    SplitCapitalsAppend(rest + ['_'], b);
    SplitCapitalsAppend(rest, ['_']);
    SplitCapitalsPlain(rest);
    SplitCapitalsPlain(['_']);
    SplitCapitalsPlain(b);
    assert Lower(a[0]) == a[0];
  }

  /** `snakecase` of each member's value is the member's name. */
  lemma ValueSnakeCase(t: ShantenResultType)
    ensures SnakeCase(t.Value()) == t.Name()
  {
    match t
    case Regular => RegularSnakeCase(t.Value());
    case Chitoi => ChitoiSnakeCase(t.Value());
    case Kokushi => KokushiSnakeCase(t.Value());
    case Union => UnionSnakeCase(t.Value());
    case FuroChance => FuroChanceSnakeCase(t.Value());
  }

  lemma RegularSnakeCase(s: string)
    requires s == "Regular"
    ensures SnakeCase(s) == "regular"
  {
    SnakeCaseOfCapitalized(s, 'R', "egular");
  }

  lemma ChitoiSnakeCase(s: string)
    requires s == "Chitoi"
    ensures SnakeCase(s) == "chitoi"
  {
    SnakeCaseOfCapitalized(s, 'C', "hitoi");
  }

  lemma KokushiSnakeCase(s: string)
    requires s == "Kokushi"
    ensures SnakeCase(s) == "kokushi"
  {
    SnakeCaseOfCapitalized(s, 'K', "okushi");
  }

  lemma UnionSnakeCase(s: string)
    requires s == "Union"
    ensures SnakeCase(s) == "union"
  {
    SnakeCaseOfCapitalized(s, 'U', "nion");
  }

  lemma FuroChanceSnakeCase(s: string)
    requires s == "FuroChance"
    ensures SnakeCase(s) == "furo_chance"
  {
    SnakeCaseOfTwoWords(s, 'F', "uro", 'C', "hance");
  }

  /** Every member name is clean, so `snakecase` leaves it alone. */
  lemma NameClean(t: ShantenResultType)
    ensures Clean(t.Name())
  {
  }

  /** `pascalcase` of each member's name is the member's value. */
  lemma NamePascalCase(t: ShantenResultType)
    ensures PascalCase(t.Name()) == t.Value()
  {
  }

  /** Each member is found under its own name. */
  lemma MemberNamedName(t: ShantenResultType)
    ensures MemberNamed(t.Name()) == Ok(t)
  {
  }

  /** The tag written for each member is its Enum value, and it reads back as the same member;
      the member's name reads as the member too. */
  lemma ResultTypeTagRoundTrip(t: ShantenResultType)
    ensures PascalCase(t.Name()) == t.Value()
    ensures DecodeResultType(JStr(PascalCase(t.Name()))) == Ok(t)
    ensures DecodeResultType(JStr(t.Name())) == Ok(t)
  {
    NamePascalCase(t);
    ValueSnakeCase(t);
    NameClean(t);
    SnakeCaseFixes(t.Name());
    MemberNamedName(t);
  }

  /** `snakecase` reads a camel-case word break as `_`, so "furoChance" names FuroChance. */
  lemma CamelSpelling(s: string)
    requires s == "furoChance"
    ensures DecodeResultType(JStr(s)) == Ok(FuroChance)
  {
    SnakeCaseOfCamel(s, "furo", 'C', "hance");
  }

  /** `snakecase` reads a hyphen, a dot or white space as `_`, so "furo-chance", "furo.chance"
      and "furo chance" name FuroChance. */
  lemma SeparatedSpelling(s: string, sep: char)
    requires IsSeparator(sep) && s == "furo" + [sep] + "chance"
    ensures DecodeResultType(JStr(s)) == Ok(FuroChance)
  {
    SnakeCaseOfSeparated(s, "furo", sep, "chance");
  }

  /** `snakecase` lowers the first character, so "Furo_chance" names FuroChance. */
  lemma CapitalizedSpelling(s: string)
    requires s == "Furo_chance"
    ensures DecodeResultType(JStr(s)) == Ok(FuroChance)
  {
    SnakeCaseOfCapitalized(s, 'F', "uro_chance");
  }

  /** On every string: it names the member whose name its `snakecase` is, and otherwise
      raises KeyError carrying the `snakecase`d string. */
  lemma DecodeResultTypeSpec(s: string, t: ShantenResultType)
    ensures DecodeResultType(JStr(s)) == Ok(t) <==> SnakeCase(s) == t.Name()
    ensures DecodeResultType(JStr(s)).Err? ==> DecodeResultType(JStr(s)) == Err(KeyError(SnakeCase(s)))
  {
    if SnakeCase(s) == t.Name() {
      SnakeCaseFixes(t.Name());
      ResultTypeTagRoundTrip(t);
    }
  }

  /** `ShantenResult` */
  datatype ShantenResult = ShantenResult(
    resultType: ShantenResultType,
    hand: Hand,
    shantenInfo: Shanten,
    regular: Option<ShantenResult>,
    chitoi: Option<ShantenResult>,
    kokushi: Option<ShantenResult>)

  /** `ShantenResult.__encode__` */
  ghost function EncodeResult(cs: ModelCodecs, r: ShantenResult): Json
  {
    JObj(map[
      "type" := JStr(PascalCase(r.resultType.Name())),
      "hand" := cs.hand.encode(r.hand),
      "shantenInfo" := EncodeShanten(cs, r.shantenInfo),
      "regular" := if r.regular.Some? then EncodeResult(cs, r.regular.value) else JNull,
      "chitoi" := if r.chitoi.Some? then EncodeResult(cs, r.chitoi.value) else JNull,
      "kokushi" := if r.kokushi.Some? then EncodeResult(cs, r.kokushi.value) else JNull])
  }

  /** `ShantenResult.__decode__`, recursive on the three component results.
      `DecodeResult(cs, AsWritten, data)` is the program as it stands. */
  ghost function DecodeResult(cs: ModelCodecs, rd: Reading, data: Json): Result<ShantenResult>
    decreases data, 1
  {
    var typeRaw :- Get(data, "type");
    var resultType :- DecodeResultType(typeRaw);
    var handRaw :- Get(data, "hand");
    var hand :- cs.hand.decode(handRaw);
    var infoRaw :- Get(data, "shantenInfo");
    var info :- DecodeShanten(cs, rd, infoRaw);
    var regularRaw :- Get(data, "regular");
    var regular :- DecodeComponent(cs, rd, regularRaw);
    var chitoiRaw :- Get(data, "chitoi");
    var chitoi :- DecodeComponent(cs, rd, chitoiRaw);
    var kokushiRaw :- Get(data, "kokushi");
    var kokushi :- DecodeComponent(cs, rd, kokushiRaw);
    Ok(ShantenResult(resultType, hand, info, regular, chitoi, kokushi))
  }

  /** `ShantenResult.__decode__(x) if x is not None else None` */
  ghost function DecodeComponent(cs: ModelCodecs, rd: Reading, raw: Json): Result<Option<ShantenResult>>
    decreases raw, 2
  {
    if raw.JNull? then Ok(None) else var x :- DecodeResult(cs, rd, raw); Ok(Some(x))
  }

  /** The encoding of `r` decodes back under `rd`: every payload in the tree is Decodable. */
  predicate ResultDecodable(rd: Reading, r: ShantenResult)
    decreases r
  {
    && Decodable(rd, r.shantenInfo)
    && (r.regular.Some? ==> ResultDecodable(rd, r.regular.value))
    && (r.chitoi.Some? ==> ResultDecodable(rd, r.chitoi.value))
    && (r.kokushi.Some? ==> ResultDecodable(rd, r.kokushi.value))
  }

  /** `ShantenResult.__encode__` writes the tag of the result type and the hand's encoding. */
  lemma ResultEncodedFields(cs: ModelCodecs, r: ShantenResult)
    ensures Holds(EncodeResult(cs, r), "type", JStr(PascalCase(r.resultType.Name())))
    ensures Holds(EncodeResult(cs, r), "hand", cs.hand.encode(r.hand))
  {
  }

  /** `ShantenResult.__encode__` writes the payload's own encoding under `shantenInfo`. */
  lemma ResultEncodedInfo(cs: ModelCodecs, r: ShantenResult)
    ensures Holds(EncodeResult(cs, r), "shantenInfo", EncodeShanten(cs, r.shantenInfo))
  {
  }

  /** `ShantenResult.__encode__` writes each component result's encoding, or null. */
  lemma ResultEncodedComponents(cs: ModelCodecs, r: ShantenResult)
    ensures Holds(EncodeResult(cs, r), "regular", if r.regular.Some? then EncodeResult(cs, r.regular.value) else JNull)
    ensures Holds(EncodeResult(cs, r), "chitoi", if r.chitoi.Some? then EncodeResult(cs, r.chitoi.value) else JNull)
    ensures Holds(EncodeResult(cs, r), "kokushi", if r.kokushi.Some? then EncodeResult(cs, r.kokushi.value) else JNull)
  {
  }

  /** `res` is `Ok(x)` when `ok`, and `Err(e)` otherwise. */
  ghost predicate ReadsAs<T>(res: Result<T>, ok: bool, x: T, e: Error)
  {
    res == if ok then Ok(x) else Err(e)
  }

  /** On every input whose type and hand read as `r`'s and whose payload and components each
      either read as `r`'s or fail with `e`, `ShantenResult.__decode__` yields `r` when all of them
      read back, and `e` otherwise. */
  lemma DecodeResultFromFields(cs: ModelCodecs, rd: Reading, data: Json, r: ShantenResult, e: Error,
                               infoOk: bool, regularOk: bool, chitoiOk: bool, kokushiOk: bool)
    requires Get(data, "type").Ok? && DecodeResultType(Get(data, "type").value) == Ok(r.resultType)
    requires Get(data, "hand").Ok? && cs.hand.decode(Get(data, "hand").value) == Ok(r.hand)
    requires Get(data, "shantenInfo").Ok? && Get(data, "regular").Ok?
    requires Get(data, "chitoi").Ok? && Get(data, "kokushi").Ok?
    requires ReadsAs(DecodeShanten(cs, rd, Get(data, "shantenInfo").value), infoOk, r.shantenInfo, e)
    requires ReadsAs(DecodeComponent(cs, rd, Get(data, "regular").value), regularOk, r.regular, e)
    requires ReadsAs(DecodeComponent(cs, rd, Get(data, "chitoi").value), chitoiOk, r.chitoi, e)
    requires ReadsAs(DecodeComponent(cs, rd, Get(data, "kokushi").value), kokushiOk, r.kokushi, e)
    ensures ReadsAs(DecodeResult(cs, rd, data), infoOk && regularOk && chitoiOk && kokushiOk, r, e)
  {
  }

  /** The optional component `o` decodes back under `rd`. */
  predicate ComponentDecodable(rd: Reading, o: Option<ShantenResult>)
  {
    o.Some? ==> ResultDecodable(rd, o.value)
  }

  /** The encoding of an optional component decodes to it, or fails with KeyError('advance'),
      as the component's own encoding does. */
  lemma ComponentRoundTrip(cs: ModelCodecs, rd: Reading, o: Option<ShantenResult>)
    requires o.Some? ==> ReadsAs(DecodeResult(cs, rd, EncodeResult(cs, o.value)),
                                 ResultDecodable(rd, o.value), o.value, KeyError("advance"))
    ensures ReadsAs(DecodeComponent(cs, rd, if o.Some? then EncodeResult(cs, o.value) else JNull),
                    ComponentDecodable(rd, o), o, KeyError("advance"))
  {
    if o.Some? {
      assert EncodeResult(cs, o.value).JObj?;
    }
  }

  /** The type tag and the hand of an encoding read back. */
  lemma ResultHeadRoundTrip(cs: ModelCodecs, r: ShantenResult)
    requires Lawful(cs)
    ensures Get(EncodeResult(cs, r), "type").Ok?
    ensures DecodeResultType(Get(EncodeResult(cs, r), "type").value) == Ok(r.resultType)
    ensures Get(EncodeResult(cs, r), "hand").Ok?
    ensures cs.hand.decode(Get(EncodeResult(cs, r), "hand").value) == Ok(r.hand)
  {
    ResultEncodedFields(cs, r);
    ResultTypeTagRoundTrip(r.resultType);
    assert cs.hand.decode(cs.hand.encode(r.hand)) == Ok(r.hand);
  }

  /** `__encode__` followed by `ShantenResult.__decode__` gives back every tree whose payloads
      are all Decodable; on any other tree it raises KeyError('advance'). */
  lemma {:induction false} ResultRoundTrip(cs: ModelCodecs, rd: Reading, r: ShantenResult)
    requires Lawful(cs)
    ensures DecodeResult(cs, rd, EncodeResult(cs, r)) == if ResultDecodable(rd, r) then Ok(r) else Err(KeyError("advance"))
    decreases r
  {
    var e := KeyError("advance");
    ResultHeadRoundTrip(cs, r);
    ResultEncodedInfo(cs, r);
    ResultEncodedComponents(cs, r);
    ShantenRoundTrip(cs, rd, r.shantenInfo);
    if r.regular.Some? { ResultRoundTrip(cs, rd, r.regular.value); }
    ComponentRoundTrip(cs, rd, r.regular);
    if r.chitoi.Some? { ResultRoundTrip(cs, rd, r.chitoi.value); }
    ComponentRoundTrip(cs, rd, r.chitoi);
    if r.kokushi.Some? { ResultRoundTrip(cs, rd, r.kokushi.value); }
    ComponentRoundTrip(cs, rd, r.kokushi);
    DecodeResultFromFields(cs, rd, EncodeResult(cs, r), r, e, Decodable(rd, r.shantenInfo),
      ComponentDecodable(rd, r.regular), ComponentDecodable(rd, r.chitoi), ComponentDecodable(rd, r.kokushi));
  }

  /** With the intended ShantenWithFuroChance decoder every tree is Decodable. */
  lemma {:induction false} IntendedDecodable(r: ShantenResult)
    ensures ResultDecodable(Intended, r)
    decreases r
  {
    if r.regular.Some? { IntendedDecodable(r.regular.value); }
    if r.chitoi.Some? { IntendedDecodable(r.chitoi.value); }
    if r.kokushi.Some? { IntendedDecodable(r.kokushi.value); }
  }

  /** With the intended ShantenWithFuroChance decoder every tree survives encoding and decoding. */
  lemma IntendedResultRoundTrip(cs: ModelCodecs, r: ShantenResult)
    requires Lawful(cs)
    ensures DecodeResult(cs, Intended, EncodeResult(cs, r)) == Ok(r)
  {
    IntendedDecodable(r);
    ResultRoundTrip(cs, Intended, r);
  }

  /** A component result is written as null exactly when it is absent. */
  lemma ResultEncodedNulls(cs: ModelCodecs, r: ShantenResult)
    ensures Get(EncodeResult(cs, r), "regular") == Ok(JNull) <==> r.regular.None?
    ensures Get(EncodeResult(cs, r), "chitoi") == Ok(JNull) <==> r.chitoi.None?
    ensures Get(EncodeResult(cs, r), "kokushi") == Ok(JNull) <==> r.kokushi.None?
  {
    ResultEncodedComponents(cs, r);
    if r.regular.Some? { assert EncodeResult(cs, r.regular.value).JObj?; }
    if r.chitoi.Some? { assert EncodeResult(cs, r.chitoi.value).JObj?; }
    if r.kokushi.Some? { assert EncodeResult(cs, r.kokushi.value).JObj?; }
  }

  // ---------------------------------------------------------------- accessors

  /** `ShantenResult.shanten`: every variant has the field, so it is never None. */
  function ShantenOf(r: ShantenResult): (n: Option<int>)
    ensures r.shantenInfo.ShantenWithoutGot? ==> n == Some(r.shantenInfo.withoutGot.shanten)
    ensures r.shantenInfo.ShantenWithGot? ==> n == Some(r.shantenInfo.withGot.shanten)
    ensures r.shantenInfo.ShantenWithFuroChance? ==> n == Some(r.shantenInfo.withFuroChance.shanten)
  {
    Some(r.shantenInfo.Number())
  }

  /** `ShantenResult.advance`: only ShantenWithoutGot has `advance`. */
  function AdvanceOf(r: ShantenResult): (a: Option<set<Tile>>)
    ensures a.Some? <==> r.shantenInfo.ShantenWithoutGot?
    ensures a.Some? ==> a.value == r.shantenInfo.withoutGot.advance
  {
    if r.shantenInfo.ShantenWithoutGot? then Some(r.shantenInfo.withoutGot.advance) else None
  }

  /** `ShantenResult.advance_num`: None for the variants without the field, and when the field is None. */
  function AdvanceNumOf(r: ShantenResult): (n: Option<int>)
    ensures n.Some? ==> r.shantenInfo.ShantenWithoutGot? && r.shantenInfo.withoutGot.advanceNum == n
    ensures r.shantenInfo.ShantenWithoutGot? ==> n == r.shantenInfo.withoutGot.advanceNum
  {
    if r.shantenInfo.ShantenWithoutGot? then r.shantenInfo.withoutGot.advanceNum else None
  }

  /** `ShantenResult.good_shape_advance` */
  function GoodShapeAdvanceOf(r: ShantenResult): (a: Option<set<Tile>>)
    ensures a.Some? ==> r.shantenInfo.ShantenWithoutGot? && r.shantenInfo.withoutGot.goodShapeAdvance == a
    ensures r.shantenInfo.ShantenWithoutGot? ==> a == r.shantenInfo.withoutGot.goodShapeAdvance
  {
    if r.shantenInfo.ShantenWithoutGot? then r.shantenInfo.withoutGot.goodShapeAdvance else None
  }

  /** `ShantenResult.good_shape_advance_num` */
  function GoodShapeAdvanceNumOf(r: ShantenResult): (n: Option<int>)
    ensures n.Some? ==> r.shantenInfo.ShantenWithoutGot? && r.shantenInfo.withoutGot.goodShapeAdvanceNum == n
    ensures r.shantenInfo.ShantenWithoutGot? ==> n == r.shantenInfo.withoutGot.goodShapeAdvanceNum
  {
    if r.shantenInfo.ShantenWithoutGot? then r.shantenInfo.withoutGot.goodShapeAdvanceNum else None
  }

  /** `ShantenResult.discard_to_advance`: only ShantenWithGot has `discard_to_advance`. */
  function DiscardToAdvanceOf(r: ShantenResult): (d: Option<map<Tile, WithoutGot>>)
    ensures d.Some? <==> r.shantenInfo.ShantenWithGot?
    ensures d.Some? ==> d.value == r.shantenInfo.withGot.discardToAdvance
  {
    if r.shantenInfo.ShantenWithGot? then Some(r.shantenInfo.withGot.discardToAdvance) else None
  }

  /** `ShantenResult.ankan_to_advance`: only ShantenWithGot has `ankan_to_advance`. */
  function AnkanToAdvanceOf(r: ShantenResult): (d: Option<map<Tile, WithoutGot>>)
    ensures d.Some? <==> r.shantenInfo.ShantenWithGot?
    ensures d.Some? ==> d.value == r.shantenInfo.withGot.ankanToAdvance
  {
    if r.shantenInfo.ShantenWithGot? then Some(r.shantenInfo.withGot.ankanToAdvance) else None
  }

  /** `ShantenResult.with_got`: `discard_to_advance is not None`, which holds exactly for a
      ShantenWithGot payload. */
  function WithGotOf(r: ShantenResult): (b: bool)
    ensures b <==> r.shantenInfo.ShantenWithGot?
  {
    DiscardToAdvanceOf(r).Some?
  }
}
