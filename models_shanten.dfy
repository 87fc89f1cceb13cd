/**
  The older, two-variant shanten codec of mahjong_utils/models/shanten.py.

  Its ShantenWithoutGot has the same fields, the same `__encode__` and a
  `__decode__` that reads the same keys in the same order as the one in
  mahjong_utils/shanten.py (its walrus-bound conditionals only avoid a second
  lookup), so it is `ShantenCodec.WithoutGot` with that module's codec. Its
  ShantenWithGot has no `ankan_to_advance`, and its dispatcher knows no
  ShantenWithFuroChance.
*/
module ModelsShantenCodec {
  import opened PyJson
  import opened Codecs
  import opened Models
  import SC = ShantenCodec

  /** `ShantenWithGot` of the older module: the discards only. */
  datatype WithGot = WithGot(shanten: int, discardToAdvance: map<Tile, SC.WithoutGot>)

  /** The closed hierarchy under the older abstract class `Shanten`. */
  datatype Shanten =
    | ShantenWithoutGot(withoutGot: SC.WithoutGot)
    | ShantenWithGot(withGot: WithGot)

  /** `ShantenWithGot.__encode__` */
  ghost function EncodeWithGot(tc: KeyCodec<Tile>, g: WithGot): Json
  {
    JObj(map[
      "type" := JStr("ShantenWithGot"),
      "shantenNum" := JInt(g.shanten),
      "discardToAdvance" := EncodeDict(tc, w => SC.EncodeWithoutGot(tc, w), g.discardToAdvance)])
  }

  /** `ShantenWithGot.__decode__`: `shantenNum` is read first, then the discards. */
  ghost function DecodeWithGot(tc: KeyCodec<Tile>, data: Json): Result<WithGot>
  {
    var shantenNum :- Get(data, "shantenNum");
    var discardDict :- Get(data, "discardToAdvance");
    var discard :- DecodeDict(tc, v => SC.DecodeWithoutGot(tc, v), discardDict);
    var n :- IntField("shanten", shantenNum);
    Ok(WithGot(n, discard))
  }

  /** The polymorphic `__encode__`. */
  ghost function EncodeShanten(tc: KeyCodec<Tile>, s: Shanten): Json
  {
    match s
    case ShantenWithoutGot(w) => SC.EncodeWithoutGot(tc, w)
    case ShantenWithGot(g) => EncodeWithGot(tc, g)
  }

  /** `Shanten.__decode__`: only the two tags this module knows are accepted. */
  ghost function DecodeShanten(tc: KeyCodec<Tile>, data: Json): Result<Shanten>
  {
    var tag :- Get(data, "type");
    if tag == JStr("ShantenWithoutGot") then
      var w :- SC.DecodeWithoutGot(tc, data); Ok(ShantenWithoutGot(w))
    else if tag == JStr("ShantenWithGot") then
      var g :- DecodeWithGot(tc, data); Ok(ShantenWithGot(g))
    else if tag.JStr? then Err(ValueError("invalid type: " + tag.s))
    else Err(TypeError)
  }

  /** The encoding holds the encoding of the discard map. */
  lemma WithGotEncodedDict(tc: KeyCodec<Tile>, g: WithGot)
    ensures Holds(EncodeWithGot(tc, g), "discardToAdvance", EncodeDict(tc, w => SC.EncodeWithoutGot(tc, w), g.discardToAdvance))
  {
  }

  /** On every input whose `shantenNum` and discard dict read back as those of `g`,
      `ShantenWithGot.__decode__` yields `g`; any other key is ignored. */
  lemma WithGotDecodeFromFields(tc: KeyCodec<Tile>, data: Json, g: WithGot)
    requires Get(data, "shantenNum") == Ok(JInt(g.shanten))
    requires Get(data, "discardToAdvance").Ok?
    requires DecodeDict(tc, v => SC.DecodeWithoutGot(tc, v), Get(data, "discardToAdvance").value) == Ok(g.discardToAdvance)
    ensures DecodeWithGot(tc, data) == Ok(g)
  {
  }

  lemma WithGotRoundTrip(tc: KeyCodec<Tile>, g: WithGot)
    requires KeyRoundTrips(tc)
    ensures DecodeWithGot(tc, EncodeWithGot(tc, g)) == Ok(g)
  {
    WithGotTagAndNumber(tc, g);
    WithGotEncodedDict(tc, g);
    SC.WithoutGotDictRoundTrip(tc, g.discardToAdvance);
    WithGotDecodeFromFields(tc, EncodeWithGot(tc, g), g);
  }

  /** The encoding writes the class name, the number, and each discard once under its tile's
      string with the encoding of its own result. */
  lemma WithGotEncodedFields(tc: KeyCodec<Tile>, g: WithGot)
    requires KeyRoundTrips(tc)
    ensures Holds(EncodeWithGot(tc, g), "type", JStr("ShantenWithGot"))
    ensures Holds(EncodeWithGot(tc, g), "shantenNum", JInt(g.shanten))
    ensures Get(EncodeWithGot(tc, g), "discardToAdvance").Ok?
    ensures Get(EncodeWithGot(tc, g), "discardToAdvance").value.fields.Items
         == EncodedItems(tc, w => SC.EncodeWithoutGot(tc, w), g.discardToAdvance)
  {
    EncodedDictEntries(tc, w => SC.EncodeWithoutGot(tc, w), g.discardToAdvance);
  }

  /** Every encoder writes its own class name as `type` and the `shanten` field as `shantenNum`. */
  lemma EncodedTagAndNumber(tc: KeyCodec<Tile>, s: Shanten)
    ensures s.ShantenWithoutGot? ==> Holds(EncodeShanten(tc, s), "type", JStr("ShantenWithoutGot"))
    ensures s.ShantenWithGot? ==> Holds(EncodeShanten(tc, s), "type", JStr("ShantenWithGot"))
    ensures s.ShantenWithoutGot? ==> Holds(EncodeShanten(tc, s), "shantenNum", JInt(s.withoutGot.shanten))
    ensures s.ShantenWithGot? ==> Holds(EncodeShanten(tc, s), "shantenNum", JInt(s.withGot.shanten))
  {
    match s
    case ShantenWithoutGot(w) => SC.WithoutGotTagAndNumber(tc, w);
    case ShantenWithGot(g) => WithGotTagAndNumber(tc, g);
  }

  lemma WithGotTagAndNumber(tc: KeyCodec<Tile>, g: WithGot)
    ensures Holds(EncodeWithGot(tc, g), "type", JStr("ShantenWithGot"))
    ensures Holds(EncodeWithGot(tc, g), "shantenNum", JInt(g.shanten))
  {
  }

  lemma TaggedWithoutGotRoundTrip(tc: KeyCodec<Tile>, w: SC.WithoutGot)
    requires KeyRoundTrips(tc)
    ensures DecodeShanten(tc, EncodeShanten(tc, ShantenWithoutGot(w))) == Ok(ShantenWithoutGot(w))
  {
    SC.WithoutGotTagAndNumber(tc, w);
    SC.WithoutGotRoundTrip(tc, w);
  }

  lemma TaggedWithGotRoundTrip(tc: KeyCodec<Tile>, g: WithGot)
    requires KeyRoundTrips(tc)
    ensures DecodeShanten(tc, EncodeShanten(tc, ShantenWithGot(g))) == Ok(ShantenWithGot(g))
  {
    WithGotTagAndNumber(tc, g);
    WithGotRoundTrip(tc, g);
  }

  /** The older ShantenWithoutGot writes `advanceNum`, `goodShapeAdvance` and
      `goodShapeAdvanceNum` as null exactly when the field is None. */
  lemma WithoutGotEncodedNulls(tc: KeyCodec<Tile>, w: SC.WithoutGot)
    ensures Get(EncodeShanten(tc, ShantenWithoutGot(w)), "advanceNum") == Ok(JNull) <==> w.advanceNum.None?
    ensures Get(EncodeShanten(tc, ShantenWithoutGot(w)), "goodShapeAdvance") == Ok(JNull) <==> w.goodShapeAdvance.None?
    ensures Get(EncodeShanten(tc, ShantenWithoutGot(w)), "goodShapeAdvanceNum") == Ok(JNull) <==> w.goodShapeAdvanceNum.None?
  {
    SC.WithoutGotEncodedNulls(tc, w);
  }

  /** On every dict the older dispatcher reads as a ShantenWithoutGot: the number is the
      integer under `shantenNum`, and each optional field is None exactly when the dict
      holds null there. */
  lemma DecodedWithoutGotFields(tc: KeyCodec<Tile>, data: Json)
    requires DecodeShanten(tc, data).Ok? && DecodeShanten(tc, data).value.ShantenWithoutGot?
    ensures Get(data, "shantenNum") == Ok(JInt(DecodeShanten(tc, data).value.withoutGot.shanten))
    ensures DecodeShanten(tc, data).value.withoutGot.advanceNum.None? <==> Get(data, "advanceNum") == Ok(JNull)
    ensures DecodeShanten(tc, data).value.withoutGot.goodShapeAdvance.None? <==> Get(data, "goodShapeAdvance") == Ok(JNull)
    ensures DecodeShanten(tc, data).value.withoutGot.goodShapeAdvanceNum.None? <==> Get(data, "goodShapeAdvanceNum") == Ok(JNull)
  {
    DecodeShantenDispatch(tc, data);
    assert DecodeShanten(tc, data) == Ok(ShantenWithoutGot(SC.DecodeWithoutGot(tc, data).value));
    SC.WithoutGotDecodedFields(tc, data);
  }

  /** Every result survives `__encode__` followed by `Shanten.__decode__`. */
  lemma ShantenRoundTrip(tc: KeyCodec<Tile>, s: Shanten)
    requires KeyRoundTrips(tc)
    ensures DecodeShanten(tc, EncodeShanten(tc, s)) == Ok(s)
  {
    match s
    case ShantenWithoutGot(w) => TaggedWithoutGotRoundTrip(tc, w);
    case ShantenWithGot(g) => TaggedWithGotRoundTrip(tc, g);
  }

  /** On every input: a result comes only from one of the two tags this module knows, and a
      string tag naming neither (such as "ShantenWithFuroChance") raises ValueError. */
  lemma DecodeShantenDispatch(tc: KeyCodec<Tile>, data: Json)
    ensures DecodeShanten(tc, data).Ok? ==>
      Get(data, "type") == Ok(JStr("ShantenWithoutGot")) || Get(data, "type") == Ok(JStr("ShantenWithGot"))
    ensures DecodeShanten(tc, data).Ok? && DecodeShanten(tc, data).value.ShantenWithoutGot?
      <==> Get(data, "type") == Ok(JStr("ShantenWithoutGot")) && SC.DecodeWithoutGot(tc, data).Ok?
    ensures DecodeShanten(tc, data).Ok? && DecodeShanten(tc, data).value.ShantenWithGot?
      <==> Get(data, "type") == Ok(JStr("ShantenWithGot")) && DecodeWithGot(tc, data).Ok?
    ensures Get(data, "type").Ok? && Get(data, "type").value.JStr?
      && Get(data, "type").value.s !in {"ShantenWithoutGot", "ShantenWithGot"}
      ==> DecodeShanten(tc, data) == Err(ValueError("invalid type: " + Get(data, "type").value.s))
    ensures Get(data, "type").Ok? && !Get(data, "type").value.JStr?
      ==> DecodeShanten(tc, data) == Err(TypeError)
  {
  }

  // ---------------------------------------------------------------- across the two versions

  /** The older ShantenWithGot read from the newer encoding: the discards come back and the
      concealed quads are dropped. */
  lemma NewWithGotReadByOld(tc: KeyCodec<Tile>, g: SC.WithGot)
    requires KeyRoundTrips(tc)
    ensures DecodeWithGot(tc, SC.EncodeWithGot(tc, g)) == Ok(WithGot(g.shanten, g.discardToAdvance))
  {
    SC.WithGotTagAndNumber(tc, g);
    SC.WithGotEncodedDicts(tc, g);
    SC.WithoutGotDictRoundTrip(tc, g.discardToAdvance);
    WithGotDecodeFromFields(tc, SC.EncodeWithGot(tc, g), WithGot(g.shanten, g.discardToAdvance));
  }

  /** The newer ShantenWithGot cannot read the older encoding, which has no `ankanToAdvance`. */
  lemma OldWithGotReadByNew(tc: KeyCodec<Tile>, g: WithGot)
    requires KeyRoundTrips(tc)
    ensures SC.DecodeWithGot(tc, EncodeWithGot(tc, g)) == Err(KeyError("ankanToAdvance"))
  {
    WithGotTagAndNumber(tc, g);
    WithGotEncodedDict(tc, g);
    SC.WithoutGotDictRoundTrip(tc, g.discardToAdvance);
    assert Get(EncodeWithGot(tc, g), "ankanToAdvance") == Err(KeyError("ankanToAdvance"));
  }

  /** The older dispatcher refuses every encoding of a ShantenWithFuroChance. */
  lemma FuroChanceReadByOld(cs: ModelCodecs, f: SC.WithFuroChance)
    ensures DecodeShanten(cs.tile, SC.EncodeWithFuroChance(cs, f)) == Err(ValueError("invalid type: " + "ShantenWithFuroChance"))
  {
    SC.FuroChanceTagAndNumber(cs, f);
    DecodeShantenDispatch(cs.tile, SC.EncodeWithFuroChance(cs, f));
  }
}
