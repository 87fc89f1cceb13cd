# Shanten result codec of mahjong-utils (Python side)

mahjong-utils computes shanten numbers (how far a mahjong hand is from ready)
in a native library. The Python package hands that library a request and gets
back a JSON-like dict, which it turns into a tree of pydantic models. This
project models, in Dafny, the Python side of that exchange:

- the result tree: `Shanten` and its variants ShantenWithoutGot,
  ShantenWithGot and ShantenWithFuroChance, and the recursive wrapper `ShantenResult`
  with its `ShantenResultType` tag;
- each class's `__encode__` (value to dict) and `__decode__` (dict to value);
- the polymorphic dispatcher `Shanten.__decode__`;
- the getattr-based accessors of `ShantenResult`;
- the older two-variant codec in `mahjong_utils/models/shanten.py`.

The encoders and decoders are pure functions; the proofs are lemmas about
them. The main results are:

- ShantenWithoutGot and ShantenWithGot values survive encoding followed by decoding;
- as written, a ShantenWithFuroChance survives exactly when it has no open quad
  (`minkan`), and otherwise decoding raises KeyError('advance'); so does every
  `ShantenResult` tree holding such a payload (see "## Findings");
- with the corrected ShantenWithFuroChance decoder, every value survives;
- the dispatcher accepts exactly the tags the encoders write;
- optional fields are written as null exactly when they are None;
- the encoded lists and dicts name each element once.

The dispatcher `Shanten.__decode__` and `ShantenResult.__decode__` take a
`Reading`: `AsWritten` runs the ShantenWithFuroChance decoder the program has,
and `Intended` runs the corrected one. `DecodeShanten(cs, AsWritten, data)`
and `DecodeResult(cs, AsWritten, data)` are the program as it stands.

Files:

- `pyjson.dfy` (module `PyJson`): the JSON-like values and the exceptions the
  decoders raise. It also holds the pieces of Python behaviour the codecs use:
  - `data[key]`;
  - iterating a list, a string or a dict;
  - `dict(pairs)`;
  - pydantic's `int` / `Optional[int]` field check;
  - the unknown but fixed iteration order of a set or dict, as any
    duplicate-free enumeration.
- `codecs.dfy` (module `Codecs`): the tile, tatsu and hand codecs, taken as
  parameters. It also holds the two container shapes built from them:
  - a set written as a list of key strings;
  - a dict keyed by encoded strings.
- `models.dfy` (module `Models`): the opaque Tile, Tatsu and Hand types and the
  record of their three codecs. `Lawful` says each codec round-trips.
- `shanten.dfy` (module `ShantenCodec`): `mahjong_utils/shanten.py`, lines 15–190.
- `models_shanten.dfy` (module `ModelsShantenCodec`): `mahjong_utils/models/shanten.py`,
  plus what each version's decoder does with the other version's encodings.

Decoders model failure with a `Result`. The errors are:

- `KeyError(key)`: a missing dict key, or an unknown enum member name;
- `ValueError(message)`: an unknown `type` tag;
- `ValidationError(field)`: pydantic refusing a field's value;
- `TypeError`: subscripting, iterating or concatenating a value that does not
  support it;
- `AttributeError`: `.items()` on a value that is not a dict.

The decoders follow Python's evaluation order:

1. the keyword arguments of the model constructor are evaluated left to right
   (dict lookups and nested decodes);
2. pydantic then checks the fields in declaration order.

So when one thing is wrong with a dict, the model raises the exception Python
would. When several things are wrong, it follows Python's order as far as the
source fixes it. It can differ in three cases:

- several list or dict entries fail: the model raises the first failure in its
  own unspecified enumeration, which need not be Python's order;
- pydantic reports several invalid fields in one ValidationError: the model
  names only the first;
- pydantic would coerce a value (see `PyJson.IntField` under "## Left out").

The older module's ShantenWithoutGot behaves the same as the newer one:

- it has the same fields;
- `__encode__` writes the same keys;
- `__decode__` reads the same keys in the same order. Its walrus-bound
  conditionals only save a second lookup.

So `ModelsShantenCodec` reuses `ShantenCodec.WithoutGot` and its codec, and
states the older module's properties about it through the older dispatcher.

## Model

| member | source | states |
|---|---|---|
| PyJson.SetToSeq | mahjong_utils/shanten.py:44 | The order in which a set is iterated lists each element exactly once and nothing else. |
| PyJson.DictOfDistinct | mahjong_utils/shanten.py:73 | `dict(pairs)` over pairs with pairwise distinct keys has exactly those pairs as its entries. |
| PyJson.OptionalIntJson | mahjong_utils/shanten.py:45 | An `Optional[int]` attribute is written as null exactly when it is None, and pydantic's `Optional[int]` check reads what is written back as the same value. |
| Codecs.KeyEncodingInjective | mahjong_utils/shanten.py:73 | A key codec that round-trips writes two different keys as two different strings. |
| Codecs.EncodeAll | mahjong_utils/shanten.py:44 | `[t.__encode__() for t in xs]` has one string per element, in the same positions. |
| Codecs.DecodeSetSpec | mahjong_utils/shanten.py:55 | `set(Tile.__decode__(x) for x in items)` succeeds exactly when every element decodes, and is then the set of the decoded elements. Otherwise it raises the error of the first element that fails. |
| Codecs.DecodeEncodedAll | mahjong_utils/shanten.py:55 | Decoding a list of encoded keys gives the set of those keys. |
| Codecs.EncodedSetEnumerates | mahjong_utils/shanten.py:44 | The list a set is written as is as long as the set, names every element, and names none twice. |
| Codecs.SetRoundTrip | mahjong_utils/shanten.py:44 | Decoding the list a set is written as gives the set back. |
| Codecs.IterableRoundTrip | mahjong_utils/shanten.py:55 | Iterating the written JSON list and decoding each element gives the set back. |
| Codecs.EncodeEntries | mahjong_utils/shanten.py:73 | Each `(k.__encode__(), v.__encode__())` pair stands in the position of its entry. |
| Codecs.DecodeEntriesSpec | mahjong_utils/shanten.py:81-83 | Decoding the entries of a dict succeeds exactly when each entry decodes (key first, then value). The decoded pairs stand in the positions of their entries. |
| Codecs.EncodedKeysDistinct | mahjong_utils/shanten.py:73 | Encoding an enumeration of a map's entries never writes two of them under the same string. |
| Codecs.EncodedEntriesCover | mahjong_utils/shanten.py:73 | Encoding an enumeration of a map's entries gives exactly the map's encoded entries. |
| Codecs.EncodedDictEntries | mahjong_utils/shanten.py:73 | The entries of an encoded dict are exactly the encoded entries of the map. No entry is lost to a key collision. |
| Codecs.DecodeEncodedEntry | mahjong_utils/shanten.py:81-83 | Decoding an entry written from a map gives the map entry it was written from. |
| Codecs.DecodedDictOf | mahjong_utils/shanten.py:81-83 | The decoded entries of an encoded dict, collected with `dict(...)`, rebuild the original map. |
| Codecs.DictRoundTrip | mahjong_utils/shanten.py:73-83 | A dict survives encoding and decoding when its key codec and its value codec round-trip. |
| ShantenCodec.EncodeWithoutGot | mahjong_utils/shanten.py:40-49 | Definition of `ShantenWithoutGot.__encode__`: the class name, `shantenNum`, the advance list, `advanceNum`, the good-shape list or null, and `goodShapeAdvanceNum`. What it writes is stated by WithoutGotTagAndNumber, WithoutGotEncodedFields and WithoutGotEncodedNulls. |
| ShantenCodec.DecodeWithoutGot | mahjong_utils/shanten.py:51-62 | Definition of `ShantenWithoutGot.__decode__`: the keyword arguments are looked up and decoded left to right, then pydantic checks the fields in declaration order. Its partner is WithoutGotRoundTrip. |
| ShantenCodec.WithoutGotRoundTrip | mahjong_utils/shanten.py:40-62 | Decoding the encoding of a ShantenWithoutGot gives an equal value: shanten, advance set and all three optional fields, each including None. |
| ShantenCodec.WithoutGotAdvanceList | mahjong_utils/models/shanten.py:36 | `advance` is written as a list naming each tile of the set exactly once, so its length is the set's size. |
| ShantenCodec.WithoutGotEncodedNulls | mahjong_utils/shanten.py:45-48 | `advanceNum`, `goodShapeAdvance` and `goodShapeAdvanceNum` are null exactly when the field is None. |
| ShantenCodec.WithoutGotDecodedFields | mahjong_utils/shanten.py:54-61 | For every dict that decodes: `shanten` is the integer under `shantenNum`, and each optional field is None exactly when the dict holds null there. |
| ShantenCodec.WithoutGotTagAndNumber | mahjong_utils/shanten.py:42-43 | The encoding holds "ShantenWithoutGot" under `type` and `shanten` under `shantenNum`. |
| ShantenCodec.WithoutGotEncodedFields | mahjong_utils/shanten.py:44-48 | The encoding holds the advance list, `advanceNum`, the good-shape list or null, and `goodShapeAdvanceNum`. |
| ShantenCodec.WithoutGotDecodeFromFields | mahjong_utils/shanten.py:51-62 | A dict whose every field reads back as the corresponding field of `w`, each by its own decoder or pydantic check, decodes to `w`. |
| ShantenCodec.WithoutGotDictRoundTrip | mahjong_utils/shanten.py:73-86 | A map from tiles to ShantenWithoutGot survives encoding and decoding. |
| ShantenCodec.EncodeWithGot | mahjong_utils/shanten.py:69-75 | Definition of `ShantenWithGot.__encode__`: the class name, `shantenNum`, and the two maps as dicts keyed by tile strings. Stated by WithGotTagAndNumber, WithGotEncodedDicts and WithGotEncodedEntries. |
| ShantenCodec.DecodeWithGot | mahjong_utils/shanten.py:77-87 | Definition of `ShantenWithGot.__decode__`: `shantenNum`, then each dict's entries (tile key, then ShantenWithoutGot value) collected with `dict(...)`. Its partner is WithGotRoundTrip. |
| ShantenCodec.WithGotRoundTrip | mahjong_utils/shanten.py:69-87 | Decoding the encoding of a ShantenWithGot gives back the number and equal `discard_to_advance` and `ankan_to_advance` maps. |
| ShantenCodec.WithGotEncodedEntries | mahjong_utils/shanten.py:73-74 | Each discard and each concealed quad is written once, under its tile's string, with the encoding of its own result. |
| ShantenCodec.WithGotTagAndNumber | mahjong_utils/shanten.py:71-72 | The encoding holds "ShantenWithGot" under `type` and `shanten` under `shantenNum`. |
| ShantenCodec.WithGotEncodedDicts | mahjong_utils/shanten.py:73-74 | The encoding holds the encodings of both maps under `discardToAdvance` and `ankanToAdvance`. |
| ShantenCodec.WithGotDecodeFromFields | mahjong_utils/shanten.py:77-87 | A dict whose `shantenNum` and two maps read back as those of `g` decodes to `g`. |
| ShantenCodec.WithGotDecodedFields | mahjong_utils/shanten.py:77-87 | For every dict that decodes: the number is the integer under `shantenNum`, and each map is what its dict reads as. |
| ShantenCodec.EncodeWithFuroChance | mahjong_utils/shanten.py:96-107 | Definition of `ShantenWithFuroChance.__encode__`: `pass` and `pon` as their encodings or null, `chi` as a dict keyed by tatsu strings, and `minkan` through ShantenWithGot's encoder or null. Stated by FuroChanceEncodedFields and FuroChanceEncodedNulls. |
| ShantenCodec.DecodeWithFuroChanceAsWritten | mahjong_utils/shanten.py:109-120 | Definition of `ShantenWithFuroChance.__decode__` as the program has it: `minkan` is read with ShantenWithoutGot's decoder. Its partner is FuroChanceAsWrittenRoundTrip. |
| ShantenCodec.DecodeWithFuroChance | mahjong_utils/shanten.py:109-120 | The corrected decoder: line 118 with ShantenWithGot's decoder, the type the field is declared with at line 94. Its partner is FuroChanceRoundTrip. |
| ShantenCodec.ChiDictRoundTrip | mahjong_utils/shanten.py:102 | The `chi` map from tatsu to ShantenWithGot survives encoding and decoding, keys and values alike. |
| ShantenCodec.OptionalWithoutGotRoundTrip | mahjong_utils/shanten.py:100-101 | An optional ShantenWithoutGot, None included, survives `x.__encode__() if x is not None else None` and its decoder. |
| ShantenCodec.OptionalWithGotRoundTrip | mahjong_utils/shanten.py:103-104 | The same for an optional ShantenWithGot. |
| ShantenCodec.OptionalWithoutGotNull | mahjong_utils/shanten.py:113-114 | A decoded optional ShantenWithoutGot is None exactly when it was read from null. |
| ShantenCodec.OptionalWithGotNull | mahjong_utils/shanten.py:116-117 | A decoded optional ShantenWithGot is None exactly when it was read from null. |
| ShantenCodec.FuroChanceEncodedFields | mahjong_utils/shanten.py:96-107 | What the ShantenWithFuroChance encoder writes under `shantenNum`, `pass`, `chi`, `pon` and `minkan`. |
| ShantenCodec.FuroChancePrefixRoundTrip | mahjong_utils/shanten.py:112-117 | In an encoding, `shantenNum`, `pass`, `chi` and `pon` read back as the value's fields, and `minkan` is present. |
| ShantenCodec.FuroChanceDecodeFromPrefix | mahjong_utils/shanten.py:110-120 | For any dict whose fields before `minkan` read as those of `f`: the corrected decoder yields `f` whenever `minkan` reads back as `f.minkan`. |
| ShantenCodec.FuroChanceAsWrittenFromPrefix | mahjong_utils/shanten.py:118-119 | For any such dict, the decoder as written propagates the error of reading `minkan` as a ShantenWithoutGot. If that read succeeds with a value, the decoder refuses it; if it gives None, the result is `f` without an open quad. |
| ShantenCodec.FuroChanceRoundTrip | mahjong_utils/shanten.py:96-120 | With `minkan` read by ShantenWithGot's decoder (the corrected decoder), every ShantenWithFuroChance survives encoding and decoding. |
| ShantenCodec.WithGotReadAsWithoutGot | mahjong_utils/shanten.py:118 | Reading a ShantenWithGot encoding with ShantenWithoutGot's decoder raises KeyError('advance'). |
| ShantenCodec.FuroChanceAsWrittenRoundTrip | mahjong_utils/shanten.py:105-118 | The decoder as written gives back exactly the values whose `minkan` is None. With an open quad it raises KeyError('advance'). |
| ShantenCodec.FuroChanceAsWrittenRejectsMinkan | mahjong_utils/shanten.py:118-119 | On every dict, the decoder as written fails whenever `minkan` is present and not null. |
| ShantenCodec.FuroChanceAsWrittenAgreesWithoutMinkan | mahjong_utils/shanten.py:118-119 | On every dict whose `minkan` is null, the decoder as written agrees with the corrected one. |
| ShantenCodec.FuroChanceEncodedNulls | mahjong_utils/shanten.py:100-106 | `pass`, `pon` and `minkan` are written as null exactly when they are None. |
| ShantenCodec.FuroChanceDecodedFields | mahjong_utils/shanten.py:112-119 | For every dict the corrected decoder accepts: `shanten` is the integer under `shantenNum`, and `pass`, `pon` and `minkan` are None exactly when the dict holds null there. |
| ShantenCodec.FuroChanceAsWrittenDecodedFields | mahjong_utils/shanten.py:110-120 | For every dict the decoder as written accepts: `minkan` was null and the result has none, `shanten` is the integer under `shantenNum`, and `pass` and `pon` are None exactly when the dict holds null there. |
| ShantenCodec.FuroChanceDecodedShape | mahjong_utils/shanten.py:110-120 | A ShantenWithFuroChance decoded by the corrected decoder is what each of its fields reads as, by that field's own decoder. |
| ShantenCodec.FuroChancePrefixFields | mahjong_utils/shanten.py:112-117 | For every dict whose fields before `minkan` decode: `shantenNum` is taken as written, and `pass` and `pon` are None exactly when the dict holds null there. |
| ShantenCodec.FuroChanceTagAndNumber | mahjong_utils/shanten.py:98-99 | The encoding holds "ShantenWithFuroChance" under `type` and `shanten` under `shantenNum`. |
| ShantenCodec.EncodeShanten | mahjong_utils/shanten.py:19 | Definition of the polymorphic `__encode__`: each variant's own encoder. The hierarchy is closed, so the abstract method is never reached. |
| ShantenCodec.DecodeFuroChance | mahjong_utils/shanten.py:109-120 | Selects `ShantenWithFuroChance.__decode__` for a Reading: the decoder as written for AsWritten, the corrected decoder for Intended. |
| ShantenCodec.DecodeShanten | mahjong_utils/shanten.py:22-31 | Definition of `Shanten.__decode__`: the three tags in turn, each with its class's decoder (the FuroChance one chosen by the Reading), ValueError("invalid type: " + tag) for another string, TypeError for a tag that is not a string. Stated by DecodedAsWithoutGot, DecodedAsWithGot, DecodedAsFuroChance, DecodeShantenRejects and ShantenRoundTrip. |
| ShantenCodec.EncodedTagAndNumber | mahjong_utils/shanten.py:22-31 | Every variant's encoder writes its own class name, the tag its decoder is dispatched on, and writes `shanten` as `shantenNum`. |
| ShantenCodec.TaggedWithoutGotRoundTrip | mahjong_utils/shanten.py:24-25 | `Shanten.__decode__` on a ShantenWithoutGot encoding gives the value back, under either Reading. |
| ShantenCodec.TaggedWithGotRoundTrip | mahjong_utils/shanten.py:26-27 | `Shanten.__decode__` on a ShantenWithGot encoding gives the value back, under either Reading. |
| ShantenCodec.TaggedFuroChanceRoundTrip | mahjong_utils/shanten.py:28-29 | As written, `Shanten.__decode__` on a ShantenWithFuroChance encoding gives the value back exactly when its `minkan` is None, and otherwise raises KeyError('advance'). With the corrected decoder it always gives the value back. |
| ShantenCodec.ShantenRoundTrip | mahjong_utils/shanten.py:15-120 | As written, every `Shanten` except a ShantenWithFuroChance with an open quad survives `__encode__` followed by `Shanten.__decode__`; that one raises KeyError('advance'). With the corrected decoder every `Shanten` survives. |
| ShantenCodec.DecodeShantenDispatch | mahjong_utils/shanten.py:22-31 | On every dict, a decoded result is of the variant whose class name is under `type`, and its number is the integer under `shantenNum`. |
| ShantenCodec.DecodedAsWithoutGot | mahjong_utils/shanten.py:24-25 | Under the tag "ShantenWithoutGot", on every dict: the dispatcher succeeds exactly when ShantenWithoutGot's decoder does, then gives its value with the number under `shantenNum`, and otherwise raises that decoder's error. |
| ShantenCodec.DecodedAsWithGot | mahjong_utils/shanten.py:26-27 | Under the tag "ShantenWithGot", on every dict: the dispatcher succeeds exactly when ShantenWithGot's decoder does, then gives its value with the number under `shantenNum`, and otherwise raises that decoder's error. |
| ShantenCodec.DecodedAsFuroChance | mahjong_utils/shanten.py:28-29 | Under the tag "ShantenWithFuroChance", on every dict: the dispatcher succeeds exactly when the ShantenWithFuroChance decoder of the Reading does, then gives its value with the number under `shantenNum`, and otherwise raises that decoder's error. As written, a success never has an open quad. |
| ShantenCodec.DecodeShantenRejects | mahjong_utils/shanten.py:30-31 | A string tag naming no variant raises ValueError("invalid type: " + tag). A tag that is not a string raises TypeError. |
| ShantenCodec.MemberNamed | mahjong_utils/shanten.py:123-128 | `ShantenResultType[name]` succeeds exactly for the five member names, with the member of that name, and raises KeyError(name) for any other string. |
| ShantenCodec.PascalCase | mahjong_utils/shanten.py:141 | Definition of `stringcase.pascalcase` on the five member names, the only strings line 141 passes it: "Regular", "Chitoi", "Kokushi", "Union", "FuroChance". Stated by NamePascalCase. |
| ShantenCodec.Lower | mahjong_utils/shanten.py:152 | Lowering a character leaves no capital, keeps separators and non-capitals as they are. |
| ShantenCodec.SnakeCase | mahjong_utils/shanten.py:152 | Definition of `stringcase.snakecase`: hyphens, dots and white space become `_`, the first character is lowered, and every later capital becomes `_` and its lower case. Stated by SnakeCaseClean, SnakeCaseFixes and SnakeCaseIdempotent. |
| ShantenCodec.DecodeResultType | mahjong_utils/shanten.py:152 | Definition of `ShantenResultType[snakecase(data["type"])]`. Stated by DecodeResultTypeSpec and ResultTypeTagRoundTrip. |
| ShantenCodec.SplitCapitalsAppend | mahjong_utils/shanten.py:152 | Rewriting capitals works piecewise: on a concatenation it is the concatenation of the rewritten parts. |
| ShantenCodec.SplitCapitalsClean | mahjong_utils/shanten.py:152 | Rewriting the capitals of a string without separators leaves no capital and no separator. |
| ShantenCodec.SplitCapitalsPlain | mahjong_utils/shanten.py:152 | Rewriting capitals leaves a string without capitals unchanged. |
| ShantenCodec.SnakeCaseClean | mahjong_utils/shanten.py:152 | What `snakecase` returns never has a capital or a separator. |
| ShantenCodec.SnakeCaseFixes | mahjong_utils/shanten.py:152 | `snakecase` leaves a string unchanged exactly when it has no capital and no separator. |
| ShantenCodec.SnakeCaseIdempotent | mahjong_utils/shanten.py:152 | Applying `snakecase` twice is the same as applying it once. |
| ShantenCodec.SnakeCaseOfCapitalized | mahjong_utils/shanten.py:152 | A capital followed by a clean word is read with the capital lowered. |
| ShantenCodec.SnakeCaseOfTwoWords | mahjong_utils/shanten.py:152 | Two capitalized clean words are read as both lowered, joined by `_`. |
| ShantenCodec.SnakeCaseOfCamel | mahjong_utils/shanten.py:152 | A clean word, a capital and a clean word are read with `_` and the lowered capital in the middle. |
| ShantenCodec.SnakeCaseOfSeparated | mahjong_utils/shanten.py:152 | Two clean words around a hyphen, a dot or white space are read joined by `_`. |
| ShantenCodec.ValueSnakeCase | mahjong_utils/shanten.py:124-128 | `snakecase` of each member's value is the member's name. |
| ShantenCodec.NameClean | mahjong_utils/shanten.py:124-128 | No member name has a capital or a separator. |
| ShantenCodec.NamePascalCase | mahjong_utils/shanten.py:141 | `pascalcase` of each member's name is the member's value. |
| ShantenCodec.MemberNamedName | mahjong_utils/shanten.py:123-128 | Each member is found under its own name. |
| ShantenCodec.ResultTypeTagRoundTrip | mahjong_utils/shanten.py:141-152 | `pascalcase(member.name)` is the member's value ("Regular", …, "FuroChance"); it reads back as the same member through `snakecase`, and so does the member's name. |
| ShantenCodec.CamelSpelling | mahjong_utils/shanten.py:152 | The camel-case tag "furoChance" is read as FuroChance. |
| ShantenCodec.SeparatedSpelling | mahjong_utils/shanten.py:152 | "furo" and "chance" joined by a hyphen, a dot or a white-space character are read as FuroChance. |
| ShantenCodec.CapitalizedSpelling | mahjong_utils/shanten.py:152 | "Furo_chance" is read as FuroChance. |
| ShantenCodec.DecodeResultTypeSpec | mahjong_utils/shanten.py:152 | A string tag is read as the member whose name its `snakecase` is, and exactly then; any other string raises KeyError carrying its `snakecase`. |
| ShantenCodec.EncodeResult | mahjong_utils/shanten.py:139-147 | Definition of `ShantenResult.__encode__`: the pascal-cased type, the hand, the payload, and each component's encoding or null. Stated by ResultEncodedFields, ResultEncodedInfo, ResultEncodedComponents and ResultEncodedNulls. |
| ShantenCodec.DecodeResult | mahjong_utils/shanten.py:149-158 | Definition of `ShantenResult.__decode__`: the keyword arguments left to right, the components recursively. Its partner is ResultRoundTrip. |
| ShantenCodec.DecodeComponent | mahjong_utils/shanten.py:155-157 | Definition of `ShantenResult.__decode__(x) if x is not None else None`. |
| ShantenCodec.ResultEncodedFields | mahjong_utils/shanten.py:141-142 | The encoding holds the pascal-cased member name under `type` and the hand's encoding under `hand`. |
| ShantenCodec.ResultEncodedInfo | mahjong_utils/shanten.py:143 | The encoding holds the payload's own encoding under `shantenInfo`. |
| ShantenCodec.ResultEncodedComponents | mahjong_utils/shanten.py:144-146 | The encoding holds each component result's encoding, or null when it is absent. |
| ShantenCodec.DecodeResultFromFields | mahjong_utils/shanten.py:150-158 | On a dict whose type and hand read as those of `r`, and whose payload and components each read as `r`'s or fail with the same error `e`: `ShantenResult.__decode__` yields `r` when all of them read back, and raises `e` otherwise. |
| ShantenCodec.ComponentRoundTrip | mahjong_utils/shanten.py:144-157 | An optional component, written as its encoding or null, reads back as itself when it is absent or its tree decodes, and raises KeyError('advance') otherwise. |
| ShantenCodec.ResultHeadRoundTrip | mahjong_utils/shanten.py:141-153 | The `type` and `hand` of an encoding read back as the result type and the hand. |
| ShantenCodec.ResultRoundTrip | mahjong_utils/shanten.py:139-158 | As written, a ShantenResult survives encoding and decoding exactly when no payload in its tree is a ShantenWithFuroChance with an open quad, components recursively and None staying None; otherwise decoding raises KeyError('advance'). With the corrected decoder the condition always holds. |
| ShantenCodec.IntendedDecodable | mahjong_utils/shanten.py:139-158 | With the corrected decoder, every tree meets the round-trip condition. |
| ShantenCodec.IntendedResultRoundTrip | mahjong_utils/shanten.py:139-158 | With the corrected decoder, every ShantenResult survives encoding and decoding. |
| ShantenCodec.ResultEncodedNulls | mahjong_utils/shanten.py:144-146 | `regular`, `chitoi` and `kokushi` are written as null exactly when they are absent. |
| ShantenCodec.ShantenOf | mahjong_utils/shanten.py:160-162 | `shanten` is never None: it is the payload's own `shanten` field, for each of the three variants. |
| ShantenCodec.AdvanceOf | mahjong_utils/shanten.py:164-166 | `advance` is present exactly for a ShantenWithoutGot payload, and is then its advance set. |
| ShantenCodec.AdvanceNumOf | mahjong_utils/shanten.py:168-170 | `advance_num` is the payload's field for a ShantenWithoutGot, and None for the variants without it. |
| ShantenCodec.GoodShapeAdvanceOf | mahjong_utils/shanten.py:172-174 | `good_shape_advance` is the payload's field for a ShantenWithoutGot, and None otherwise. |
| ShantenCodec.GoodShapeAdvanceNumOf | mahjong_utils/shanten.py:176-178 | `good_shape_advance_num` is the payload's field for a ShantenWithoutGot, and None otherwise. |
| ShantenCodec.DiscardToAdvanceOf | mahjong_utils/shanten.py:180-182 | `discard_to_advance` is present exactly for a ShantenWithGot payload, and is then its discard map. |
| ShantenCodec.AnkanToAdvanceOf | mahjong_utils/shanten.py:184-186 | `ankan_to_advance` is present exactly for a ShantenWithGot payload, and is then its quad map. |
| ShantenCodec.WithGotOf | mahjong_utils/shanten.py:188-190 | `with_got` holds exactly when the payload is a ShantenWithGot. |
| ModelsShantenCodec.EncodeWithGot | mahjong_utils/models/shanten.py:60-65 | Definition of the older `ShantenWithGot.__encode__`: the class name, `shantenNum` and the discard dict. Stated by ModelsShantenCodec.WithGotEncodedFields. |
| ModelsShantenCodec.DecodeWithGot | mahjong_utils/models/shanten.py:67-74 | Definition of the older `ShantenWithGot.__decode__`: `shantenNum`, then the discard dict's entries. Its partner is ModelsShantenCodec.WithGotRoundTrip. |
| ModelsShantenCodec.EncodeShanten | mahjong_utils/models/shanten.py:13 | Definition of the older polymorphic `__encode__`. |
| ModelsShantenCodec.DecodeShanten | mahjong_utils/models/shanten.py:16-23 | Definition of the older `Shanten.__decode__`: only the two tags it knows. Stated by ModelsShantenCodec.DecodeShantenDispatch and ModelsShantenCodec.ShantenRoundTrip. |
| ModelsShantenCodec.WithGotRoundTrip | mahjong_utils/models/shanten.py:60-74 | Decoding the encoding of an older ShantenWithGot gives back the number and an equal `discard_to_advance` map. |
| ModelsShantenCodec.WithGotEncodedDict | mahjong_utils/models/shanten.py:64 | The encoding holds the discard map's encoding under `discardToAdvance`. |
| ModelsShantenCodec.WithGotDecodeFromFields | mahjong_utils/models/shanten.py:67-74 | A dict whose `shantenNum` and discard dict read back as those of `g` decodes to `g`, whatever other keys it has. |
| ModelsShantenCodec.WithGotEncodedFields | mahjong_utils/models/shanten.py:60-65 | The encoding holds the class name, the number, and each discard once under its tile's string with its result's encoding. |
| ModelsShantenCodec.WithGotTagAndNumber | mahjong_utils/models/shanten.py:62-63 | The encoding holds "ShantenWithGot" under `type` and `shanten` under `shantenNum`. |
| ModelsShantenCodec.EncodedTagAndNumber | mahjong_utils/models/shanten.py:32-65 | Both variants' encoders write their own class name as `type` and `shanten` as `shantenNum`. |
| ModelsShantenCodec.TaggedWithoutGotRoundTrip | mahjong_utils/models/shanten.py:32-54 | Decoding the encoding of an older ShantenWithoutGot, through the dispatcher, gives an equal value, None optional fields included. |
| ModelsShantenCodec.WithoutGotEncodedNulls | mahjong_utils/models/shanten.py:37-40 | The older encoder writes `advanceNum`, `goodShapeAdvance` and `goodShapeAdvanceNum` as null exactly when the field is None. |
| ModelsShantenCodec.DecodedWithoutGotFields | mahjong_utils/models/shanten.py:44-53 | For every dict the older dispatcher reads as a ShantenWithoutGot: the number is the integer under `shantenNum`, and a null optional field decodes to None and only a null does. |
| ModelsShantenCodec.TaggedWithGotRoundTrip | mahjong_utils/models/shanten.py:20-21 | The older dispatcher on a ShantenWithGot encoding gives the value back. |
| ModelsShantenCodec.ShantenRoundTrip | mahjong_utils/models/shanten.py:9-74 | Every older `Shanten` survives its `__encode__` followed by `Shanten.__decode__`. |
| ModelsShantenCodec.DecodeShantenDispatch | mahjong_utils/models/shanten.py:16-23 | On every dict the older dispatcher yields a result only for "ShantenWithoutGot" or "ShantenWithGot". Each variant comes exactly from its own tag and its own decoder. Any other string tag raises ValueError("invalid type: " + tag); a tag that is not a string raises TypeError. |
| ModelsShantenCodec.NewWithGotReadByOld | mahjong_utils/models/shanten.py:67-74 | The older decoder reads a newer ShantenWithGot encoding, keeping the discards and dropping the concealed quads. |
| ModelsShantenCodec.OldWithGotReadByNew | mahjong_utils/shanten.py:77-87 | The newer decoder cannot read an older ShantenWithGot encoding: it raises KeyError('ankanToAdvance'). |
| ModelsShantenCodec.FuroChanceReadByOld | mahjong_utils/models/shanten.py:22-23 | The older dispatcher refuses every ShantenWithFuroChance encoding with ValueError("invalid type: ShantenWithFuroChance"). |

## Left out

- `regular_shanten`, `chitoi_shanten`, `kokushi_shanten`, `shanten` and
  `furo_chance_shanten` (mahjong_utils/shanten.py:193-318) are not modelled. They build a request dict and
  call the foreign library `libmahjongutils`, whose shanten algorithm is not
  part of this model. No shanten number, advance set or good-shape rule is
  defined here.
- setup.py is build tooling (running gradle, copying the shared library) and is
  not modelled.
- The codecs of Tile, Tatsu and Hand (mahjong_utils/models/tile.py, tatsu.py,
  hand.py) are not part of this model. They are parameters, and the proofs
  require of them only that each decodes what it encodes (`Models.Lawful`).
- Python's set and dict iteration order is not modelled. Encoded lists and
  dicts are enumerated in some fixed, duplicate-free but unspecified order, so
  lists are specified up to order.
- A Python dict also remembers insertion order, which the model's `map` does
  not. Two things in the decoders depend on the order entries are read in:
  - when two keys of a decoded dict decode to the same tile, `dict(...)` at
    mahjong_utils/shanten.py:81-86 keeps the later pair (`PyJson.DictOf` does
    too);
  - when several entries fail to decode, the first one read raises.

  In the model, "later" and "first" refer to the unspecified enumeration
  `PyJson.Items`, not to Python's insertion order.
- JSON floats are not modelled.
- PyJson.IntField: accepts only JSON integers. pydantic's coercion of
  booleans, integral floats and numeric strings into an `int` field is not
  modelled; such inputs are refused with ValidationError.
- ShantenCodec.DecodeResultType: a `type` value that is not a string is
  reported as TypeError. `snakecase` would apply `str()` to it, and the lookup
  would raise KeyError with that text snake-cased. That text is a Python repr,
  which the model does not reproduce.
- ShantenCodec.SnakeCase: the source of `stringcase` is not part of this
  model. The definition follows `stringcase.snakecase` of stringcase 1.2.0, the
  version setup.py:128 asks for. It covers ASCII only. Python's `\s` also
  matches white space outside ASCII, and `str.lower` on the first character
  also lowers letters outside ASCII; the model leaves such characters
  unchanged.
- ShantenCodec.PascalCase: `stringcase.pascalcase` is modelled as a table on
  the five member names, the only strings mahjong_utils/shanten.py:141 passes
  it. Other strings are returned unchanged.
- pydantic gathers every invalid field of a model into one ValidationError. The
  model reports only the first, in declaration order.
- pydantic's other validation (extra keys, type coercion of nested models) is
  not modelled. The decoders ignore extra keys, as pydantic does by default.
- The abstract `__encode__` of `Shanten` raising NotImplementedError is not
  modelled, because the hierarchy is closed.

## Findings

| source | as written | input that shows it | evidently intended | confidence | as-written member | corrected member |
|---|---|---|---|---|---|---|
| mahjong_utils/shanten.py:118 | `minkan` is decoded with `ShantenWithoutGot.__decode__`, while line 105 encodes it with ShantenWithGot's `__encode__` and the field is typed `Optional[ShantenWithGot]`. | Any ShantenWithFuroChance whose `minkan` is present, e.g. `minkan = ShantenWithGot(shanten=0, discard_to_advance={}, ankan_to_advance={})`. Its encoding has no `advance` key, so decoding raises KeyError('advance'). | Decode `minkan` with `ShantenWithGot.__decode__`, so that every value reads back. | not executed | ShantenCodec.DecodeWithFuroChanceAsWritten (shown by ShantenCodec.FuroChanceAsWrittenRoundTrip and, through the dispatcher, ShantenCodec.ShantenRoundTrip and ShantenCodec.ResultRoundTrip) | ShantenCodec.DecodeWithFuroChance (proved by ShantenCodec.FuroChanceRoundTrip; `ShantenCodec.DecodeShanten` and `ShantenCodec.DecodeResult` use it under the Reading `Intended`, where ShantenCodec.IntendedResultRoundTrip holds. Under `AsWritten` they use the as-written member, as the program does) |
