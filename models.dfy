/**
  The tile, tatsu and hand values that shanten results refer to. Their
  definitions and codecs (mahjong_utils/models/tile.py, tatsu.py, hand.py)
  are not part of this model: the types are opaque and their codecs are
  parameters, and the proofs require of them only that they round-trip.
*/
module Models {
  import opened Codecs

  /** A tile; hashable, so it can key a dict. */
  type Tile(==, !new)

  /** A two-tile proto-meld; hashable, so it can key a dict. */
  type Tatsu(==, !new)

  /** A hand: concealed tiles and calls. */
  type Hand(!new)

  /** `Tile.__encode__`/`__decode__`, `Tatsu.__encode__`/`__decode__`, `Hand.__encode__`/`__decode__`. */
  datatype ModelCodecs = ModelCodecs(tile: KeyCodec<Tile>, tatsu: KeyCodec<Tatsu>, hand: ValueCodec<Hand>)

  /** Each of the three codecs gives back what it encoded. */
  ghost predicate Lawful(cs: ModelCodecs)
  {
    KeyRoundTrips(cs.tile) && KeyRoundTrips(cs.tatsu) && ValueRoundTrips(cs.hand)
  }
}
