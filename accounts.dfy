/**
 * The two account records (PlayerData and Plot) and the client-side decoders
 * that turn an account's raw bytes back into a record. Each account starts with
 * an 8-byte little-endian discriminator; a buffer carrying another
 * discriminator is "not this record" (the decoder's null), and a buffer that
 * ends before a field does is a truncated-input failure.
 */
module Accounts {
  import opened Wrappers
  import opened Borsh

  const PLAYER_DATA_DISCRIMINATOR: u64 := 9264901878634267077
  const PLAYER_DATA_DISCRIMINATOR_BYTES: seq<byte> := [197, 65, 216, 202, 43, 139, 147, 128]
  const PLOT_DISCRIMINATOR: u64 := 16631235073802654291
  const PLOT_DISCRIMINATOR_BYTES: seq<byte> := [83, 82, 6, 254, 46, 4, 206, 230]

  datatype PlayerData = PlayerData(
    authority: PubKey,
    name: BorshString,
    level: byte,
    xp: u64,
    energy: u64,
    gold: u64,
    lastLogin: i64)

  datatype Plot = Plot(humanType: BorshString, plantedAt: i64)

  /** What a decoder gives back: no record of this kind, a truncated buffer, or the record. */
  datatype Decoded<T> = NoMatch | Truncated | Record(value: T)

  /** The all-zero record a freshly created result object starts out as. */
  const EMPTY_PLAYER_DATA := PlayerData(seq(32, _ => 0), [], 0, 0, 0, 0, 0)
  const EMPTY_PLOT := Plot([], 0)

  // ---------------------------------------------------------------------------
  // The layouts, at absolute offsets (L is the length of the string field).

  /**
   * PlayerData: discriminator [0,8), authority [8,40), name prefix [40,44),
   * name [44,44+L), level 44+L, xp [45+L,53+L), energy [53+L,61+L),
   * gold [61+L,69+L), lastLogin [69+L,77+L); later bytes are ignored.
   */
  function PlayerDataLayout(data: seq<byte>): Decoded<PlayerData>
  {
    if |data| < 8 then Truncated
    else if U64Value(data[..8]) != PLAYER_DATA_DISCRIMINATOR then NoMatch
    else if |data| < 44 then Truncated
    else
      var n := U32Value(data[40..44]);
      if |data| < 77 + n then Truncated
      else
        Record(PlayerData(
          data[8..40],
          data[44..44 + n],
          data[44 + n],
          U64Value(data[45 + n..53 + n]),
          U64Value(data[53 + n..61 + n]),
          U64Value(data[61 + n..69 + n]),
          ToI64(U64Value(data[69 + n..77 + n]))))
  }

  /** Plot: discriminator [0,8), humanType prefix [8,12), bytes [12,12+L), plantedAt [12+L,20+L). */
  function PlotLayout(data: seq<byte>): Decoded<Plot>
  {
    if |data| < 8 then Truncated
    else if U64Value(data[..8]) != PLOT_DISCRIMINATOR then NoMatch
    else if |data| < 12 then Truncated
    else
      var n := U32Value(data[8..12]);
      if |data| < 20 + n then Truncated
      else Record(Plot(data[12..12 + n], ToI64(U64Value(data[12 + n..20 + n]))))
  }

  // ---------------------------------------------------------------------------
  // The Borsh layout the program stores a record in.

  function SerializePlayerData(p: PlayerData): (data: seq<byte>)
  {
    PLAYER_DATA_DISCRIMINATOR_BYTES + p.authority + BorshStringBytes(p.name) + [p.level]
      + U64Bytes(p.xp) + U64Bytes(p.energy) + U64Bytes(p.gold) + I64Bytes(p.lastLogin)
  }

  function SerializePlot(p: Plot): (data: seq<byte>)
  {
    PLOT_DISCRIMINATOR_BYTES + BorshStringBytes(p.humanType) + I64Bytes(p.plantedAt)
  }

  // ---------------------------------------------------------------------------
  // The decoders: a running offset, one field at a time.

  method DeserializePlayerData(data: seq<byte>) returns (r: Decoded<PlayerData>)
    ensures r == PlayerDataLayout(data)
  {
    var offset := 0;
    var accountHashValue := GetU64(data, offset);
    if accountHashValue.None? { return Truncated; }
    offset := offset + 8;
    if accountHashValue.value != PLAYER_DATA_DISCRIMINATOR {
      return NoMatch;
    }
    var result := EMPTY_PLAYER_DATA;
    var authority := GetPubKey(data, offset);
    if authority.None? { return Truncated; }
    result := result.(authority := authority.value);
    offset := offset + 32;
    var name := GetBorshString(data, offset);
    if name.None? { return Truncated; }
    offset := offset + name.value.1;
    result := result.(name := name.value.0);
    var level := GetU8(data, offset);
    if level.None? { return Truncated; }
    result := result.(level := level.value);
    offset := offset + 1;
    var xp := GetU64(data, offset);
    if xp.None? { return Truncated; }
    result := result.(xp := xp.value);
    offset := offset + 8;
    var energy := GetU64(data, offset);
    if energy.None? { return Truncated; }
    result := result.(energy := energy.value);
    offset := offset + 8;
    var gold := GetU64(data, offset);
    if gold.None? { return Truncated; }
    result := result.(gold := gold.value);
    offset := offset + 8;
    var lastLogin := GetS64(data, offset);
    if lastLogin.None? { return Truncated; }
    result := result.(lastLogin := lastLogin.value);
    offset := offset + 8;
    r := Record(result);
  }

  method DeserializePlot(data: seq<byte>) returns (r: Decoded<Plot>)
    ensures r == PlotLayout(data)
  {
    var offset := 0;
    var accountHashValue := GetU64(data, offset);
    if accountHashValue.None? { return Truncated; }
    offset := offset + 8;
    if accountHashValue.value != PLOT_DISCRIMINATOR {
      return NoMatch;
    }
    var result := EMPTY_PLOT;
    var humanType := GetBorshString(data, offset);
    if humanType.None? { return Truncated; }
    offset := offset + humanType.value.1;
    result := result.(humanType := humanType.value.0);
    var plantedAt := GetS64(data, offset);
    if plantedAt.None? { return Truncated; }
    result := result.(plantedAt := plantedAt.value);
    offset := offset + 8;
    r := Record(result);
  }

  // ---------------------------------------------------------------------------
  // Properties

  /** The byte constants are the little-endian encodings of the numeric discriminators. */
  lemma PlayerDataDiscriminatorBytes()
    ensures U64Bytes(PLAYER_DATA_DISCRIMINATOR) == PLAYER_DATA_DISCRIMINATOR_BYTES
  {
    PlayerDataDiscriminatorValue();
    U64ValueBytes(PLAYER_DATA_DISCRIMINATOR_BYTES);
  }

  lemma PlotDiscriminatorBytes()
    ensures U64Bytes(PLOT_DISCRIMINATOR) == PLOT_DISCRIMINATOR_BYTES
  {
    PlotDiscriminatorValue();
    U64ValueBytes(PLOT_DISCRIMINATOR_BYTES);
  }

  lemma PlayerDataDiscriminatorValue()
    ensures U64Value(PLAYER_DATA_DISCRIMINATOR_BYTES) == PLAYER_DATA_DISCRIMINATOR
  {
  }

  lemma PlotDiscriminatorValue()
    ensures U64Value(PLOT_DISCRIMINATOR_BYTES) == PLOT_DISCRIMINATOR
  {
  }

  /** A decoder gives "no record" exactly when the leading 8 bytes are another discriminator. */
  lemma {:induction false} PlayerDataGate(data: seq<byte>)
    ensures PlayerDataLayout(data) == NoMatch <==> |data| >= 8 && data[..8] != PLAYER_DATA_DISCRIMINATOR_BYTES
  {
    PlayerDataDiscriminatorValue();
    if |data| >= 8 {
      LeValueInjective(data[..8], PLAYER_DATA_DISCRIMINATOR_BYTES);
    }
  }

  lemma {:induction false} PlotGate(data: seq<byte>)
    ensures PlotLayout(data) == NoMatch <==> |data| >= 8 && data[..8] != PLOT_DISCRIMINATOR_BYTES
  {
    PlotDiscriminatorValue();
    if |data| >= 8 {
      LeValueInjective(data[..8], PLOT_DISCRIMINATOR_BYTES);
    }
  }

  /** A stored Plot is never taken for a PlayerData, and vice versa. */
  lemma {:induction false} KindsAreExclusive(data: seq<byte>)
    requires |data| >= 8
    ensures data[..8] == PLOT_DISCRIMINATOR_BYTES ==> PlayerDataLayout(data) == NoMatch
    ensures data[..8] == PLAYER_DATA_DISCRIMINATOR_BYTES ==> PlotLayout(data) == NoMatch
  {
    PlayerDataGate(data);
    PlotGate(data);
  }

  /**
   * With the right discriminator, decoding fails exactly when the buffer ends
   * before the last field; the minimum is 44 bytes before the name is known.
   */
  lemma {:induction false} PlayerDataTruncation(data: seq<byte>)
    requires |data| >= 8 && data[..8] == PLAYER_DATA_DISCRIMINATOR_BYTES
    ensures PlayerDataLayout(data) != NoMatch
    ensures PlayerDataLayout(data) == Truncated <==> |data| < 44 || |data| < 77 + LeValue(data[40..44])
  {
    PlayerDataGate(data);
  }

  lemma {:induction false} PlotTruncation(data: seq<byte>)
    requires |data| >= 8 && data[..8] == PLOT_DISCRIMINATOR_BYTES
    ensures PlotLayout(data) != NoMatch
    ensures PlotLayout(data) == Truncated <==> |data| < 12 || |data| < 20 + LeValue(data[8..12])
  {
    PlotGate(data);
  }

  /** Where each field of a stored PlayerData sits. */
  lemma PlayerDataFieldOffsets(p: PlayerData, trailing: seq<byte>)
    ensures var d, n := SerializePlayerData(p) + trailing, |p.name|;
      |d| >= 77 + n && d[..8] == PLAYER_DATA_DISCRIMINATOR_BYTES && d[8..40] == p.authority
      && d[40..44] == LeBytes(n, 4) && d[44..44 + n] == p.name && d[44 + n] == p.level
      && d[45 + n..53 + n] == U64Bytes(p.xp) && d[53 + n..61 + n] == U64Bytes(p.energy)
      && d[61 + n..69 + n] == U64Bytes(p.gold) && d[69 + n..77 + n] == I64Bytes(p.lastLogin)
  {
    var n := |p.name|;
    var head := PLAYER_DATA_DISCRIMINATOR_BYTES + p.authority + LeBytes(n, 4) + p.name;
    var tail := [p.level] + U64Bytes(p.xp) + U64Bytes(p.energy) + U64Bytes(p.gold) + I64Bytes(p.lastLogin);
    var d := SerializePlayerData(p) + trailing;
    assert d == head + (tail + trailing);
    SplitJoin(head, tail + trailing);
    SplitJoin(tail, trailing);
    PlayerDataHead(head, p);
    PlayerDataTailAt(tail, p);
    SliceOfSlice(d, 44 + n, 0, 33);
  }

  lemma PlayerDataHead(head: seq<byte>, p: PlayerData)
    requires head == PLAYER_DATA_DISCRIMINATOR_BYTES + p.authority + LeBytes(|p.name|, 4) + p.name
    ensures head[..8] == PLAYER_DATA_DISCRIMINATOR_BYTES && head[8..40] == p.authority
    ensures head[40..44] == LeBytes(|p.name|, 4) && head[44..] == p.name
  {
  }

  lemma PlayerDataTailAt(tail: seq<byte>, p: PlayerData)
    requires tail == [p.level] + U64Bytes(p.xp) + U64Bytes(p.energy) + U64Bytes(p.gold) + I64Bytes(p.lastLogin)
    ensures |tail| == 33 && tail[0] == p.level && tail[1..9] == U64Bytes(p.xp) && tail[9..17] == U64Bytes(p.energy)
    ensures tail[17..25] == U64Bytes(p.gold) && tail[25..33] == I64Bytes(p.lastLogin)
  {
  }

  /** Decoding the stored layout of a record, followed by anything, gives the record back. */
  lemma {:induction false} PlayerDataRoundTrip(p: PlayerData, trailing: seq<byte>)
    ensures PlayerDataLayout(SerializePlayerData(p) + trailing) == Record(p)
  {
    var n := |p.name|;
    var d := SerializePlayerData(p) + trailing;
    PlayerDataDiscriminatorValue();
    PlayerDataFieldOffsets(p, trailing);
    U32ValueOfBytes(n);
    U64ValueOfBytes(p.xp);
    U64ValueOfBytes(p.energy);
    U64ValueOfBytes(p.gold);
    ReadS64Written(d, 69 + n, p.lastLogin);
  }

  /** Where each field of a stored Plot sits. */
  lemma PlotFieldOffsets(p: Plot, trailing: seq<byte>)
    ensures var d, n := SerializePlot(p) + trailing, |p.humanType|;
      |d| >= 20 + n && d[..8] == PLOT_DISCRIMINATOR_BYTES && d[8..12] == LeBytes(n, 4)
      && d[12..12 + n] == p.humanType && d[12 + n..20 + n] == I64Bytes(p.plantedAt)
  {
    var n := |p.humanType|;
    var head := PLOT_DISCRIMINATOR_BYTES + LeBytes(n, 4) + p.humanType;
    var d := SerializePlot(p) + trailing;
    assert d == head + (I64Bytes(p.plantedAt) + trailing);
    assert d[..12 + n] == head;
  }

  lemma {:induction false} PlotRoundTrip(p: Plot, trailing: seq<byte>)
    ensures PlotLayout(SerializePlot(p) + trailing) == Record(p)
  {
    var n := |p.humanType|;
    var d := SerializePlot(p) + trailing;
    PlotDiscriminatorValue();
    PlotFieldOffsets(p, trailing);
    U32ValueOfBytes(n);
    ReadS64Written(d, 12 + n, p.plantedAt);
  }

  /** Where a decoded PlayerData's fields were found. */
  lemma PlayerDataDecodedFields(data: seq<byte>)
    requires PlayerDataLayout(data).Record?
    ensures var p := PlayerDataLayout(data).value; var n := |p.name|;
      77 + n <= |data| && data[..8] == PLAYER_DATA_DISCRIMINATOR_BYTES && data[8..40] == p.authority
      && data[40..44] == LeBytes(n, 4) && data[44..44 + n] == p.name && data[44 + n] == p.level
      && data[45 + n..53 + n] == U64Bytes(p.xp) && data[53 + n..61 + n] == U64Bytes(p.energy)
      && data[61 + n..69 + n] == U64Bytes(p.gold) && data[69 + n..77 + n] == I64Bytes(p.lastLogin)
  {
    PlayerDataDiscriminatorValue();
    LeValueInjective(data[..8], PLAYER_DATA_DISCRIMINATOR_BYTES);
    var n := U32Value(data[40..44]);
    U32ValueBytes(data[40..44]);
    U64ValueBytes(data[45 + n..53 + n]);
    U64ValueBytes(data[53 + n..61 + n]);
    U64ValueBytes(data[61 + n..69 + n]);
    I64ValueBytes(data[69 + n..77 + n]);
  }

  lemma PlayerDataFromPieces(p: PlayerData, head: seq<byte>, name: seq<byte>, tail: seq<byte>)
    requires head == PLAYER_DATA_DISCRIMINATOR_BYTES + p.authority + LeBytes(|p.name|, 4) && name == p.name
    requires tail == [p.level] + U64Bytes(p.xp) + U64Bytes(p.energy) + U64Bytes(p.gold) + I64Bytes(p.lastLogin)
    ensures SerializePlayerData(p) == head + name + tail
  {
  }

  /** Conversely, whatever a decoder returns is stored, byte for byte, in the buffer's prefix. */
  lemma {:induction false} PlayerDataDecodedIsStored(data: seq<byte>)
    requires PlayerDataLayout(data).Record?
    ensures var p := PlayerDataLayout(data).value;
      |SerializePlayerData(p)| <= |data| && data[..|SerializePlayerData(p)|] == SerializePlayerData(p)
  {
    PlayerDataDecodedFields(data);
    PlayerDataStoredAt(data, PlayerDataLayout(data).value);
  }

  /** Field by field, the bytes hold p's layout. */
  lemma PlayerDataStoredAt(data: seq<byte>, p: PlayerData)
    requires var n := |p.name|;
      77 + n <= |data| && data[..8] == PLAYER_DATA_DISCRIMINATOR_BYTES && data[8..40] == p.authority
      && data[40..44] == LeBytes(n, 4) && data[44..44 + n] == p.name && data[44 + n] == p.level
      && data[45 + n..53 + n] == U64Bytes(p.xp) && data[53 + n..61 + n] == U64Bytes(p.energy)
      && data[61 + n..69 + n] == U64Bytes(p.gold) && data[69 + n..77 + n] == I64Bytes(p.lastLogin)
    ensures data[..77 + |p.name|] == SerializePlayerData(p)
  {
    var n := |p.name|;
    SlicesJoin(data, 0, 8, 40);
    SlicesJoin(data, 0, 40, 44);
    SlicesJoin(data, 0, 44, 44 + n);
    SlicesJoin(data, 0, 44 + n, 77 + n);
    PlayerDataTail(data[44 + n..77 + n], p);
    PlayerDataFromPieces(p, data[..44], data[44..44 + n], data[44 + n..77 + n]);
  }

  lemma PlayerDataTail(t: seq<byte>, p: PlayerData)
    requires |t| == 33 && t[0] == p.level
    requires t[1..9] == U64Bytes(p.xp) && t[9..17] == U64Bytes(p.energy)
    requires t[17..25] == U64Bytes(p.gold) && t[25..33] == I64Bytes(p.lastLogin)
    ensures t == [p.level] + U64Bytes(p.xp) + U64Bytes(p.energy) + U64Bytes(p.gold) + I64Bytes(p.lastLogin)
  {
    assert t == t[..1] + t[1..9] + t[9..17] + t[17..25] + t[25..33];
  }

  lemma PlotDecodedFields(data: seq<byte>)
    requires PlotLayout(data).Record?
    ensures var p := PlotLayout(data).value; var n := |p.humanType|;
      20 + n <= |data| && data[..8] == PLOT_DISCRIMINATOR_BYTES && data[8..12] == LeBytes(n, 4)
      && data[12..12 + n] == p.humanType && data[12 + n..20 + n] == I64Bytes(p.plantedAt)
  {
    PlotDiscriminatorValue();
    LeValueInjective(data[..8], PLOT_DISCRIMINATOR_BYTES);
    var n := U32Value(data[8..12]);
    U32ValueBytes(data[8..12]);
    I64ValueBytes(data[12 + n..20 + n]);
  }

  lemma PlotFromPieces(p: Plot, a: seq<byte>, b: seq<byte>, c: seq<byte>, e: seq<byte>)
    requires a == PLOT_DISCRIMINATOR_BYTES && b == LeBytes(|p.humanType|, 4)
    requires c == p.humanType && e == I64Bytes(p.plantedAt)
    ensures SerializePlot(p) == a + b + c + e
  {
  }

  lemma {:induction false} PlotDecodedIsStored(data: seq<byte>)
    requires PlotLayout(data).Record?
    ensures var p := PlotLayout(data).value;
      |SerializePlot(p)| <= |data| && data[..|SerializePlot(p)|] == SerializePlot(p)
  {
    PlotDecodedFields(data);
    PlotStoredAt(data, PlotLayout(data).value);
  }

  lemma PlotStoredAt(data: seq<byte>, p: Plot)
    requires var n := |p.humanType|;
      20 + n <= |data| && data[..8] == PLOT_DISCRIMINATOR_BYTES && data[8..12] == LeBytes(n, 4)
      && data[12..12 + n] == p.humanType && data[12 + n..20 + n] == I64Bytes(p.plantedAt)
    ensures data[..20 + |p.humanType|] == SerializePlot(p)
  {
    var n := |p.humanType|;
    SlicesJoin(data, 0, 8, 12);
    SlicesJoin(data, 0, 12, 12 + n);
    SlicesJoin(data, 0, 12 + n, 20 + n);
    PlotFromPieces(p, data[..8], data[8..12], data[12..12 + n], data[12 + n..20 + n]);
  }
}
