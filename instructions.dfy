/**
 * The client-side instruction builders. Each writes its 8-byte little-endian
 * discriminator and its arguments into a 1200-byte scratch array, copies out
 * only the written prefix, and pairs it with a fixed list of account references
 * whose writable and signer flags depend only on the slot. An absent session
 * token is passed as the program's own id, so the list never changes length.
 */
module Instructions {
  import opened Wrappers
  import opened Borsh

  const INIT_PLAYER_DISCRIMINATOR: u64 := 4819994211046333298
  const PLANT_DISCRIMINATOR: u64 := 17770342024824781256
  const HARVEST_DISCRIMINATOR: u64 := 14356254285327495652
  const UPDATE_DISCRIMINATOR: u64 := 9222597562720635099

  /** Capacity of the scratch array every builder writes into. */
  const SCRATCH_SIZE := 1200

  datatype AccountMeta = AccountMeta(key: PubKey, isWritable: bool, isSigner: bool)

  function Writable(key: PubKey, isSigner: bool): AccountMeta
  {
    AccountMeta(key, true, isSigner)
  }

  function ReadOnly(key: PubKey, isSigner: bool): AccountMeta
  {
    AccountMeta(key, false, isSigner)
  }

  datatype InitPlayerAccounts = InitPlayerAccounts(player: PubKey, plot: PubKey, signer: PubKey, systemProgram: PubKey)
  datatype PlantAccounts = PlantAccounts(sessionToken: Option<PubKey>, player: PubKey, plot: PubKey, signer: PubKey)
  datatype HarvestAccounts = HarvestAccounts(sessionToken: Option<PubKey>, player: PubKey, plot: PubKey, signer: PubKey)
  datatype UpdateAccounts = UpdateAccounts(sessionToken: Option<PubKey>, player: PubKey, signer: PubKey)

  datatype TransactionInstruction = TransactionInstruction(keys: seq<AccountMeta>, programId: PubKey, data: seq<byte>)

  /** The one way a builder can fail: the arguments do not fit the scratch array. */
  datatype EncodeError = PayloadTooLarge

  // ---------------------------------------------------------------------------
  // What the program expects: per slot, whether the account is mutable and
  // whether it must sign; an optional account given as the program id is absent.

  datatype SlotRule = SlotRule(writable: bool, signer: bool)

  const INIT_PLAYER_SLOTS := [SlotRule(true, false), SlotRule(true, false), SlotRule(true, true), SlotRule(false, false)]
  const PLANT_SLOTS := [SlotRule(false, false), SlotRule(true, false), SlotRule(true, false), SlotRule(true, true)]
  const HARVEST_SLOTS := PLANT_SLOTS
  const UPDATE_SLOTS := [SlotRule(false, false), SlotRule(true, false), SlotRule(true, true)]

  predicate Conforms(keys: seq<AccountMeta>, slots: seq<SlotRule>)
  {
    |keys| == |slots| &&
    forall i :: 0 <= i < |keys| ==> keys[i].isWritable == slots[i].writable && keys[i].isSigner == slots[i].signer
  }

  /** How the program reads an optional account slot. */
  function OptionalAccount(key: PubKey, programId: PubKey): Option<PubKey>
  {
    if key == programId then None else Some(key)
  }

  /** What the program receives for the session token: the caller's, read back through the slot. */
  function ReceivedToken(token: Option<PubKey>, programId: PubKey): Option<PubKey>
  {
    if token == Some(programId) then None else token
  }

  function SessionTokenKey(token: Option<PubKey>, programId: PubKey): (key: PubKey)
    ensures OptionalAccount(key, programId) == ReceivedToken(token, programId)
  {
    if token.None? then programId else token.value
  }

  // ---------------------------------------------------------------------------
  // Account lists

  function InitPlayerKeys(a: InitPlayerAccounts): (keys: seq<AccountMeta>)
    ensures Conforms(keys, INIT_PLAYER_SLOTS)
    ensures keys[0].key == a.player && keys[1].key == a.plot && keys[2].key == a.signer && keys[3].key == a.systemProgram
  {
    [Writable(a.player, false), Writable(a.plot, false), Writable(a.signer, true), ReadOnly(a.systemProgram, false)]
  }

  function PlantKeys(a: PlantAccounts, programId: PubKey): (keys: seq<AccountMeta>)
    ensures Conforms(keys, PLANT_SLOTS)
    ensures OptionalAccount(keys[0].key, programId) == ReceivedToken(a.sessionToken, programId)
    ensures keys[1].key == a.player && keys[2].key == a.plot && keys[3].key == a.signer
  {
    [ReadOnly(SessionTokenKey(a.sessionToken, programId), false), Writable(a.player, false),
     Writable(a.plot, false), Writable(a.signer, true)]
  }

  function HarvestKeys(a: HarvestAccounts, programId: PubKey): (keys: seq<AccountMeta>)
    ensures Conforms(keys, HARVEST_SLOTS)
    ensures OptionalAccount(keys[0].key, programId) == ReceivedToken(a.sessionToken, programId)
    ensures keys[1].key == a.player && keys[2].key == a.plot && keys[3].key == a.signer
  {
    [ReadOnly(SessionTokenKey(a.sessionToken, programId), false), Writable(a.player, false),
     Writable(a.plot, false), Writable(a.signer, true)]
  }

  function UpdateKeys(a: UpdateAccounts, programId: PubKey): (keys: seq<AccountMeta>)
    ensures Conforms(keys, UPDATE_SLOTS)
    ensures OptionalAccount(keys[0].key, programId) == ReceivedToken(a.sessionToken, programId)
    ensures keys[1].key == a.player && keys[2].key == a.signer
  {
    [ReadOnly(SessionTokenKey(a.sessionToken, programId), false), Writable(a.player, false), Writable(a.signer, true)]
  }

  // ---------------------------------------------------------------------------
  // The program side: which entry point a payload selects, with its argument.

  datatype Call = InitPlayerCall | PlantCall(humanType: BorshString) | HarvestCall | UpdateCall

  function DecodeInstruction(data: seq<byte>): Option<Call>
  {
    match GetU64(data, 0)
    case None => None
    case Some(d) =>
      if d == INIT_PLAYER_DISCRIMINATOR then Some(InitPlayerCall)
      else if d == PLANT_DISCRIMINATOR then
        match GetBorshString(data, 8)
        case None => None
        case Some(arg) => Some(PlantCall(arg.0))
      else if d == HARVEST_DISCRIMINATOR then Some(HarvestCall)
      else if d == UPDATE_DISCRIMINATOR then Some(UpdateCall)
      else None
  }

  // ---------------------------------------------------------------------------
  // Writing into the scratch array

  method WriteBytes(buf: array<byte>, bytes: seq<byte>, offset: nat)
    requires offset + |bytes| <= buf.Length
    modifies buf
    ensures buf[offset..offset + |bytes|] == bytes
    ensures forall i :: 0 <= i < buf.Length && !(offset <= i < offset + |bytes|) ==> buf[i] == old(buf[i])
  {
    forall i | 0 <= i < |bytes| {
      buf[offset + i] := bytes[i];
    }
  }

  method WriteU64(buf: array<byte>, value: u64, offset: nat)
    requires offset + 8 <= buf.Length
    modifies buf
    ensures buf[offset..offset + 8] == U64Bytes(value)
    ensures buf[..offset] == old(buf[..offset])
    ensures buf[offset + 8..] == old(buf[offset + 8..])
  {
    WriteBytes(buf, U64Bytes(value), offset);
  }

  /** Writes the length prefix and the bytes; gives the count written, or None when they do not fit. */
  method WriteBorshString(buf: array<byte>, value: BorshString, offset: nat) returns (written: Option<nat>)
    modifies buf
    ensures written.Some? <==> offset + 4 + |value| <= buf.Length
    ensures written.Some? ==> written.value == 4 + |value|
    ensures written.Some? ==> buf[offset..offset + 4 + |value|] == BorshStringBytes(value)
    ensures written.Some? ==> buf[..offset] == old(buf[..offset])
    ensures written.Some? ==> buf[offset + 4 + |value|..] == old(buf[offset + 4 + |value|..])
    ensures written.None? ==> buf[..] == old(buf[..])
  {
    if offset + 4 + |value| > buf.Length {
      return None;
    }
    WriteBytes(buf, BorshStringBytes(value), offset);
    written := Some(4 + |value|);
  }

  lemma PrefixIs(buf: seq<byte>, a: seq<byte>, b: seq<byte>)
    requires |a| + |b| <= |buf| && buf[..|a|] == a && buf[|a|..|a| + |b|] == b
    ensures buf[..|a| + |b|] == a + b
  {
  }

  /** A fresh array holding the first n bytes of buf. */
  method CopyPrefix(buf: array<byte>, n: nat) returns (result: array<byte>)
    requires n <= buf.Length
    ensures fresh(result) && result[..] == buf[..n]
  {
    result := new byte[n];
    forall i | 0 <= i < n {
      result[i] := buf[i];
    }
  }

  // ---------------------------------------------------------------------------
  // The builders

  method InitPlayer(accounts: InitPlayerAccounts, programId: PubKey) returns (ix: TransactionInstruction)
    ensures ix.keys == InitPlayerKeys(accounts) && ix.programId == programId
    ensures ix.data == U64Bytes(INIT_PLAYER_DISCRIMINATOR)
    ensures DecodeInstruction(ix.data) == Some(InitPlayerCall)
  {
    var keys := InitPlayerKeys(accounts);
    var data := new byte[SCRATCH_SIZE];
    var offset := 0;
    WriteU64(data, INIT_PLAYER_DISCRIMINATOR, offset);
    offset := offset + 8;
    var resultData := CopyPrefix(data, offset);
    ix := TransactionInstruction(keys, programId, resultData[..]);
    ReadU64Written(ix.data, 0, INIT_PLAYER_DISCRIMINATOR);
  }

  method Plant(accounts: PlantAccounts, humanType: BorshString, programId: PubKey)
    returns (r: Result<TransactionInstruction, EncodeError>)
    ensures r.Failure? <==> 12 + |humanType| > SCRATCH_SIZE
    ensures r.Success? ==> r.value.keys == PlantKeys(accounts, programId) && r.value.programId == programId
    ensures r.Success? ==> r.value.data == U64Bytes(PLANT_DISCRIMINATOR) + BorshStringBytes(humanType)
    ensures r.Success? ==> DecodeInstruction(r.value.data) == Some(PlantCall(humanType))
  {
    var keys := PlantKeys(accounts, programId);
    var data := new byte[SCRATCH_SIZE];
    var offset := 0;
    WriteU64(data, PLANT_DISCRIMINATOR, offset);
    offset := offset + 8;
    var written := WriteBorshString(data, humanType, offset);
    if written.None? {
      return Failure(PayloadTooLarge);
    }
    offset := offset + written.value;
    var resultData := CopyPrefix(data, offset);
    var payload := resultData[..];
    PrefixIs(data[..], U64Bytes(PLANT_DISCRIMINATOR), BorshStringBytes(humanType));
    r := Success(TransactionInstruction(keys, programId, payload));
    PlantPayloadDecodes(humanType);
  }

  method Harvest(accounts: HarvestAccounts, programId: PubKey) returns (ix: TransactionInstruction)
    ensures ix.keys == HarvestKeys(accounts, programId) && ix.programId == programId
    ensures ix.data == U64Bytes(HARVEST_DISCRIMINATOR)
    ensures DecodeInstruction(ix.data) == Some(HarvestCall)
  {
    var keys := HarvestKeys(accounts, programId);
    var data := new byte[SCRATCH_SIZE];
    var offset := 0;
    WriteU64(data, HARVEST_DISCRIMINATOR, offset);
    offset := offset + 8;
    var resultData := CopyPrefix(data, offset);
    ix := TransactionInstruction(keys, programId, resultData[..]);
    ReadU64Written(ix.data, 0, HARVEST_DISCRIMINATOR);
  }

  method Update(accounts: UpdateAccounts, programId: PubKey) returns (ix: TransactionInstruction)
    ensures ix.keys == UpdateKeys(accounts, programId) && ix.programId == programId
    ensures ix.data == U64Bytes(UPDATE_DISCRIMINATOR)
    ensures DecodeInstruction(ix.data) == Some(UpdateCall)
  {
    var keys := UpdateKeys(accounts, programId);
    var data := new byte[SCRATCH_SIZE];
    var offset := 0;
    WriteU64(data, UPDATE_DISCRIMINATOR, offset);
    offset := offset + 8;
    var resultData := CopyPrefix(data, offset);
    ix := TransactionInstruction(keys, programId, resultData[..]);
    ReadU64Written(ix.data, 0, UPDATE_DISCRIMINATOR);
  }

  // ---------------------------------------------------------------------------
  // Properties

  /** The four payloads differ in their first 8 bytes, whatever Plant's argument. */
  lemma {:induction false} PayloadPrefixesDistinct()
    ensures var ds := [INIT_PLAYER_DISCRIMINATOR, PLANT_DISCRIMINATOR, HARVEST_DISCRIMINATOR, UPDATE_DISCRIMINATOR];
      forall i, j :: 0 <= i < j < 4 ==> U64Bytes(ds[i]) != U64Bytes(ds[j])
  {
    var ds := [INIT_PLAYER_DISCRIMINATOR, PLANT_DISCRIMINATOR, HARVEST_DISCRIMINATOR, UPDATE_DISCRIMINATOR];
    forall i, j | 0 <= i < j < 4
      ensures U64Bytes(ds[i]) != U64Bytes(ds[j])
    {
      U64ValueOfBytes(ds[i]);
      U64ValueOfBytes(ds[j]);
    }
  }

  /** The program reads Plant's payload back as a Plant call with the same argument. */
  lemma PlantPayloadDecodes(humanType: BorshString)
    ensures DecodeInstruction(U64Bytes(PLANT_DISCRIMINATOR) + BorshStringBytes(humanType)) == Some(PlantCall(humanType))
  {
    var payload := U64Bytes(PLANT_DISCRIMINATOR) + BorshStringBytes(humanType);
    ReadU64Written(payload, 0, PLANT_DISCRIMINATOR);
    ReadStringWritten(payload, 8, humanType);
  }

  /** The Harvest payload, byte for byte. */
  lemma HarvestDiscriminatorBytes()
    ensures U64Bytes(HARVEST_DISCRIMINATOR) == [0xE4, 0xF1, 0x1F, 0xB6, 0x35, 0xA9, 0x3B, 0xC7]
  {
    var bytes: seq<byte> := [0xE4, 0xF1, 0x1F, 0xB6, 0x35, 0xA9, 0x3B, 0xC7];
    assert U64Value(bytes) == HARVEST_DISCRIMINATOR;
    U64ValueBytes(bytes);
  }
}
