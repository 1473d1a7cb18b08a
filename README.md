# Lumberjack: a verified model of the farming game's program and client codec

Lumberjack is a small Solana game. A player account (`PlayerData`) holds an
authority key, a name, a level, experience, energy, gold and a last-login
time. A plot account (`Plot`) holds the type of human planted on it and the
time it was planted. The on-chain program (Rust, Anchor) has four
instructions:

- `init_player` gives a new player 10 energy, 5 gold, the signer as authority and the clock as last login;
- `plant` takes gold to plant a human on an empty plot;
- `harvest` pays out twice the planting price once 20 seconds have passed, and empties the plot;
- `update` does nothing.

The Unity client (C#) has three parts this model covers:

- it decodes the two account kinds from their Borsh bytes, gated on an 8-byte discriminator;
- it builds the four instructions: an 8-byte discriminator, Plant's string argument, and a fixed list of account references;
- it maps the program's error numbers 6000–6004 back to error kinds and messages.

The project is organised as follows:

- `wrappers.dfy` holds Option and Result.
- `borsh.dfy` covers the Borsh primitives: little-endian integers, two's-complement `i64`, length-prefixed strings, and the bounds-checked readers the decoders use.
- `accounts.dfy` has the account records, their stored layout, and the client's decoders. Each decoder is written the way the client writes it, as a running offset with one read per field. Each is proved equal to a layout function, and the round trip and the gating are proved about that function.
- `errors.dfy` has the program's error enumeration and the client's error table.
- `instructions.dfy` has the client's instruction builders. They write into a 1200-byte scratch `array` and copy out the written prefix. Each has an exact account list, and the program side reads each payload back as the call it was built for.
- `game.dfy` has the program's instructions:
  - `PlayerAccount` and `PlotAccount` are classes whose fields the instructions update in place;
  - each instruction method is proved equal to a pure step function on records;
  - the game rules are proved as lemmas about those step functions.

Two points about the source are worth knowing:

- **Harvest's discriminator bytes.** Harvest's discriminator 14356254285327495652, the constant in the C# builder, is stored little-endian as `E4 F1 1F B6 35 A9 3B C7` (`Instructions.HarvestDiscriminatorBytes`).
- **`NothingWasPlanted` cannot be returned.** In `harvest`, the reward table is matched before the empty-plot check. An empty plot therefore fails through the table's default arm with `NotEnoughGold`, so `NothingWasPlanted` is never returned (`Game.HarvestStep`, `Game.HarvestEmptyPlot`).

## Model

| member | source | states |
|---|---|---|
| Borsh.LeValueOfLeBytes | unity/Villefarm/Assets/Scripts/Lumberjack.cs:46 | reading back the n little-endian bytes written for any x below 256^n gives x |
| Borsh.LeBytesOfLeValue | unity/Villefarm/Assets/Scripts/Lumberjack.cs:46 | every n-byte sequence is the little-endian encoding of the number it reads as |
| Borsh.LeValueInjective | unity/Villefarm/Assets/Scripts/Lumberjack.cs:48 | two byte strings of one length read as the same number exactly when they are equal, so comparing the decoded discriminator is comparing its 8 bytes |
| Borsh.U32ValueBytes | unity/Villefarm/Assets/Scripts/Lumberjack.cs:56 | a 4-byte string prefix is the encoding of the length it reads as |
| Borsh.U64ValueBytes | unity/Villefarm/Assets/Scripts/Lumberjack.cs:60-65 | 8 bytes read as a u64 re-encode to the same 8 bytes |
| Borsh.I64ValueBytes | unity/Villefarm/Assets/Scripts/Lumberjack.cs:66 | 8 bytes read as a two's-complement i64 re-encode to the same 8 bytes |
| Borsh.GetU8 | unity/Villefarm/Assets/Scripts/Lumberjack.cs:58 | succeeds exactly when the offset is inside the buffer, and yields the byte there |
| Borsh.GetU32 | unity/Villefarm/Assets/Scripts/Lumberjack.cs:56 | succeeds exactly when 4 bytes remain at the offset, and yields the little-endian value of those 4 bytes |
| Borsh.GetU64 | unity/Villefarm/Assets/Scripts/Lumberjack.cs:46 | succeeds exactly when 8 bytes remain at the offset; a shorter buffer is a failure, not a value |
| Borsh.GetS64 | unity/Villefarm/Assets/Scripts/Lumberjack.cs:66 | succeeds exactly when 8 bytes remain at the offset |
| Borsh.GetPubKey | unity/Villefarm/Assets/Scripts/Lumberjack.cs:54 | succeeds exactly when 32 bytes remain, and yields those 32 bytes |
| Borsh.GetBorshString | unity/Villefarm/Assets/Scripts/Lumberjack.cs:56 | succeeds exactly when the 4-byte prefix and the length it announces both fit; yields the bytes after the prefix and consumes 4 plus their count |
| Borsh.U64ValueOfBytes | unity/Villefarm/Assets/Scripts/Lumberjack.cs:265 | a u64 written little-endian reads back as itself |
| Borsh.U32ValueOfBytes | unity/Villefarm/Assets/Scripts/Lumberjack.cs:280 | a u32 length prefix written little-endian reads back as itself |
| Borsh.U64ValueIs | unity/Villefarm/Assets/Scripts/Lumberjack.cs:48 | 8 bytes read as x exactly when they are x's encoding |
| Borsh.ReadU64Written | unity/Villefarm/Assets/Scripts/Lumberjack.cs:60 | where a u64's encoding sits in a buffer, the reader at that offset returns it |
| Borsh.ReadS64Written | unity/Villefarm/Assets/Scripts/Lumberjack.cs:94 | where an i64's encoding sits in a buffer, the reader at that offset returns it |
| Borsh.ReadStringWritten | unity/Villefarm/Assets/Scripts/Lumberjack.cs:280 | where a string's prefix and bytes sit in a buffer, the reader returns the string and consumes 4 plus its length |
| Borsh.EmptyStringReads | program/programs/lumberjack/src/lib.rs:85 | the empty human type a harvest leaves behind is stored as four zero bytes, which read back as the empty string |
| Accounts.PlayerDataDiscriminatorValue | unity/Villefarm/Assets/Scripts/Lumberjack.cs:26-27 | the byte constant reads as the numeric discriminator |
| Accounts.PlayerDataDiscriminatorBytes | unity/Villefarm/Assets/Scripts/Lumberjack.cs:26-27 | the byte constant is the little-endian encoding of the numeric discriminator |
| Accounts.PlotDiscriminatorValue | unity/Villefarm/Assets/Scripts/Lumberjack.cs:74-75 | the byte constant reads as the numeric discriminator |
| Accounts.PlotDiscriminatorBytes | unity/Villefarm/Assets/Scripts/Lumberjack.cs:74-75 | the byte constant is the little-endian encoding of the numeric discriminator |
| Accounts.DeserializePlayerData | unity/Villefarm/Assets/Scripts/Lumberjack.cs:43-69 | the offset-by-offset decoder returns exactly what the absolute layout gives: no record, truncated, or the seven fields at their offsets |
| Accounts.DeserializePlot | unity/Villefarm/Assets/Scripts/Lumberjack.cs:81-97 | the offset-by-offset decoder returns exactly what the absolute layout gives |
| Accounts.PlayerDataGate | unity/Villefarm/Assets/Scripts/Lumberjack.cs:46-51 | the decoder reports "not a PlayerData" exactly when at least 8 bytes are present and they differ from the discriminator bytes |
| Accounts.PlotGate | unity/Villefarm/Assets/Scripts/Lumberjack.cs:84-89 | the decoder reports "not a Plot" exactly when at least 8 bytes are present and they differ from the discriminator bytes |
| Accounts.KindsAreExclusive | unity/Villefarm/Assets/Scripts/Lumberjack.cs:48 | a stored Plot is never decoded as a PlayerData, nor a PlayerData as a Plot |
| Accounts.PlayerDataTruncation | unity/Villefarm/Assets/Scripts/Lumberjack.cs:53-67 | with the right discriminator, decoding fails exactly when the buffer ends before the name prefix or before 77 plus the announced name length |
| Accounts.PlotTruncation | unity/Villefarm/Assets/Scripts/Lumberjack.cs:91-95 | with the right discriminator, decoding fails exactly when the buffer ends before the prefix or before 20 plus the announced length |
| Accounts.PlayerDataFieldOffsets | unity/Villefarm/Assets/Scripts/Lumberjack.cs:53-67 | in a stored PlayerData each field's encoding sits at its offset: authority at 8, name prefix at 40, level at 44+L, xp, energy, gold and last login 8 bytes apart after it |
| Accounts.PlayerDataHead | unity/Villefarm/Assets/Scripts/Lumberjack.cs:53-57 | the header splits into discriminator, authority, name prefix and name |
| Accounts.PlayerDataTailAt | unity/Villefarm/Assets/Scripts/Lumberjack.cs:58-67 | the 33 bytes after the name are the level and the four 8-byte fields in order |
| Accounts.PlayerDataRoundTrip | unity/Villefarm/Assets/Scripts/Lumberjack.cs:43-69 | decoding the program's stored layout of any player record, followed by any bytes, gives that record back |
| Accounts.PlotFieldOffsets | unity/Villefarm/Assets/Scripts/Lumberjack.cs:91-95 | in a stored Plot the prefix sits at 8, the type at 12 and the planting time at 12+L |
| Accounts.PlotRoundTrip | unity/Villefarm/Assets/Scripts/Lumberjack.cs:81-97 | decoding the program's stored layout of any plot record, followed by any bytes, gives that record back |
| Accounts.PlayerDataDecodedFields | unity/Villefarm/Assets/Scripts/Lumberjack.cs:53-67 | every field of a decoded PlayerData is the decoding of the bytes at its offset, which hold that field's encoding |
| Accounts.PlayerDataFromPieces | program/programs/lumberjack/src/lib.rs:121-130 | the stored layout is header, name and fixed-size tail, concatenated |
| Accounts.PlayerDataTail | program/programs/lumberjack/src/lib.rs:125-129 | 33 bytes holding the fixed fields at their offsets are exactly those fields' encodings |
| Accounts.PlayerDataStoredAt | unity/Villefarm/Assets/Scripts/Lumberjack.cs:53-67 | bytes holding each field's encoding at its offset begin with the record's stored layout |
| Accounts.PlayerDataDecodedIsStored | unity/Villefarm/Assets/Scripts/Lumberjack.cs:43-69 | whatever the decoder returns is stored, byte for byte, at the start of the buffer (the converse of the round trip) |
| Accounts.PlotDecodedFields | unity/Villefarm/Assets/Scripts/Lumberjack.cs:92-95 | both fields of a decoded Plot are the decodings of the bytes at their offsets |
| Accounts.PlotFromPieces | program/programs/lumberjack/src/lib.rs:208-212 | the stored layout is discriminator, prefix, type and planting time, concatenated |
| Accounts.PlotStoredAt | unity/Villefarm/Assets/Scripts/Lumberjack.cs:92-95 | bytes holding each field's encoding at its offset begin with the record's stored layout |
| Accounts.PlotDecodedIsStored | unity/Villefarm/Assets/Scripts/Lumberjack.cs:81-97 | whatever the decoder returns is stored, byte for byte, at the start of the buffer |
| Errors.LookupError | unity/Villefarm/Assets/Scripts/Lumberjack.cs:207-210 | the table knows exactly the numbers 6000 to 6004, and each maps to the kind whose enumeration value it is |
| Errors.ClientCodesMatchProgram | program/programs/lumberjack/src/lib.rs:6-18 | each kind's client number is 6000 plus its position in the program's declaration, and the table gives the program's message for it |
| Errors.ErrorCodeInjective | unity/Villefarm/Assets/Scripts/Lumberjack.cs:103-110 | distinct kinds have distinct numbers |
| Instructions.SessionTokenKey | unity/Villefarm/Assets/Scripts/Lumberjack.cs:275 | the key put in the session-token slot is read by the program as the caller's token, or as absent when none was given |
| Instructions.InitPlayerKeys | unity/Villefarm/Assets/Scripts/Lumberjack.cs:261-262 | four references: player, plot and signer writable, system program read-only, and only the signer signs; this matches the program's account struct |
| Instructions.PlantKeys | unity/Villefarm/Assets/Scripts/Lumberjack.cs:274-275 | four references: session token read-only, player and plot writable, signer writable and signing; the token slot is read back as the caller's token |
| Instructions.HarvestKeys | unity/Villefarm/Assets/Scripts/Lumberjack.cs:288-289 | the same four-slot shape as Plant's list |
| Instructions.UpdateKeys | unity/Villefarm/Assets/Scripts/Lumberjack.cs:301-302 | three references: session token read-only, player writable, signer writable and signing |
| Instructions.WriteU64 | unity/Villefarm/Assets/Scripts/Lumberjack.cs:265 | the 8 bytes at the offset become the value's encoding; the bytes before and after them are untouched |
| Instructions.WriteBorshString | unity/Villefarm/Assets/Scripts/Lumberjack.cs:280 | writes the prefix and bytes and reports 4 plus the length when they fit, leaving the bytes before and after the written range untouched; otherwise fails and changes nothing |
| Instructions.CopyPrefix | unity/Villefarm/Assets/Scripts/Lumberjack.cs:281-282 | a fresh array holding exactly the written prefix |
| Instructions.InitPlayer | unity/Villefarm/Assets/Scripts/Lumberjack.cs:259-270 | payload is exactly the 8 discriminator bytes with the account list above, and the program reads it as init_player |
| Instructions.Plant | unity/Villefarm/Assets/Scripts/Lumberjack.cs:272-284 | fails exactly when 12 plus the type's length exceeds the 1200-byte scratch array; otherwise the payload is the discriminator then the length-prefixed type, and the program reads it as plant with the same type |
| Instructions.Harvest | unity/Villefarm/Assets/Scripts/Lumberjack.cs:286-297 | payload is exactly the 8 discriminator bytes, read by the program as harvest |
| Instructions.Update | unity/Villefarm/Assets/Scripts/Lumberjack.cs:299-310 | payload is exactly the 8 discriminator bytes, read by the program as update |
| Instructions.PayloadPrefixesDistinct | unity/Villefarm/Assets/Scripts/Lumberjack.cs:265-305 | the four instruction discriminators have pairwise distinct encodings, so no payload selects the wrong entry point |
| Instructions.PlantPayloadDecodes | unity/Villefarm/Assets/Scripts/Lumberjack.cs:278-280 | the program reads the discriminator-plus-string payload as a plant call with that very string |
| Instructions.HarvestDiscriminatorBytes | unity/Villefarm/Assets/Scripts/Lumberjack.cs:292 | Harvest's discriminator is the bytes E4 F1 1F B6 35 A9 3B C7 |
| Game.PlayerAccount.Create | program/programs/lumberjack/src/lib.rs:100-107 | a newly created player account is all zero with an empty name |
| Game.PlotAccount.Create | program/programs/lumberjack/src/lib.rs:108-115 | a newly created plot is empty with planting time zero |
| Game.InitPlayerStep | program/programs/lumberjack/src/lib.rs:26-32 | energy becomes 10, gold 5, authority the signer and last login the clock; name, level and xp are kept |
| Game.InitPlayer | program/programs/lumberjack/src/lib.rs:26-32 | succeeds and updates the player account as InitPlayerStep says |
| Game.PlantStep | program/programs/lumberjack/src/lib.rs:34-61 | succeeds exactly when authorized, the plot is empty, the type is known and the player has its price; any failure leaves both accounts unchanged |
| Game.Plant | program/programs/lumberjack/src/lib.rs:34-61 | updates the two accounts and returns the outcome exactly as PlantStep says |
| Game.HarvestStep | program/programs/lumberjack/src/lib.rs:63-89 | each outcome exactly: WrongAuthority iff unauthorized; NotEnoughGold iff the plot's type has no reward (an empty plot included); NotReadyYet iff fewer than 20 seconds have passed; Panic iff `planted_at + 20` or the new gold overflows; Ok iff authorized, a known type, 20 seconds passed and no gold overflow; never NothingWasPlanted; any failure or abort leaves both accounts unchanged |
| Game.Harvest | program/programs/lumberjack/src/lib.rs:63-89 | updates the two accounts and returns the outcome exactly as HarvestStep says |
| Game.Update | program/programs/lumberjack/src/lib.rs:91-95 | always succeeds and modifies no account |
| Game.CostAndRewardTables | program/programs/lumberjack/src/lib.rs:44-76 | the prices 5, 10, 30, 50 and 250, and the rewards 10, 20, 60, 100 and 500 |
| Game.RewardIsTwiceCost | program/programs/lumberjack/src/lib.rs:44-76 | exactly the five known types have a price and a reward, and every reward is twice the price |
| Game.PlantOnOccupiedPlot | program/programs/lumberjack/src/lib.rs:40-42 | planting on an occupied plot fails with NotReadyYet and changes nothing |
| Game.PlantWithoutGold | program/programs/lumberjack/src/lib.rs:44-55 | an unknown type, or a known one the player cannot afford, fails with NotEnoughGold |
| Game.PlantSuccess | program/programs/lumberjack/src/lib.rs:56-58 | a successful plant records the type and the clock on the plot and deducts exactly the price; no other player field changes |
| Game.HarvestEmptyPlot | program/programs/lumberjack/src/lib.rs:69-83 | harvesting an empty plot fails with NotEnoughGold, through the reward table's default arm |
| Game.HarvestTooEarly | program/programs/lumberjack/src/lib.rs:78-80 | a planted human harvested less than 20 seconds after planting fails with NotReadyYet |
| Game.HarvestSuccess | program/programs/lumberjack/src/lib.rs:85-86 | a successful harvest empties the plot and adds exactly the reward; nothing else changes |
| Game.UnauthorizedFails | program/programs/lumberjack/src/lib.rs:34-37 | without a valid session or the authority's signature, plant and harvest fail with WrongAuthority and change nothing |
| Game.PlantThenHarvest | program/programs/lumberjack/src/lib.rs:38-89 | planting and then harvesting at least 20 seconds later succeeds, empties the plot and leaves the player with exactly the price gained |
| Game.InitThenPlantPeasant | program/programs/lumberjack/src/lib.rs:26-61 | a freshly initialised player can plant a peasant at once, ending with 0 gold |

## Left out

- RPC, streaming and transaction-sending client methods (`Get…Async`, `Subscribe…Async`, `Send…Async`) are left out: they only forward to the network and call the decoders and builders modelled here. The base-58 discriminator strings are left out because they are only used there.
- UTF-8 is not modelled. Strings are the byte sequences Borsh stores, and C# string decoding and encoding are taken as the identity on those bytes.
- Borsh.GetBorshString: the client reads the length prefix into a 32-bit signed `int`. Lengths of 2^31 and above are not modelled as failing; such a buffer cannot exist in .NET anyway.
- Session-token validation (`session_auth_or` and the `#[session]` constraints) is the boolean input `authorized`. The session crate's own errors are not modelled.
- The on-chain clock is the input `now`.
- Anchor's account checks are assumed to have passed: the PDA seeds and bumps, the `space = 1000` allocation, `init` failing on an existing account, and owner and discriminator checks. PDA derivation is not modelled.
- The `msg!` log lines are not modelled.
- Game.Harvest: the model assumes the program is built with overflow checks on. Then `planted_at + 20` and `gold += reward` abort on overflow (`Panic`), and an abort discards all writes; the model checks before it writes instead. Without overflow checks, these additions would wrap around.
- The program's own deserialisation of instruction arguments is the function `Instructions.DecodeInstruction`, on the payloads the client builds.
- `LumberjackService.cs` and `LumberjackScreen.cs` (game UI and wallet session handling) are not part of this model.
