/**
 * The on-chain program: init_player, plant, harvest and update over one
 * player's PlayerData and Plot accounts. The clock reading is the input `now`
 * and the session-or-authority check is the input `authorized`. A failed
 * instruction leaves both accounts as they were: the runtime discards the
 * changes of a transaction that returns an error or aborts.
 */
module Game {
  import opened Wrappers
  import opened Borsh
  import opened Accounts
  import opened Errors

  const MAX_ENERGY: u64 := 10
  const STARTING_GOLD: u64 := 5
  /** Seconds a planted human needs before it can be harvested. */
  const TIME_TO_GROW := 20
  const U64_MAX := 0xFFFF_FFFF_FFFF_FFFF

  /**
   * How an instruction ends: success, one of the program's errors, or an
   * abort because checked arithmetic overflowed.
   */
  datatype Outcome = Ok | Err(error: ErrorKind) | Panic

  // The kinds of human that can be planted, as the bytes of their names.
  const PEASANT: seq<byte> := [0x70, 0x65, 0x61, 0x73, 0x61, 0x6E, 0x74]                          // "peasant"
  const BREADMAKER: seq<byte> := [0x62, 0x72, 0x65, 0x61, 0x64, 0x6D, 0x61, 0x6B, 0x65, 0x72]     // "breadmaker"
  const BEERBREWER: seq<byte> := [0x62, 0x65, 0x65, 0x72, 0x62, 0x72, 0x65, 0x77, 0x65, 0x72]     // "beerbrewer"
  const BLACKSMITH: seq<byte> := [0x62, 0x6C, 0x61, 0x63, 0x6B, 0x73, 0x6D, 0x69, 0x74, 0x68]     // "blacksmith"
  const SOLANADEV: seq<byte> := [0x73, 0x6F, 0x6C, 0x61, 0x6E, 0x61, 0x64, 0x65, 0x76]           // "solanadev"

  const HUMAN_TYPES := {PEASANT, BREADMAKER, BEERBREWER, BLACKSMITH, SOLANADEV}

  /** Gold it costs to plant a human of this type; None for an unknown type. */
  function PlantCost(humanType: seq<byte>): Option<u64>
  {
    if humanType == PEASANT then Some(5)
    else if humanType == BREADMAKER then Some(10)
    else if humanType == BEERBREWER then Some(30)
    else if humanType == BLACKSMITH then Some(50)
    else if humanType == SOLANADEV then Some(250)
    else None
  }

  /** Gold a grown human of this type yields; None for an unknown type. */
  function HarvestReward(humanType: seq<byte>): Option<u64>
  {
    if humanType == PEASANT then Some(10)
    else if humanType == BREADMAKER then Some(20)
    else if humanType == BEERBREWER then Some(60)
    else if humanType == BLACKSMITH then Some(100)
    else if humanType == SOLANADEV then Some(500)
    else None
  }

  // ---------------------------------------------------------------------------
  // The accounts, updated in place.

  class PlayerAccount {
    var authority: PubKey
    var name: BorshString
    var level: byte
    var xp: u64
    var energy: u64
    var gold: u64
    var lastLogin: i64

    function Value(): PlayerData
      reads this
    {
      PlayerData(authority, name, level, xp, energy, gold, lastLogin)
    }

    /** A newly created account: every field zero, the name empty. */
    constructor Create()
      ensures Value() == EMPTY_PLAYER_DATA
    {
      authority, name, level, xp, energy, gold, lastLogin := seq(32, _ => 0), [], 0, 0, 0, 0, 0;
    }
  }

  class PlotAccount {
    var humanType: BorshString
    var plantedAt: i64

    function Value(): Plot
      reads this
    {
      Plot(humanType, plantedAt)
    }

    constructor Create()
      ensures Value() == EMPTY_PLOT
    {
      humanType, plantedAt := [], 0;
    }
  }

  // ---------------------------------------------------------------------------
  // The instructions as steps on record values.

  datatype State = State(player: PlayerData, plot: Plot)

  function InitPlayerStep(p: PlayerData, signer: PubKey, now: i64): (q: PlayerData)
    ensures q.energy == MAX_ENERGY && q.gold == STARTING_GOLD && q.authority == signer && q.lastLogin == now
    ensures q.name == p.name && q.level == p.level && q.xp == p.xp
  {
    p.(energy := MAX_ENERGY, lastLogin := now, gold := STARTING_GOLD, authority := signer)
  }

  function PlantStep(s: State, humanType: BorshString, authorized: bool, now: i64): (r: (Outcome, State))
    ensures r.0 != Ok ==> r.1 == s
    ensures r.0 == Ok <==> authorized && s.plot.humanType == [] && PlantCost(humanType).Some?
                           && PlantCost(humanType).value <= s.player.gold
  {
    if !authorized then (Err(WrongAuthority), s)
    else if s.plot.humanType != [] then (Err(NotReadyYet), s)
    else match PlantCost(humanType)
      case None => (Err(NotEnoughGold), s)
      case Some(cost) =>
        if s.player.gold < cost then (Err(NotEnoughGold), s)
        else (Ok, State(s.player.(gold := s.player.gold - cost), s.plot.(humanType := humanType, plantedAt := now)))
  }

  function HarvestStep(s: State, authorized: bool, now: i64): (r: (Outcome, State))
    ensures r.0 != Ok ==> r.1 == s
    ensures r.0 != Err(NothingWasPlanted)
    ensures r.0 == Ok ==> s.plot.humanType != [] && s.plot.plantedAt + TIME_TO_GROW <= now
    ensures r.0 == Err(WrongAuthority) <==> !authorized
    ensures r.0 == Err(NotEnoughGold) <==> authorized && HarvestReward(s.plot.humanType).None?
    ensures r.0 == Err(NotReadyYet) <==> authorized && HarvestReward(s.plot.humanType).Some?
                                         && now < s.plot.plantedAt + TIME_TO_GROW <= I64_MAX
    ensures r.0 == Panic <==> authorized && HarvestReward(s.plot.humanType).Some?
                              && (I64_MAX < s.plot.plantedAt + TIME_TO_GROW
                                  || (s.plot.plantedAt + TIME_TO_GROW <= now
                                      && U64_MAX < s.player.gold + HarvestReward(s.plot.humanType).value))
    ensures r.0 == Ok <==> authorized && HarvestReward(s.plot.humanType).Some?
                           && s.plot.plantedAt + TIME_TO_GROW <= now
                           && s.player.gold + HarvestReward(s.plot.humanType).value <= U64_MAX
  {
    if !authorized then (Err(WrongAuthority), s)
    else match HarvestReward(s.plot.humanType)
      case None => (Err(NotEnoughGold), s)
      case Some(reward) =>
        if s.plot.plantedAt + TIME_TO_GROW > I64_MAX then (Panic, s)
        else if s.plot.plantedAt + TIME_TO_GROW > now then (Err(NotReadyYet), s)
        else if s.plot.humanType == [] then (Err(NothingWasPlanted), s)
        else if s.player.gold + reward > U64_MAX then (Panic, s)
        else (Ok, State(s.player.(gold := s.player.gold + reward), s.plot.(humanType := [])))
  }

  // ---------------------------------------------------------------------------
  // The instructions on the accounts.

  method InitPlayer(player: PlayerAccount, signer: PubKey, now: i64) returns (r: Outcome)
    modifies player
    ensures r == Ok
    ensures player.Value() == InitPlayerStep(old(player.Value()), signer, now)
  {
    player.energy := MAX_ENERGY;
    player.lastLogin := now;
    player.gold := STARTING_GOLD;
    player.authority := signer;
    r := Ok;
  }

  method Plant(player: PlayerAccount, plot: PlotAccount, humanType: BorshString, authorized: bool, now: i64)
    returns (r: Outcome)
    modifies player, plot
    ensures (r, State(player.Value(), plot.Value()))
            == PlantStep(old(State(player.Value(), plot.Value())), humanType, authorized, now)
  {
    if !authorized {
      return Err(WrongAuthority);
    }
    if plot.humanType != [] {
      return Err(NotReadyYet);
    }
    var cost := PlantCost(humanType);
    if cost.None? {
      return Err(NotEnoughGold);
    }
    if player.gold < cost.value {
      return Err(NotEnoughGold);
    }
    plot.humanType := humanType;
    plot.plantedAt := now;
    player.gold := player.gold - cost.value;
    r := Ok;
  }

  method Harvest(player: PlayerAccount, plot: PlotAccount, authorized: bool, now: i64) returns (r: Outcome)
    modifies player, plot
    ensures (r, State(player.Value(), plot.Value()))
            == HarvestStep(old(State(player.Value(), plot.Value())), authorized, now)
  {
    if !authorized {
      return Err(WrongAuthority);
    }
    var reward := HarvestReward(plot.humanType);
    if reward.None? {
      return Err(NotEnoughGold);
    }
    if plot.plantedAt + TIME_TO_GROW > I64_MAX {
      return Panic;
    }
    if plot.plantedAt + TIME_TO_GROW > now {
      return Err(NotReadyYet);
    }
    if plot.humanType == [] {
      return Err(NothingWasPlanted);
    }
    // The checked addition aborts the whole instruction, so it is checked
    // before anything is written.
    if player.gold + reward.value > U64_MAX {
      return Panic;
    }
    plot.humanType := [];
    player.gold := player.gold + reward.value;
    r := Ok;
  }

  /** `update` does nothing: no account is modified. */
  method Update(player: PlayerAccount) returns (r: Outcome)
    ensures r == Ok
  {
    r := Ok;
  }

  // ---------------------------------------------------------------------------
  // Properties

  lemma CostAndRewardTables()
    ensures PlantCost(PEASANT) == Some(5) && HarvestReward(PEASANT) == Some(10)
    ensures PlantCost(BREADMAKER) == Some(10) && HarvestReward(BREADMAKER) == Some(20)
    ensures PlantCost(BEERBREWER) == Some(30) && HarvestReward(BEERBREWER) == Some(60)
    ensures PlantCost(BLACKSMITH) == Some(50) && HarvestReward(BLACKSMITH) == Some(100)
    ensures PlantCost(SOLANADEV) == Some(250) && HarvestReward(SOLANADEV) == Some(500)
  {
  }

  /** Only the five known types have a price; every reward is twice the price. */
  lemma RewardIsTwiceCost(humanType: seq<byte>)
    ensures PlantCost(humanType).Some? <==> humanType in HUMAN_TYPES
    ensures HarvestReward(humanType).Some? <==> PlantCost(humanType).Some?
    ensures HarvestReward(humanType).Some? ==> HarvestReward(humanType).value == 2 * PlantCost(humanType).value
  {
  }

  /** Planting on an occupied plot fails with NotReadyYet and changes nothing. */
  lemma PlantOnOccupiedPlot(s: State, humanType: BorshString, now: i64)
    requires s.plot.humanType != []
    ensures PlantStep(s, humanType, true, now) == (Err(NotReadyYet), s)
  {
  }

  /** An unknown type, or too little gold for a known one, fails with NotEnoughGold. */
  lemma PlantWithoutGold(s: State, humanType: BorshString, now: i64)
    requires s.plot.humanType == []
    requires PlantCost(humanType).None? || s.player.gold < PlantCost(humanType).value
    ensures PlantStep(s, humanType, true, now) == (Err(NotEnoughGold), s)
  {
  }

  /** A successful plant records the type and time, and takes exactly the cost from gold. */
  lemma PlantSuccess(s: State, humanType: BorshString, authorized: bool, now: i64)
    requires PlantStep(s, humanType, authorized, now).0 == Ok
    ensures var t := PlantStep(s, humanType, authorized, now).1;
      t.plot == Plot(humanType, now) && t.player.gold + PlantCost(humanType).value == s.player.gold
      && t.player == s.player.(gold := t.player.gold)
  {
  }

  /** Harvesting an empty plot fails through the unknown-type default: NotEnoughGold. */
  lemma HarvestEmptyPlot(s: State, now: i64)
    requires s.plot.humanType == []
    ensures HarvestStep(s, true, now) == (Err(NotEnoughGold), s)
  {
  }

  /** Before 20 seconds have passed since planting, harvest fails with NotReadyYet. */
  lemma HarvestTooEarly(s: State, now: i64)
    requires s.plot.humanType in HUMAN_TYPES
    requires s.plot.plantedAt + TIME_TO_GROW <= I64_MAX && now < s.plot.plantedAt + TIME_TO_GROW
    ensures HarvestStep(s, true, now) == (Err(NotReadyYet), s)
  {
  }

  /** A successful harvest empties the plot and adds exactly the reward; nothing else changes. */
  lemma HarvestSuccess(s: State, authorized: bool, now: i64)
    requires HarvestStep(s, authorized, now).0 == Ok
    ensures var t := HarvestStep(s, authorized, now).1;
      HarvestReward(s.plot.humanType).Some?
      && t.player.gold == s.player.gold + HarvestReward(s.plot.humanType).value
      && t.player == s.player.(gold := t.player.gold)
      && t.plot == Plot([], s.plot.plantedAt)
  {
  }

  /** Unauthorized plant and harvest fail with WrongAuthority before anything else is looked at. */
  lemma UnauthorizedFails(s: State, humanType: BorshString, now: i64)
    ensures PlantStep(s, humanType, false, now) == (Err(WrongAuthority), s)
    ensures HarvestStep(s, false, now) == (Err(WrongAuthority), s)
  {
  }

  /**
   * Plant at time t, harvest at t' >= t + 20: the plot is empty again and the
   * player has gained exactly the planting cost.
   */
  lemma {:induction false} PlantThenHarvest(s: State, humanType: BorshString, t: i64, t': i64)
    requires PlantStep(s, humanType, true, t).0 == Ok
    requires t + TIME_TO_GROW <= t'
    requires s.player.gold + PlantCost(humanType).value <= U64_MAX
    ensures var s1 := PlantStep(s, humanType, true, t).1;
      var r := HarvestStep(s1, true, t');
      r.0 == Ok && r.1.plot.humanType == []
      && r.1.player == s.player.(gold := s.player.gold + PlantCost(humanType).value)
  {
    RewardIsTwiceCost(humanType);
    PlantSuccess(s, humanType, true, t);
  }

  /** A new player, once initialised, can afford a peasant on their new plot. */
  lemma InitThenPlantPeasant(signer: PubKey, now: i64)
    ensures var s := State(InitPlayerStep(EMPTY_PLAYER_DATA, signer, now), EMPTY_PLOT);
      PlantStep(s, PEASANT, true, now) == (Ok, State(s.player.(gold := 0), Plot(PEASANT, now)))
  {
  }
}
