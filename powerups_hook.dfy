/** The pure helpers of the `usePowerups` hook: how a token id names a
    powerup type, the purchase mapping, the owned-powerup list, the shop
    rows, the per-type statistics, the guard chain in front of a purchase
    and the recommendations. Prices are kept as the hook's decimal strings;
    wallet and chain calls are parameters. */
module PowerupsHook {
  import opened Common
  import opened Constants

  // ---------------------------------------------------------------------
  // Token ids and the purchase mapping
  // ---------------------------------------------------------------------

  /** `getPowerupTypeFromId`: the key of POWERUP_TYPES at `id % 4`. */
  function PowerupTypeFromId(id: nat): (r: PowerupType)
    ensures r in POWERUP_KEYS
    ensures TypeId(r) == id % |POWERUP_KEYS|
  {
    POWERUP_KEYS[id % |POWERUP_KEYS|]
  }

  /** The index of a type among the keys of POWERUP_TYPES. */
  function TypeId(t: PowerupType): (n: nat)
    ensures n < |POWERUP_KEYS| && POWERUP_KEYS[n] == t
  {
    match t
    case Speed => 0
    case Shield => 1
    case DoubleJump => 2
    case Multiplier => 3
  }

  /** The names every object inherits from `Object.prototype`. Looking one
      of them up in one of the hook's object literals finds that member (a
      function, or the prototype itself for `__proto__`): truthy, and not
      undefined. */
  predicate InheritedName(s: string)
  {
    s == "constructor" || s == "__proto__" || s == "toString" || s == "toLocaleString"
    || s == "valueOf" || s == "hasOwnProperty" || s == "isPrototypeOf"
    || s == "propertyIsEnumerable" || s == "__defineGetter__" || s == "__defineSetter__"
    || s == "__lookupGetter__" || s == "__lookupSetter__"
  }

  /** What `table[s]` finds in an object literal: one of its own values,
      or an inherited member. */
  datatype Entry<T> = Own(value: T) | Inherited(name: string)

  /** `table[s]`, given the table's own value for `s`; `None` is
      undefined. */
  function Lookup<T>(own: Option<T>, s: string): Option<Entry<T>>
  {
    if own.Some? then Some(Own(own.value))
    else if InheritedName(s) then Some(Inherited(s))
    else None
  }

  /** `table[s] || fallback` for a table of non-empty strings. */
  function OrElse(e: Option<Entry<string>>, fallback: string): Entry<string>
  {
    if e.Some? then e.value else Own(fallback)
  }

  /** The own entries of `powerupTypeMapping`. */
  function OwnMintId(s: string): Option<nat>
  {
    if s == "SPEED" then Some(0)
    else if s == "SHIELD" then Some(1)
    else if s == "DOUBLE_JUMP" then Some(2)
    else if s == "MULTIPLIER" then Some(3)
    else None
  }

  /** `powerupTypeMapping[powerupType]`. */
  function MintTypeId(s: string): Option<Entry<nat>>
  {
    Lookup(OwnMintId(s), s)
  }

  /** The purchase mapping is defined exactly on the keys of POWERUP_TYPES,
      and the id it sends to the contract is read back as the same type. */
  lemma MintIdRoundTrip(s: string)
    ensures OwnMintId(s).Some? <==> TypeOfKey(s).Some?
    ensures OwnMintId(s).Some? ==>
      KeyName(PowerupTypeFromId(OwnMintId(s).value)) == s
      && OwnMintId(s).value == TypeId(TypeOfKey(s).value)
  {
  }

  /** Token ids four apart name the same type. */
  lemma TypeFromIdPeriodic(id: nat)
    ensures PowerupTypeFromId(id + 4) == PowerupTypeFromId(id)
  {
  }

  // ---------------------------------------------------------------------
  // Owned powerups
  // ---------------------------------------------------------------------

  datatype OwnedPowerup = OwnedPowerup(tokenId: nat, kind: PowerupType, index: nat, isUsed: bool)

  /** The effect that turns the contract's `getPowerups` answer into
      `ownedPowerups`; `None` stands for an answer that is not an array. */
  function OwnedFrom(contractPowerups: Option<seq<nat>>): (r: seq<OwnedPowerup>)
    ensures contractPowerups.None? ==> r == []
    ensures contractPowerups.Some? ==> |r| == |contractPowerups.value|
    ensures forall i :: 0 <= i < |r| ==>
      r[i].index == i && !r[i].isUsed && r[i].tokenId == contractPowerups.value[i]
      && TypeId(r[i].kind) == r[i].tokenId % 4
  {
    match contractPowerups
    case None => []
    case Some(ids) =>
      seq(|ids|, i requires 0 <= i < |ids| => OwnedPowerup(ids[i], PowerupTypeFromId(ids[i]), i, false))
  }

  /** `ownedPowerups.filter(p => p.type === t).length`. */
  function Count(owned: seq<OwnedPowerup>, t: PowerupType): (n: nat)
    ensures n <= |owned|
  {
    if owned == [] then 0
    else Count(owned[..|owned| - 1], t) + (if owned[|owned| - 1].kind == t then 1 else 0)
  }

  /** The four per-type counts add up to the number of owned powerups. */
  lemma {:induction false} CountsPartition(owned: seq<OwnedPowerup>)
    ensures Count(owned, Speed) + Count(owned, Shield) + Count(owned, DoubleJump)
      + Count(owned, Multiplier) == |owned|
  {
    if owned != [] {
      CountsPartition(owned[..|owned| - 1]);
    }
  }

  /** A count is positive exactly when some owned powerup has that type. */
  lemma {:induction false} CountPositive(owned: seq<OwnedPowerup>, t: PowerupType)
    ensures Count(owned, t) > 0 <==> exists i :: 0 <= i < |owned| && owned[i].kind == t
  {
    if owned != [] {
      var init := owned[..|owned| - 1];
      CountPositive(init, t);
      if exists i :: 0 <= i < |init| && init[i].kind == t {
        var i :| 0 <= i < |init| && init[i].kind == t;
        assert owned[i] == init[i];
      }
    }
  }

  // ---------------------------------------------------------------------
  // Prices, descriptions and icons
  // ---------------------------------------------------------------------

  /** The own entries of `getPowerupPrices()`, in MON as the hook's
      decimal strings. */
  function OwnPrice(s: string): Option<string>
  {
    if s == "SPEED" then Some("0.01")
    else if s == "SHIELD" then Some("0.015")
    else if s == "DOUBLE_JUMP" then Some("0.02")
    else if s == "MULTIPLIER" then Some("0.025")
    else None
  }

  /** `getPowerupPrices()[s]`. */
  function Price(s: string): Option<Entry<string>>
  {
    Lookup(OwnPrice(s), s)
  }

  /** The own entries of the descriptions table. */
  function OwnDescription(s: string): Option<string>
  {
    if s == "SPEED" then Some("Increases running speed by 50% for 5 seconds")
    else if s == "SHIELD" then Some("Protects from one obstacle collision for 10 seconds")
    else if s == "DOUBLE_JUMP" then Some("Allows double jumping for 15 seconds")
    else if s == "MULTIPLIER" then Some("Doubles score gain for 8 seconds")
    else None
  }

  /** `getPowerupDescription(s)`. */
  function Description(s: string): Entry<string>
  {
    OrElse(Lookup(OwnDescription(s), s), "Mystery powerup")
  }

  const FALLBACK_ICON: string := "\U{1F3AE}"

  /** The own entries of the icons table. */
  function OwnIcon(s: string): Option<string>
  {
    if s == "SPEED" then Some("\U{26A1}")
    else if s == "SHIELD" then Some("\U{1F6E1}\U{FE0F}")
    else if s == "DOUBLE_JUMP" then Some("\U{1F998}")
    else if s == "MULTIPLIER" then Some("\U{2728}")
    else None
  }

  /** `getPowerupIcon(s)`. */
  function Icon(s: string): Entry<string>
  {
    OrElse(Lookup(OwnIcon(s), s), FALLBACK_ICON)
  }

  /** A string that is neither a key of POWERUP_TYPES nor an inherited
      name gets the mystery description and the game-controller icon, and
      has no price; every key has a price and a description and icon of its
      own; an inherited name finds the inherited member in every table, so
      no fallback applies and the price and mapping checks pass. */
  lemma UnknownTypeFallbacks(s: string)
    ensures !InheritedName(s) ==>
      && (TypeOfKey(s).None? <==> Description(s) == Own("Mystery powerup"))
      && (TypeOfKey(s).None? <==> Icon(s) == Own(FALLBACK_ICON))
      && (TypeOfKey(s).None? <==> Price(s).None?)
      && (TypeOfKey(s).Some? ==> Price(s).value.Own? && Description(s).Own? && Icon(s).Own?)
    ensures InheritedName(s) ==>
      && TypeOfKey(s).None?
      && Description(s) == Inherited(s) && Icon(s) == Inherited(s)
      && Price(s) == Some(Inherited(s)) && MintTypeId(s) == Some(Inherited(s))
  {
    OwnEntriesOnKeys(s);
    KeysAreNotInherited(s);
  }

  /** The four tables have own entries exactly for the keys of
      POWERUP_TYPES, and no own entry equals a fallback. */
  lemma OwnEntriesOnKeys(s: string)
    ensures OwnPrice(s).Some? == OwnDescription(s).Some? == OwnIcon(s).Some?
      == OwnMintId(s).Some? == TypeOfKey(s).Some?
    ensures OwnDescription(s) != Some("Mystery powerup") && OwnIcon(s) != Some(FALLBACK_ICON)
  {
  }

  /** No key of POWERUP_TYPES is an inherited name. */
  lemma KeysAreNotInherited(s: string)
    ensures TypeOfKey(s).Some? ==> !InheritedName(s)
  {
    if TypeOfKey(s).Some? {
      assert s == KeyName(TypeOfKey(s).value);
      assert |s| == 5 || |s| == 6 || |s| == 10 || |s| == 11;
    }
  }

  /** `s.replace('_', ' ')`: a string pattern, so only the first underscore
      becomes a space. */
  function ReplaceFirstUnderscore(s: string): (r: string)
    ensures |r| == |s|
    ensures '_' !in s ==> r == s
  {
    if s == [] then []
    else if s[0] == '_' then [' '] + s[1..]
    else [s[0]] + ReplaceFirstUnderscore(s[1..])
  }

  // ---------------------------------------------------------------------
  // The shop
  // ---------------------------------------------------------------------

  datatype ShopRow = ShopRow(
    key: string, name: string, description: Entry<string>, price: Entry<string>, color: string,
    duration: real, effect: string, owned: nat, icon: Entry<string>)

  /** One row of `getShopData` for the key `t`. */
  function ShopRowOf(t: PowerupType, owned: seq<OwnedPowerup>): (row: ShopRow)
    ensures TypeOfKey(row.key) == Some(t) && row.owned == Count(owned, t)
  {
    KeyNameRoundTrip(t);
    var key := KeyName(t);
    ShopRow(key, ReplaceFirstUnderscore(key), Description(key),
            OrElse(Price(key), "0.01"),
            Config(t).color, Config(t).duration, EffectName(Config(t).effect),
            Count(owned, t), Icon(key))
  }

  /** `getShopData()`: a row per entry of POWERUP_TYPES, in key order. */
  function ShopData(owned: seq<OwnedPowerup>): (r: seq<ShopRow>)
    ensures |r| == |POWERUP_KEYS|
    ensures forall i :: 0 <= i < |r| ==>
      TypeOfKey(r[i].key) == Some(POWERUP_KEYS[i]) && r[i].owned == Count(owned, POWERUP_KEYS[i])
  {
    seq(|POWERUP_KEYS|, i requires 0 <= i < |POWERUP_KEYS| => ShopRowOf(POWERUP_KEYS[i], owned))
  }

  /** The row of a key shows that key's own price, description and icon,
      never the fallbacks. */
  lemma RowHasNoFallbacks(t: PowerupType, owned: seq<OwnedPowerup>)
    ensures var row := ShopRowOf(t, owned);
      TypeOfKey(row.key) == Some(t)
      && row.description != Own("Mystery powerup") && row.icon != Own(FALLBACK_ICON)
      && row.description.Own? && row.icon.Own? && row.price.Own?
      && Some(row.price) == Price(row.key)
  {
    KeyNameRoundTrip(t);
    UnknownTypeFallbacks(KeyName(t));
  }

  /** Each key of POWERUP_TYPES has exactly one shop row. */
  lemma ShopCoversEachKeyOnce(owned: seq<OwnedPowerup>, t: PowerupType)
    ensures var r := ShopData(owned);
      (exists i :: 0 <= i < |r| && r[i].key == KeyName(t))
      && (forall i, j :: 0 <= i < j < |r| ==> r[i].key != r[j].key)
  {
    var r := ShopData(owned);
    PowerupKeysAreAllTypes(t);
    KeyNameRoundTrip(t);
    assert r[TypeId(t)].key == KeyName(t);
  }

  /** The owned counts of the shop rows add up to the owned list. */
  lemma ShopOwnedAddsUp(owned: seq<OwnedPowerup>)
    ensures var r := ShopData(owned);
      r[0].owned + r[1].owned + r[2].owned + r[3].owned == |owned|
  {
    CountsPartition(owned);
  }

  /** No shop row falls back to the default price, the mystery description
      or the fallback icon. */
  lemma ShopHasNoFallbacks(owned: seq<OwnedPowerup>)
    ensures var r := ShopData(owned);
      forall i :: 0 <= i < |r| ==>
        r[i].description != Own("Mystery powerup") && r[i].icon != Own(FALLBACK_ICON)
        && Some(r[i].price) == Price(r[i].key)
  {
    var r := ShopData(owned);
    forall i | 0 <= i < |r|
      ensures r[i].description != Own("Mystery powerup") && r[i].icon != Own(FALLBACK_ICON)
      ensures Some(r[i].price) == Price(r[i].key)
    {
      RowHasNoFallbacks(POWERUP_KEYS[i], owned);
    }
  }

  /** Replacing the first underscore skips a prefix that has none. */
  lemma {:induction false} ReplaceSkipsPrefix(p: string, s: string)
    requires '_' !in p
    ensures ReplaceFirstUnderscore(p + s) == p + ReplaceFirstUnderscore(s)
  {
    if p != [] {
      assert p[0] in p;
      assert (p + s)[0] == p[0] != '_';
      assert (p + s)[1..] == p[1..] + s;
      ReplaceSkipsPrefix(p[1..], s);
    } else {
      assert p + s == s;
    }
  }

  /** Exactly the first underscore becomes a space. */
  lemma ReplacesFirstUnderscore(p: string, q: string)
    requires '_' !in p
    ensures ReplaceFirstUnderscore(p + "_" + q) == p + " " + q
  {
    assert p + "_" + q == p + ("_" + q);
    ReplaceSkipsPrefix(p, "_" + q);
    assert ("_" + q)[1..] == q;
  }

  // ---------------------------------------------------------------------
  // Statistics
  // ---------------------------------------------------------------------

  /** A missing `byType` entry reads as 0. */
  function CountIn(byType: map<PowerupType, nat>, t: PowerupType): nat
  {
    if t in byType then byType[t] else 0
  }

  /** The sum of the `byType` counts over the keys of POWERUP_TYPES. */
  function ByTypeSum(byType: map<PowerupType, nat>): nat
  {
    CountIn(byType, Speed) + CountIn(byType, Shield) + CountIn(byType, DoubleJump)
    + CountIn(byType, Multiplier)
  }

  /** `getPowerupStats()` without the floating-point `totalValue`: `total`
      and the `byType` counts accumulated by the `forEach`. */
  method PowerupStats(owned: seq<OwnedPowerup>) returns (total: nat, byType: map<PowerupType, nat>)
    ensures total == |owned|
    ensures forall t :: t in byType <==> exists i :: 0 <= i < |owned| && owned[i].kind == t
    ensures forall t :: CountIn(byType, t) == Count(owned, t)
    ensures ByTypeSum(byType) == total
  {
    total := |owned|;
    byType := map[];
    var i := 0;
    while i < |owned|
      invariant 0 <= i <= |owned|
      invariant forall t :: t in byType <==> Count(owned[..i], t) > 0
      invariant forall t :: CountIn(byType, t) == Count(owned[..i], t)
    {
      var k := owned[i].kind;
      var n := if k in byType then byType[k] else 0;
      byType := byType[k := n + 1];
      assert owned[..i + 1][..i] == owned[..i];
      i := i + 1;
    }
    assert owned[..i] == owned;
    forall t
      ensures t in byType <==> exists i :: 0 <= i < |owned| && owned[i].kind == t
    {
      CountPositive(owned, t);
    }
    CountsPartition(owned);
  }

  // ---------------------------------------------------------------------
  // Buying
  // ---------------------------------------------------------------------

  /** Why `buyPowerup` gives up before it starts minting. */
  datatype Refusal = NotConnected | ContractNotDeployed | InvalidType | NoSigner | InvalidMapping

  /** The guard chain at the head of `buyPowerup`, first failing guard
      first; an empty address or contract string is falsy. */
  function BuyGuard(connected: bool, address: string, contract: string, powerupType: string,
                    hasSigner: bool): Option<Refusal>
  {
    if !connected || address == "" then Some(NotConnected)
    else if contract == "" || contract == ZERO_ADDRESS then Some(ContractNotDeployed)
    else if Price(powerupType).None? then Some(InvalidType)
    else if !hasSigner then Some(NoSigner)
    else if MintTypeId(powerupType).None? then Some(InvalidMapping)
    else None
  }

  /** Each refusal happens exactly when its guard fails and all earlier ones
      pass; an inherited name passes the type check; the last guard can
      never fire, since the price table and the purchase mapping have the
      same keys and both find the inherited members; the deployed contract
      address always passes the second guard. */
  lemma BuyGuardOrder(connected: bool, address: string, contract: string, s: string, hasSigner: bool)
    ensures var g := BuyGuard(connected, address, contract, s, hasSigner);
      (g == Some(NotConnected) <==> !connected || address == "")
      && (g == Some(ContractNotDeployed) <==>
            connected && address != "" && (contract == "" || contract == ZERO_ADDRESS))
      && (g == Some(InvalidType) <==>
            connected && address != "" && contract != "" && contract != ZERO_ADDRESS
            && TypeOfKey(s).None? && !InheritedName(s))
      && (g == Some(NoSigner) <==>
            connected && address != "" && contract != "" && contract != ZERO_ADDRESS
            && (TypeOfKey(s).Some? || InheritedName(s)) && !hasSigner)
      && g != Some(InvalidMapping)
      && (g.None? ==> MintTypeId(s).Some? && (MintTypeId(s).value.Own? <==> TypeOfKey(s).Some?))
    ensures BuyGuard(connected, address, POWERUP_NFT, s, hasSigner) != Some(ContractNotDeployed)
  {
  }

  /** The answer of the optional balance check. */
  datatype BalanceCheck = Enough | Short | CheckThrew

  /** The hook state `buyPowerup` touches: `isMinting`, the sequence of
      values passed to `setIsMinting`, and the type ids sent to
      `mintPowerup`. */
  class PowerupPurchases {
    var isMinting: bool
    var mintingCalls: seq<bool>
    var mintRequests: seq<nat>

    constructor ()
      ensures !isMinting && mintingCalls == [] && mintRequests == []
    {
      isMinting := false;
      mintingCalls := [];
      mintRequests := [];
    }

    /** `buyPowerup(powerupType)`. A refused purchase returns false and
        changes nothing; otherwise `isMinting` is set. For an inherited
        name the price is not a string, so `parseEther` throws and the
        purchase fails at once. Else the balance check may stop the
        purchase (clearing `isMinting` on its own path and in `finally`),
        or the type id is sent and the result is whether the write went
        through; `isMinting` is false at the end. */
    method BuyPowerup(connected: bool, address: string, contract: string, powerupType: string,
                      hasSigner: bool, balance: BalanceCheck, writeSucceeds: bool)
      returns (ok: bool)
      modifies this
      ensures BuyGuard(connected, address, contract, powerupType, hasSigner).Some? ==>
        !ok && unchanged(this)
      ensures BuyGuard(connected, address, contract, powerupType, hasSigner).None? ==>
        !isMinting
        && (InheritedName(powerupType) ==>
              !ok && mintingCalls == old(mintingCalls) + [true, false]
              && mintRequests == old(mintRequests))
        && (!InheritedName(powerupType) && balance == Short ==>
              !ok && mintingCalls == old(mintingCalls) + [true, false, false]
              && mintRequests == old(mintRequests))
        && (!InheritedName(powerupType) && balance != Short ==>
              ok == writeSucceeds && mintingCalls == old(mintingCalls) + [true, false]
              && mintRequests == old(mintRequests) + [TypeId(TypeOfKey(powerupType).value)])
    {
      if BuyGuard(connected, address, contract, powerupType, hasSigner).Some? {
        return false;
      }
      SetMinting(true);
      if InheritedName(powerupType) {
        ok := false;
        SetMinting(false);
        return;
      }
      var typeId := MintTypeId(powerupType).value.value;
      assert typeId == TypeId(TypeOfKey(powerupType).value) by {
        MintIdRoundTrip(powerupType);
      }
      if balance == Short {
        SetMinting(false);
        ok := false;
      } else {
        mintRequests := mintRequests + [typeId];
        ok := writeSucceeds;
      }
      SetMinting(false);
    }

    /** `setIsMinting(b)`. */
    method SetMinting(b: bool)
      modifies this
      ensures isMinting == b && mintingCalls == old(mintingCalls) + [b]
      ensures mintRequests == old(mintRequests)
    {
      isMinting := b;
      mintingCalls := mintingCalls + [b];
    }
  }

  // ---------------------------------------------------------------------
  // Recommendations
  // ---------------------------------------------------------------------

  datatype GameStats = GameStats(averageScore: real, averageDistance: real, jumpAccuracy: real)

  datatype Recommendation = Recommendation(kind: PowerupType, reason: string)

  const SHIELD_TIP := Recommendation(Shield, "Protect yourself from obstacles while learning")
  const MULTIPLIER_TIP := Recommendation(Multiplier, "Boost your high scores")
  const DOUBLE_JUMP_TIP := Recommendation(DoubleJump, "More jumping options")
  const SPEED_TIP := Recommendation(Speed, "Essential for high-speed gameplay")

  /** `getRecommendedPowerups(gameStats)`; `None` is a falsy argument. */
  function RecommendedPowerups(stats: Option<GameStats>): (r: seq<Recommendation>)
    ensures stats.None? <==> r == []
    ensures stats.Some? ==> r[|r| - 1] == SPEED_TIP && SPEED_TIP !in r[..|r| - 1]
    ensures stats.Some? ==>
      (SHIELD_TIP in r <==> stats.value.averageScore < 1000.0)
      && (MULTIPLIER_TIP in r <==> stats.value.averageDistance > 5000.0)
      && (DOUBLE_JUMP_TIP in r <==> stats.value.jumpAccuracy < 0.8)
      && (forall x :: x in r ==> x in [SHIELD_TIP, MULTIPLIER_TIP, DOUBLE_JUMP_TIP, SPEED_TIP])
  {
    match stats
    case None => []
    case Some(s) =>
      (if s.averageScore < 1000.0 then [SHIELD_TIP] else [])
      + (if s.averageDistance > 5000.0 then [MULTIPLIER_TIP] else [])
      + (if s.jumpAccuracy < 0.8 then [DOUBLE_JUMP_TIP] else [])
      + [SPEED_TIP]
  }
}
