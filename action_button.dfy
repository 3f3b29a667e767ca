/**
 * The universal action button. Its mode changes with "nearby" notifications
 * from the fishing rod and the ship and with presses; a press makes one call
 * into another component, depending on the mode. Each mode shows its own
 * asset (sprite, colour and text); assets are modelled by opaque identities.
 */
module ActionButtons {

  datatype ActionType =
    | None
    | FishingChallenge
    | CatchFish
    | Market
    | BoatShop
    | FishingRodShop
    | Workshop

  /** The events the button subscribes to: the rod's OnFishingPlaceNearby and
      the ship's OnMarketNearby, OnBoatShopNearby, OnFishingRodShopNearby and
      OnWorkshopNearby. */
  datatype NearbySource =
    | FishingPlaceNearby
    | MarketNearby
    | BoatShopNearby
    | FishingRodShopNearby
    | WorkshopNearby

  /** Calls a press makes into other components. */
  datatype Effect =
    | ActivateChallenge
    | TryCatchFish
    | OpenMarket
    | OpenBoatShop
    | OpenFishingRodShop
    | OpenWorkshop

  type AssetId = nat

  /** The seven serialized assets, one per mode. */
  datatype ActionButtonAssets = ActionButtonAssets(
    none: AssetId, fishingChallenge: AssetId, catchFish: AssetId, market: AssetId,
    boatShop: AssetId, fishingRodShop: AssetId, workshop: AssetId)

  function AssetFor(assets: ActionButtonAssets, t: ActionType): AssetId {
    match t
    case None => assets.none
    case FishingChallenge => assets.fishingChallenge
    case CatchFish => assets.catchFish
    case Market => assets.market
    case BoatShop => assets.boatShop
    case FishingRodShop => assets.fishingRodShop
    case Workshop => assets.workshop
  }

  /** The mode a source's nearby(true) selects. */
  function ActionOf(source: NearbySource): (t: ActionType)
    ensures t != None && t != CatchFish
  {
    match source
    case FishingPlaceNearby => FishingChallenge
    case MarketNearby => Market
    case BoatShopNearby => BoatShop
    case FishingRodShopNearby => FishingRodShop
    case WorkshopNearby => Workshop
  }

  /** The inverse of ActionOf on the modes a notification can select. */
  function SourceOf(t: ActionType): (s: NearbySource)
    requires t != None && t != CatchFish
    ensures ActionOf(s) == t
  {
    match t
    case FishingChallenge => FishingPlaceNearby
    case Market => MarketNearby
    case BoatShop => BoatShopNearby
    case FishingRodShop => FishingRodShopNearby
    case Workshop => WorkshopNearby
  }

  /** Different sources select different modes. */
  lemma ActionOfInjective(a: NearbySource, b: NearbySource)
    requires ActionOf(a) == ActionOf(b)
    ensures a == b
  {
    assert SourceOf(ActionOf(a)) == a;
  }

  /** The mode after a notification: nearby(true) selects the source's mode,
      nearby(false) from any source selects None, whatever the current mode. */
  function NearbyMode(source: NearbySource, nearby: bool): (t: ActionType)
    ensures t == None <==> !nearby
    ensures nearby ==> t != None && t != CatchFish && SourceOf(t) == source
  {
    if nearby then ActionOf(source) else None
  }

  /** The mode after a press. */
  function PressMode(t: ActionType): (r: ActionType)
    ensures t == FishingChallenge ==> r == CatchFish
    ensures t == CatchFish ==> r == None
    ensures t != FishingChallenge && t != CatchFish ==> r == t
  {
    match t
    case FishingChallenge => CatchFish
    case CatchFish => None
    case _ => t
  }

  /** The call a press makes: none in None, exactly one in every other mode. */
  function PressEffects(t: ActionType): (e: seq<Effect>)
    ensures |e| == (if t == None then 0 else 1)
  {
    match t
    case None => []
    case FishingChallenge => [ActivateChallenge]
    case CatchFish => [TryCatchFish]
    case Market => [OpenMarket]
    case BoatShop => [OpenBoatShop]
    case FishingRodShop => [OpenFishingRodShop]
    case Workshop => [OpenWorkshop]
  }

  /** The two ways the button is driven. */
  datatype Input = Press | Nearby(source: NearbySource, nearby: bool)

  function Step(t: ActionType, input: Input): (ActionType, seq<Effect>) {
    match input
    case Press => (PressMode(t), PressEffects(t))
    case Nearby(source, nearby) => (NearbyMode(source, nearby), [])
  }

  /** The final mode and the calls made, in order, for a sequence of inputs. */
  function Run(t: ActionType, inputs: seq<Input>): (ActionType, seq<Effect>)
    decreases |inputs|
  {
    if inputs == [] then (t, [])
    else
      var (next, effects) := Step(t, inputs[0]);
      var (last, rest) := Run(next, inputs[1..]);
      (last, effects + rest)
  }

  /** Scans a call log: every TryCatchFish comes after an ActivateChallenge
      with no TryCatchFish in between. `armed` says an activation is pending. */
  predicate CatchesFollowActivation(log: seq<Effect>, armed: bool)
    decreases |log|
  {
    if log == [] then true
    else match log[0]
      case ActivateChallenge => CatchesFollowActivation(log[1..], true)
      case TryCatchFish => armed && CatchesFollowActivation(log[1..], false)
      case _ => CatchesFollowActivation(log[1..], armed)
  }

  /** The calls that move the armed flag of CatchesFollowActivation. */
  function ArmedAfter(effects: seq<Effect>, armed: bool): bool {
    if effects == [ActivateChallenge] then true
    else if effects == [TryCatchFish] then false
    else armed
  }

  /**
   * Whatever the notifications and presses, the button asks the mini-game to
   * resolve a catch only after it has activated one, and at most once per
   * activation: CatchFish is entered only by a press in FishingChallenge.
   */
  lemma {:induction false} RunCatchesFollowActivation(t: ActionType, armed: bool, inputs: seq<Input>)
    requires t == CatchFish ==> armed
    ensures CatchesFollowActivation(Run(t, inputs).1, armed)
    decreases |inputs|
  {
    if inputs != [] {
      var (next, effects) := Step(t, inputs[0]);
      var (last, rest) := Run(next, inputs[1..]);
      var armed' := ArmedAfter(effects, armed);
      RunCatchesFollowActivation(next, armed', inputs[1..]);
      if effects == [] {
        assert effects + rest == rest;
      } else {
        assert effects == [effects[0]];
        assert (effects + rest)[0] == effects[0] && (effects + rest)[1..] == rest;
      }
    }
  }

  /** From start-up, the session used to fish: approach a fishing place,
      press twice, and the button is back to None. */
  lemma FishingSession()
    ensures Run(None, [Nearby(FishingPlaceNearby, true), Press, Press]) ==
              (None, [ActivateChallenge, TryCatchFish])
  {
    assert [Press][1..] == [];
    assert [TryCatchFish] + [] == [TryCatchFish];
    assert Run(CatchFish, [Press]) == (None, [TryCatchFish]);
    assert [Press, Press][1..] == [Press];
    assert [ActivateChallenge] + [TryCatchFish] == [ActivateChallenge, TryCatchFish];
    assert Run(FishingChallenge, [Press, Press]) == (None, [ActivateChallenge, TryCatchFish]);
    assert [Nearby(FishingPlaceNearby, true), Press, Press][1..] == [Press, Press];
    assert [] + [ActivateChallenge, TryCatchFish] == [ActivateChallenge, TryCatchFish];
  }

  class ActionButton {
    var actionType: ActionType
    var shownAsset: AssetId
    const assets: ActionButtonAssets
    /** The calls made into other components, oldest first. */
    ghost var effects: seq<Effect>

    /** The button shows the asset of its mode. */
    ghost predicate Valid()
      reads this
    {
      shownAsset == AssetFor(assets, actionType)
    }

    /** The serialized state before Start: any mode and any shown asset. */
    constructor (assets: ActionButtonAssets, serializedType: ActionType, initialAsset: AssetId)
      ensures this.assets == assets && actionType == serializedType
      ensures shownAsset == initialAsset && effects == []
    {
      this.assets := assets;
      actionType := serializedType;
      shownAsset := initialAsset;
      effects := [];
    }

    method Start()
      modifies this`actionType, this`shownAsset
      ensures Valid() && actionType == None
    {
      SwitchAction(None);
    }

    method SwitchAction(t: ActionType)
      modifies this`actionType, this`shownAsset
      ensures Valid() && actionType == t
    {
      actionType := t;
      match actionType {
        case None => Initialize(assets.none);
        case FishingChallenge => Initialize(assets.fishingChallenge);
        case CatchFish => Initialize(assets.catchFish);
        case Market => Initialize(assets.market);
        case BoatShop => Initialize(assets.boatShop);
        case FishingRodShop => Initialize(assets.fishingRodShop);
        case Workshop => Initialize(assets.workshop);
      }
    }

    /** Shows an asset. */
    method Initialize(asset: AssetId)
      modifies this`shownAsset
      ensures shownAsset == asset
    {
      shownAsset := asset;
    }

    method DoAction()
      requires Valid()
      modifies this`actionType, this`shownAsset, this`effects
      ensures Valid()
      ensures actionType == PressMode(old(actionType))
      ensures effects == old(effects) + PressEffects(old(actionType))
    {
      match actionType {
        case None =>
        case FishingChallenge =>
          effects := effects + [ActivateChallenge];
          SwitchAction(CatchFish);
        case CatchFish =>
          effects := effects + [TryCatchFish];
          SwitchAction(None);
        case Market =>
          effects := effects + [OpenMarket];
        case BoatShop =>
          effects := effects + [OpenBoatShop];
        case FishingRodShop =>
          effects := effects + [OpenFishingRodShop];
        case Workshop =>
          effects := effects + [OpenWorkshop];
      }
    }

    method DoOnFishingPlaceNearby(nearby: bool)
      modifies this`actionType, this`shownAsset
      ensures Valid() && actionType == NearbyMode(FishingPlaceNearby, nearby)
    {
      if nearby {
        SwitchAction(FishingChallenge);
      } else {
        SwitchAction(None);
      }
    }

    method DoOnMarketNearby(nearby: bool)
      modifies this`actionType, this`shownAsset
      ensures Valid() && actionType == NearbyMode(MarketNearby, nearby)
    {
      if nearby {
        SwitchAction(Market);
      } else {
        SwitchAction(None);
      }
    }

    method DoOnBoatShopNearby(nearby: bool)
      modifies this`actionType, this`shownAsset
      ensures Valid() && actionType == NearbyMode(BoatShopNearby, nearby)
    {
      if nearby {
        SwitchAction(BoatShop);
      } else {
        SwitchAction(None);
      }
    }

    method DoOnFishingRodShopNearby(nearby: bool)
      modifies this`actionType, this`shownAsset
      ensures Valid() && actionType == NearbyMode(FishingRodShopNearby, nearby)
    {
      if nearby {
        SwitchAction(FishingRodShop);
      } else {
        SwitchAction(None);
      }
    }

    method DoOnWorkshopNearby(nearby: bool)
      modifies this`actionType, this`shownAsset
      ensures Valid() && actionType == NearbyMode(WorkshopNearby, nearby)
    {
      if nearby {
        SwitchAction(Workshop);
      } else {
        SwitchAction(None);
      }
    }
  }
}
