# ShipMOTORIKA gameplay state machines, modelled in Dafny

This project models five small gameplay components of the ShipMOTORIKA boat-fishing game and proves what they promise.

- **Challenge** (`challenge.dfy`) is the fishing timing mini-game. The player's circle scale sweeps as a triangle wave between 1 and 6. Each frame moves it by the rod speed times the frame time. A commit press succeeds when the scale is in the inclusive band [3, 4], and the component then disables itself.
- **Rod** (`rod.dfy`) is the fishing rod. A trigger guard keeps at most one fishing point active. Leaving a point triggers a re-scan that activates the nearest fishing point; among equally near points, the first one found wins. The module also covers the rod's asset parameters and the caught fish.
- **ActionButtons** (`action_button.dfy`) is the universal action button. It has seven modes, changed by presses and by "nearby" notifications. Each press makes at most one call into another component.
- **ShipHealth** (`health.dfy`) is the ship's integer health. It covers the clamped change, the guarded setters, restore, load and save, and the collision rule, including the exact firing of `OnDeath` and `OnHealthChanged`.
- **Shopping** (`upgrade.dfy`) is a shop upgrade's buy button. It has three button states and a one-way "bought" flag.
- **Options** (`options.dfy`) is the optional-value type that stands for nullable references.
- **Integers** (`integers.dfy`) holds the integer absolute value shared by the health and shop models.

Every component is a Dafny `class` holding the fields of the source that its modelled behaviour reads or writes, with one method per modelled source method; the engine callbacks, rendering fields and damage parameters listed under "## Left out" have none. Each method's `ensures` ties the new state to a pure function of the old state:

- `Advance` for the mini-game scale;
- `FishingPointsOf` and `IsFirstNearest` for the rod's re-scan;
- `PressMode`, `PressEffects` and `NearbyMode` for the button;
- `HealthAfterChange` and `LoadedHealth` for health;
- `Updated` and `Bought` for the upgrade.

Lemmas about those functions state the properties that hold across many calls. Calls into components that are not modelled are recorded in ghost logs: events, effects and catch results.

The model keeps these behaviours of the code exactly as written:

- The mini-game never clamps the scale. It moves first and flips direction only once a bound has been reached or crossed, so the scale can overshoot either bound by up to one step (`Challenge.OvershootPastMax`). So a full sweep of total movement 10 does not in general bring the scale back exactly to the minimum.
- The mini-game has no separate idle, running or resolved states and no error results. A commit disables the component, and a disabled component gets no more frames.
- The rod does not keep a set of candidates. It re-scans only after an exit. An enter while a point is already active is absorbed silently.
- On exit, the rod deactivates the point that was left, which need not be the active one. The active point is then cleared without being deactivated. The model keeps this order of events.

Inputs that come from the engine or from components that are not modelled are parameters:

- the frame time (non-negative);
- whether the commit key was pressed in a frame;
- the rod speed;
- the overlap hits, each a fishing point identity or none, plus a distance;
- the collision layer and the integer collision damage;
- the player's money;
- the saved health value;
- whether a scene data handler exists.

## Model

| member | source | states |
|---|---|---|
| `Challenge.Advance` | Assets/Scripts/Fishing/FishingChallenge.cs:74-93 | a tick moves the scale by exactly the step in the current direction, flips the direction exactly when the moved scale has reached the bound it was heading for (>= 6 growing, <= 1 shrinking), and leaves the direction invariant (growing ⇒ scale < 6, shrinking ⇒ scale > 1) holding |
| `Challenge.StepWithinOvershoot` | Assets/Scripts/Fishing/FishingChallenge.cs:74-93 | one tick of at most d keeps a scale in [1-d, 6+d] when the direction invariant holds |
| `Challenge.RunWithinOvershoot` | Assets/Scripts/Fishing/FishingChallenge.cs:74-93 | over any run of ticks each at most d, the scale stays in [1-d, 6+d] and the direction invariant keeps holding |
| `Challenge.GrowingRun` | Assets/Scripts/Fishing/FishingChallenge.cs:85-93 | while the accumulated movement stays below the maximum, the circle keeps growing and its scale is the start plus the sum of the steps |
| `Challenge.StartGrows` | Assets/Scripts/Fishing/FishingChallenge.cs:58-60 | from the reset state, any run whose total movement is below one sweep (5) is the monotone rise 1 + total, still growing |
| `Challenge.OvershootBoundSharp` | Assets/Scripts/Fishing/FishingChallenge.cs:74-93 | the bound [1-d, 6+d] cannot be tightened: for every margin e in (0, d], a state satisfying the direction invariant ends within e of 6+d after one step of d, and another within e of 1-d |
| `Challenge.OvershootPastMax` | Assets/Scripts/Fishing/FishingChallenge.cs:76-93 | concrete overshoots: 5.5 growing by 1 gives 6.5 and flips; 6.5 shrinking by 6 gives 0.5 and flips back |
| `Challenge.FirstFrameScenarios` | Assets/Scripts/Fishing/FishingChallenge.cs:22-26 | at speed 1 from the start, a frame of 2.5 gives 3.5, inside the band; a frame of 0.5 gives 1.5, outside it |
| `Challenge.FishingChallenge.constructor` | Assets/Scripts/Fishing/FishingChallenge.cs:28-31 | before Start: scale 0, growing, speed 1, enabled, no result reported |
| `Challenge.FishingChallenge.Start` | Assets/Scripts/Fishing/FishingChallenge.cs:33-38 | takes the rod's speed and resets to scale 1, growing |
| `Challenge.FishingChallenge.SaveParametrs` | Assets/Scripts/Fishing/FishingChallenge.cs:52-61 | scale becomes the minimum 1 and the direction growing |
| `Challenge.FishingChallenge.RestoreParametrs` | Assets/Scripts/Fishing/FishingChallenge.cs:63-72 | scale becomes the minimum 1 and the direction growing |
| `Challenge.FishingChallenge.DoCircleAnimation` | Assets/Scripts/Fishing/FishingChallenge.cs:74-96 | the new scale and direction are `Advance` of the old ones by speed × frame time |
| `Challenge.FishingChallenge.TryCatchFish` | Assets/Scripts/Fishing/FishingChallenge.cs:98-116 | reports exactly one result, true iff 3 <= scale <= 4 (both ends included), and starts the self-destroy |
| `Challenge.FishingChallenge.Update` | Assets/Scripts/Fishing/FishingChallenge.cs:40-50 | an enabled component ticks; a commit press then disables it and reports the verdict on the ticked scale; a disabled component changes nothing, so no tick or commit follows a commit |
| `Challenge.FishingChallenge.DestroyItself` | Assets/Scripts/Fishing/FishingChallenge.cs:118-124 | after the wait, the scale and direction are reset, the object is destroyed and OnDestroy is sent |
| `Rod.FishingPointsOf` | Assets/Scripts/Fishing/FishingRod.cs:133-141 | the candidates are exactly the hits that carry a fishing point (membership in both directions, with their distances), no more of them than hits |
| `Rod.FirstNearestUnique` | Assets/Scripts/Fishing/FishingRod.cs:143-155 | at most one candidate is nearest and strictly nearer than every earlier one, so the re-scan's choice is determined |
| `Rod.NearestScenarios` | Assets/Scripts/Fishing/FishingRod.cs:146-155 | A at 5 then B at 2 selects B; two equally near points select the first and not the second |
| `Rod.CollectFishingPoints` | Assets/Scripts/Fishing/FishingRod.cs:133-141 | the filtering loop builds exactly `FishingPointsOf(hits)`, in hit order |
| `Rod.ClosestFishingPoint` | Assets/Scripts/Fishing/FishingRod.cs:143-155 | the `<` scan from an infinite minimum returns nothing iff there are no candidates, otherwise the point of the candidate that is nearest and strictly nearer than all earlier ones (the first on ties) |
| `Rod.FishingRod.constructor` | Assets/Scripts/Fishing/FishingRod.cs:56-68 | a new rod is untriggered, with no active point and no caught fish |
| `Rod.FishingRod.Start` | Assets/Scripts/Fishing/FishingRod.cs:71-74 | initializes the rod from its asset |
| `Rod.FishingRod.OnTriggerEnter2D` | Assets/Scripts/Fishing/FishingRod.cs:80-92 | a collider without a fishing point, or any enter while triggered, changes nothing and fires nothing; otherwise the point becomes active, then SetActive(true) and nearby(true) fire; the guard holds iff a point is active |
| `Rod.FishingRod.OnTriggerExit2D` | Assets/Scripts/Fishing/FishingRod.cs:98-110 | a collider without a fishing point changes nothing; otherwise the exiting point is deactivated, the active point cleared, nearby(false) fired and the hits re-scanned: with no fishing point among them the rod stays untriggered, otherwise the first nearest becomes active with SetActive(true), nearby(true) |
| `Rod.FishingRod.FindFishNearby` | Assets/Scripts/Fishing/FishingRod.cs:127-168 | when untriggered and some hit is a fishing point, the first nearest one becomes active and SetActive(true), nearby(true) fire; otherwise nothing changes; the guard holds iff a point is active |
| `Rod.FishingRod.Initialize` | Assets/Scripts/Fishing/FishingRod.cs:174-183 | name, description, speed, radius and cost are copied from the asset and the collider radius equals the rod radius |
| `Rod.FishingRod.AssignFish` | Assets/Scripts/Fishing/FishingRod.cs:189-194 | stores the given fish exactly, none included, and fires OnFishAssigned |
| `Rod.FishingRod.TryPutFishInShip` | Assets/Scripts/Fishing/FishingRod.cs:199-206 | no effect without a fish; otherwise the fish's weight and then its cost are added to the ship's container |
| `ActionButtons.ActionOf` | Assets/Scripts/UI/ActionButton_UI/ActionButton.cs:164-222 | a nearby(true) notification never selects None or CatchFish |
| `ActionButtons.SourceOf` | Assets/Scripts/UI/ActionButton_UI/ActionButton.cs:164-222 | every mode a notification can select comes from exactly one source (inverse of `ActionOf`) |
| `ActionButtons.ActionOfInjective` | Assets/Scripts/UI/ActionButton_UI/ActionButton.cs:164-222 | different sources select different modes |
| `ActionButtons.NearbyMode` | Assets/Scripts/UI/ActionButton_UI/ActionButton.cs:164-222 | the mode after a notification is None iff it says "not nearby", whatever the current mode; a "nearby" notification selects the mode belonging to its source |
| `ActionButtons.PressMode` | Assets/Scripts/UI/ActionButton_UI/ActionButton.cs:114-162 | a press moves FishingChallenge to CatchFish and CatchFish to None, and leaves every other mode unchanged |
| `ActionButtons.PressEffects` | Assets/Scripts/UI/ActionButton_UI/ActionButton.cs:114-162 | a press in None calls nothing; in any other mode it makes exactly one call |
| `ActionButtons.RunCatchesFollowActivation` | Assets/Scripts/UI/ActionButton_UI/ActionButton.cs:114-136 | over any sequence of presses and notifications, every TryCatchFish call follows an Activate call with no other TryCatchFish in between |
| `ActionButtons.FishingSession` | Assets/Scripts/UI/ActionButton_UI/ActionButton.cs:123-136 | from None: fishing place nearby, press, press gives calls Activate then TryCatchFish and ends in None |
| `ActionButtons.ActionButton.constructor` | Assets/Scripts/UI/ActionButton_UI/ActionButton.cs:22-44 | the serialized mode `_type` and the seven per-mode assets are taken as given, with whatever asset happens to be shown, and no call made yet |
| `ActionButtons.ActionButton.Start` | Assets/Scripts/UI/ActionButton_UI/ActionButton.cs:47-57 | the mode becomes None and the None asset is shown |
| `ActionButtons.ActionButton.SwitchAction` | Assets/Scripts/UI/ActionButton_UI/ActionButton.cs:78-112 | the mode becomes t and the shown asset is exactly the one serialized for t |
| `ActionButtons.ActionButton.Initialize` | Assets/Scripts/UI/ActionButton_UI/ActionButton.cs:70-76 | the given asset is shown |
| `ActionButtons.ActionButton.DoAction` | Assets/Scripts/UI/ActionButton_UI/ActionButton.cs:114-162 | the new mode is `PressMode` of the old, the calls made are `PressEffects` of the old mode, and the shown asset still matches the mode |
| `ActionButtons.ActionButton.DoOnFishingPlaceNearby` | Assets/Scripts/UI/ActionButton_UI/ActionButton.cs:164-174 | the mode becomes FishingChallenge on true, None on false, with its asset shown |
| `ActionButtons.ActionButton.DoOnMarketNearby` | Assets/Scripts/UI/ActionButton_UI/ActionButton.cs:176-186 | the mode becomes Market on true, None on false, with its asset shown |
| `ActionButtons.ActionButton.DoOnBoatShopNearby` | Assets/Scripts/UI/ActionButton_UI/ActionButton.cs:188-198 | the mode becomes BoatShop on true, None on false, with its asset shown |
| `ActionButtons.ActionButton.DoOnFishingRodShopNearby` | Assets/Scripts/UI/ActionButton_UI/ActionButton.cs:200-210 | the mode becomes FishingRodShop on true, None on false, with its asset shown |
| `ActionButtons.ActionButton.DoOnWorkshopNearby` | Assets/Scripts/UI/ActionButton_UI/ActionButton.cs:212-222 | the mode becomes Workshop on true, None on false, with its asset shown |
| `ShipHealth.Clamp` | Assets/Scripts/Ship/Health.cs:105 | with min <= max the result lies in [min, max] and equals the value iff the value is in range; it is always min, max or the value |
| `ShipHealth.ClampIsNearest` | Assets/Scripts/Ship/Health.cs:105 | the clamped value is a point of [min, max] nearest to the value |
| `ShipHealth.HealthAfterChange` | Assets/Scripts/Ship/Health.cs:101-114 | a zero amount leaves health alone; a nonzero amount gives health in [0, max] when max >= 0, equal to current + amount when that is in range |
| `ShipHealth.ChangesStayInRange` | Assets/Scripts/Ship/Health.cs:101-114 | health that starts in [0, max] stays there through any sequence of changes |
| `ShipHealth.DamageOnlyLowers` | Assets/Scripts/Ship/Health.cs:101-114 | a sequence of non-positive changes never raises health, and health at 0 stays 0 |
| `ShipHealth.CollisionAmount` | Assets/Scripts/Ship/Health.cs:71 | the change a collision requests is never positive and has the damage's magnitude |
| `ShipHealth.LoadedHealth` | Assets/Scripts/Ship/Health.cs:116-126 | load yields the saved value when positive, the maximum otherwise, and so a positive health whenever the maximum is positive |
| `ShipHealth.SaveLoadRoundTrip` | Assets/Scripts/Ship/Health.cs:116-131 | calling Save and then Load with the saved value on a component with positive health leaves health and maximum unchanged and fires exactly one OnHealthChanged |
| `ShipHealth.Health.constructor` | Assets/Scripts/Ship/Health.cs:14-40 | the serialized maximum, current health and indestructible flag, with no events |
| `ShipHealth.Health.Start` | Assets/Scripts/Ship/Health.cs:53-59 | a non-positive health is restored to the maximum with one OnHealthChanged; a positive one is untouched |
| `ShipHealth.Health.OnCollisionEnter2D` | Assets/Scripts/Ship/Health.cs:61-73 | a collision on layer 9 or while indestructible changes nothing and fires nothing; any other applies the change `-|damage|`, firing nothing for zero damage, OnDeath then OnHealthChanged when health ends at 0, and OnHealthChanged alone otherwise; a non-negative health never increases |
| `ShipHealth.Health.SetCurrentHealth` | Assets/Scripts/Ship/Health.cs:76-84 | values <= 0 are ignored; a positive value is taken as is, not clamped to the maximum, with OnHealthChanged |
| `ShipHealth.Health.SetMaxHealth` | Assets/Scripts/Ship/Health.cs:86-92 | values <= 0 are ignored; current health is never touched |
| `ShipHealth.Health.RestoreHealth` | Assets/Scripts/Ship/Health.cs:94-99 | current health becomes the maximum, with OnHealthChanged |
| `ShipHealth.Health.TryChangeHealthAmount` | Assets/Scripts/Ship/Health.cs:101-114 | the new health is `HealthAfterChange`; a zero amount fires nothing; otherwise OnDeath fires first iff the result is 0 (also at 0 already), then OnHealthChanged always |
| `ShipHealth.Health.Load` | Assets/Scripts/Ship/Health.cs:116-126 | the new health is `LoadedHealth(saved, max)`; a non-positive saved value fires OnHealthChanged twice, a positive one once |
| `ShipHealth.Health.Save` | Assets/Scripts/Ship/Health.cs:128-131 | the value written is the current health |
| `Shopping.ButtonFor` | Assets/Scripts/UI/Shopping_UI/Upgrade.cs:40-62 | interactable iff available and money >= cost (equality affordable); interactable iff labelled "Купить"; "Нет денег" iff available and money < cost; "Приобретено" iff unavailable |
| `Shopping.LabelDeterminesCase` | Assets/Scripts/UI/Shopping_UI/Upgrade.cs:40-62 | two button states with the same label agree on availability and, when available, on affordability |
| `Shopping.PurchaseCharge` | Assets/Scripts/UI/Shopping_UI/Upgrade.cs:66 | the money change requested is never positive, whatever the sign of the cost, and has the cost's magnitude |
| `Shopping.Updated` | Assets/Scripts/UI/Shopping_UI/Upgrade.cs:40-62 | a refresh keeps the cost and availability and makes the button interactable iff available and affordable |
| `Shopping.Bought` | Assets/Scripts/UI/Shopping_UI/Upgrade.cs:64-70 | after a purchase the upgrade is unavailable and the button disabled with "Приобретено", whatever the money |
| `Shopping.UpdatedIdempotent` | Assets/Scripts/UI/Shopping_UI/Upgrade.cs:40-62 | refreshing twice with the same money equals refreshing once; buying twice equals buying once |
| `Shopping.BoughtStaysBought` | Assets/Scripts/UI/Shopping_UI/Upgrade.cs:64-70 | no sequence of later refreshes, whatever the money, changes a bought upgrade's state |
| `Shopping.Upgrade.constructor` | Assets/Scripts/UI/Shopping_UI/Upgrade.cs:24-25 | a new upgrade is available (`_isAvailable = true`), with its cost and button state as given and no effect requested |
| `Shopping.Upgrade.UpdateButton` | Assets/Scripts/UI/Shopping_UI/Upgrade.cs:40-62 | the new state is `Updated` of the old with the player's money |
| `Shopping.Upgrade.TryBuyUpgrade` | Assets/Scripts/UI/Shopping_UI/Upgrade.cs:64-75 | the new state is `Bought` of the old; the effects are the charge `-|cost|`, OnUpgrade and, when a scene data handler exists, a save, in that order |

## Left out

- Rendering: the circle image's colours and local scale, the defaults SaveParametrs/RestoreParametrs keep for them, and the sprite, colour and text ActionButton.Initialize copies from an asset. The model records only which asset is shown.
- Engine timing and input: the wait in FishingChallenge.DestroyItself (modelled as DestroyItself being callable once it has been scheduled), `Input` polling (a boolean per frame), and the engine's frame clock (a non-negative frame time).
- Engine physics and float geometry: `Physics2D.OverlapCircleAll`, `Vector2.Distance`, collision `relativeVelocity`, and the rounding of collision damage from the damage constant and multiplier. Hits, distances and integer damage are inputs.
- Floating point: the scale, speeds, radii and distances are exact reals, so neither float rounding nor NaN is modelled.
- Components that are not part of this model: `Money`, `FishContainer`, `SceneDataHandler`, `Player.Instance`, the FishingPoint component, and the mini-game's `Instance`/`Activate` used by the button. Calls to them are logged effects.
- Event subscription and unsubscription (ActionButton.Start/OnDestroy, Health.Awake, Upgrade.Awake), and the unguarded invocation of `OnFishingPlaceNearby` when it has no subscriber.
- Editor gizmos and `Debug.Log`.
- Upgrade's empty virtual Initialize, Load and Save. They do nothing and are overridden elsewhere.
- The save-position, ship-restorer and caught-fish UI files, which only move data between other components.
- ShipHealth.Health.TryChangeHealthAmount: health arithmetic uses unbounded integers. The source's 32-bit `current + amount`, and `Math.Abs` of the smallest 32-bit integer (which throws), are not modelled; game health values stay far from those limits.
- Shopping.PurchaseCharge: the cost is an unbounded integer, so the `OverflowException` that `-Math.Abs` throws for the smallest 32-bit cost is not modelled (`Shopping.Upgrade.TryBuyUpgrade` requests a charge there instead); upgrade costs stay far from that limit.
- ShipHealth.DamageOnlyLowers: stated for a non-negative maximum. A negative serialized maximum makes the clamp return that negative maximum, and later damage can then raise health to 0.
