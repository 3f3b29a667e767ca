/**
 * A shop upgrade and its buy button. The button's state depends only on
 * whether the upgrade is still available and whether the player's money
 * covers the cost; buying makes the upgrade unavailable for good. The
 * player's money is an input; the money change, the OnUpgrade event and the
 * scene save are recorded as effects.
 */
module Shopping {
  import opened Integers

  const BuyLabel: string := "Купить"
  const NoMoneyLabel: string := "Нет денег"
  const BoughtLabel: string := "Приобретено"

  datatype ButtonState = ButtonState(interactable: bool, text: string)

  /** The button's three states. */
  function ButtonFor(available: bool, money: int, cost: int): (b: ButtonState)
    ensures b.interactable <==> available && money >= cost
    ensures b.interactable <==> b.text == BuyLabel
    ensures b.text == NoMoneyLabel <==> available && money < cost
    ensures b.text == BoughtLabel <==> !available
  {
    if available then
      if money >= cost then ButtonState(true, BuyLabel) else ButtonState(false, NoMoneyLabel)
    else ButtonState(false, BoughtLabel)
  }

  /** The label alone tells which of the three cases holds. */
  lemma LabelDeterminesCase(available: bool, money: int, cost: int,
                            available': bool, money': int, cost': int)
    requires ButtonFor(available, money, cost).text == ButtonFor(available', money', cost').text
    ensures available == available'
    ensures available ==> (money >= cost <==> money' >= cost')
  {
  }

  /** The money change a purchase requests: never positive, whatever the
      sign of the cost. */
  function PurchaseCharge(cost: int): (r: int)
    ensures r <= 0
    ensures r == cost || r == -cost
  {
    -Abs(cost)
  }

  /** The state UpdateButton and TryBuyUpgrade work on. */
  datatype UpgradeView = UpgradeView(cost: int, available: bool, button: ButtonState)

  /** UpdateButton with the given money. */
  function Updated(v: UpgradeView, money: int): (r: UpgradeView)
    ensures r.cost == v.cost && r.available == v.available
    ensures r.button.interactable <==> v.available && money >= v.cost
  {
    v.(button := ButtonFor(v.available, money, v.cost))
  }

  /** TryBuyUpgrade, with the money at the moment the button is refreshed. */
  function Bought(v: UpgradeView, money: int): (r: UpgradeView)
    ensures !r.available && r.cost == v.cost
    ensures r.button == ButtonState(false, BoughtLabel)
  {
    Updated(v.(available := false), money)
  }

  /** Refreshing twice is the same as refreshing once. */
  lemma UpdatedIdempotent(v: UpgradeView, money: int, money': int)
    ensures Updated(Updated(v, money), money) == Updated(v, money)
    ensures Bought(Bought(v, money), money') == Bought(v, money)
  {
  }

  /** After a purchase, no later refresh makes the button usable again. */
  lemma {:induction false} BoughtStaysBought(v: UpgradeView, money: int, later: seq<int>)
    ensures RefreshAll(Bought(v, money), later) == Bought(v, money)
    decreases |later|
  {
    if later != [] {
      assert Updated(Bought(v, money), later[0]) == Bought(v, money);
      BoughtStaysBought(v, money, later[1..]);
    }
  }

  function RefreshAll(v: UpgradeView, moneys: seq<int>): UpgradeView
    decreases |moneys|
  {
    if moneys == [] then v else RefreshAll(Updated(v, moneys[0]), moneys[1..])
  }

  datatype UpgradeEffect = MoneyChangeRequested(amount: int) | UpgradeEvent | SceneSaved

  class Upgrade {
    var upgradeCost: int
    var isAvailable: bool
    var interactable: bool
    var buttonText: string
    ghost var effects: seq<UpgradeEffect>

    function View(): UpgradeView
      reads this
    {
      UpgradeView(upgradeCost, isAvailable, ButtonState(interactable, buttonText))
    }

    /** A component as instantiated: available, with some cost and some button state. */
    constructor (upgradeCost: int, interactable: bool, buttonText: string)
      ensures View() == UpgradeView(upgradeCost, true, ButtonState(interactable, buttonText))
      ensures effects == []
    {
      this.upgradeCost := upgradeCost;
      isAvailable := true;
      this.interactable := interactable;
      this.buttonText := buttonText;
      effects := [];
    }

    /** `money` is the player's current money. */
    method UpdateButton(money: int)
      modifies this`interactable, this`buttonText
      ensures View() == Updated(old(View()), money)
    {
      if isAvailable {
        if money >= upgradeCost {
          interactable := true;
          buttonText := BuyLabel;
        } else {
          interactable := false;
          buttonText := NoMoneyLabel;
        }
      } else {
        interactable := false;
        buttonText := BoughtLabel;
      }
    }

    /**
     * Requests the charge, marks the upgrade bought, refreshes the button
     * with `moneyAfter` (the player's money once the charge is requested),
     * fires OnUpgrade and saves the scene when a scene data handler exists.
     */
    method TryBuyUpgrade(moneyAfter: int, sceneDataPresent: bool)
      modifies this`isAvailable, this`interactable, this`buttonText, this`effects
      ensures View() == Bought(old(View()), moneyAfter)
      ensures effects == old(effects) + [MoneyChangeRequested(PurchaseCharge(upgradeCost)), UpgradeEvent] +
                           (if sceneDataPresent then [SceneSaved] else [])
    {
      effects := effects + [MoneyChangeRequested(-Abs(upgradeCost))];
      isAvailable := false;
      UpdateButton(moneyAfter);
      effects := effects + [UpgradeEvent];
      if sceneDataPresent {
        effects := effects + [SceneSaved];
      }
    }
  }
}
