/**
 * The ship's health: an integer current value kept within [0, max] by every
 * change, guarded setters, restore, load and save, and the collision rule.
 * The collision's damage is taken as an integer input (the engine computes it
 * from the impact speed); the saved value is the scene data's Health field.
 */
module ShipHealth {
  import opened Integers

  /** Collisions with objects on this layer never damage the ship. */
  const IgnoredCollisionLayer: int := 9

  datatype HealthEvent = HealthChanged | Death

  /** The engine's integer clamp: below `min` gives `min`, otherwise above
      `max` gives `max`, otherwise the value itself. */
  function Clamp(value: int, min: int, max: int): (r: int)
    ensures min <= max ==> min <= r <= max
    ensures min <= max ==> (r == value <==> min <= value <= max)
    ensures r == min || r == max || r == value
  {
    if value < min then min else if value > max then max else value
  }

  /** Of all values in [min, max], the clamp is one nearest to `value`. */
  lemma ClampIsNearest(value: int, min: int, max: int, y: int)
    requires min <= y <= max
    ensures Abs(Clamp(value, min, max) - value) <= Abs(y - value)
  {
  }

  /** The health after TryChangeHealthAmount(amount). */
  function HealthAfterChange(current: int, max: int, amount: int): (r: int)
    ensures amount == 0 ==> r == current
    ensures amount != 0 && 0 <= max ==> 0 <= r <= max
    ensures amount != 0 && 0 <= current + amount <= max ==> r == current + amount
  {
    if amount != 0 then Clamp(current + amount, 0, max) else current
  }

  /** The health after a sequence of TryChangeHealthAmount calls. */
  function HealthAfterChanges(current: int, max: int, amounts: seq<int>): int
    decreases |amounts|
  {
    if amounts == [] then current
    else HealthAfterChanges(HealthAfterChange(current, max, amounts[0]), max, amounts[1..])
  }

  /** Health that starts in [0, max] stays there through any changes. */
  lemma {:induction false} ChangesStayInRange(current: int, max: int, amounts: seq<int>)
    requires 0 <= current <= max
    ensures 0 <= HealthAfterChanges(current, max, amounts) <= max
    decreases |amounts|
  {
    if amounts != [] {
      ChangesStayInRange(HealthAfterChange(current, max, amounts[0]), max, amounts[1..]);
    }
  }

  /** Damage never raises health: a sequence of non-positive changes only
      lowers it, and once it is 0 it stays 0. */
  lemma {:induction false} DamageOnlyLowers(current: int, max: int, amounts: seq<int>)
    requires 0 <= current && 0 <= max
    requires forall i :: 0 <= i < |amounts| ==> amounts[i] <= 0
    ensures HealthAfterChanges(current, max, amounts) <= current
    ensures current == 0 ==> HealthAfterChanges(current, max, amounts) == 0
    decreases |amounts|
  {
    if amounts != [] {
      var next := HealthAfterChange(current, max, amounts[0]);
      assert 0 <= next <= current;
      assert forall i :: 0 <= i < |amounts[1..]| ==> amounts[1..][i] <= 0 by {
        forall i | 0 <= i < |amounts[1..]| ensures amounts[1..][i] <= 0 {
          assert amounts[1..][i] == amounts[i + 1];
        }
      }
      DamageOnlyLowers(next, max, amounts[1..]);
    }
  }

  /** The change a damaging collision requests. */
  function CollisionAmount(damage: int): (r: int)
    ensures r <= 0 && Abs(r) == Abs(damage)
  {
    -Abs(damage)
  }

  /** The health Load yields from a saved value. */
  function LoadedHealth(saved: int, max: int): (r: int)
    ensures saved > 0 ==> r == saved
    ensures saved <= 0 ==> r == max
    ensures max > 0 ==> r > 0
  {
    if saved > 0 then saved else max
  }

  class Health {
    var maxHealth: int
    var currentHealth: int
    var isIndestructible: bool
    /** OnHealthChanged and OnDeath invocations, oldest first. */
    ghost var events: seq<HealthEvent>

    /** The serialized state of the component. */
    constructor (maxHealth: int, currentHealth: int, isIndestructible: bool)
      ensures this.maxHealth == maxHealth && this.currentHealth == currentHealth
      ensures this.isIndestructible == isIndestructible && events == []
    {
      this.maxHealth := maxHealth;
      this.currentHealth := currentHealth;
      this.isIndestructible := isIndestructible;
      events := [];
    }

    method Start()
      modifies this`currentHealth, this`events
      ensures old(currentHealth) <= 0 ==>
                currentHealth == maxHealth && events == old(events) + [HealthChanged]
      ensures old(currentHealth) > 0 ==>
                currentHealth == old(currentHealth) && events == old(events)
    {
      if currentHealth <= 0 {
        RestoreHealth();
      }
    }

    /** A collision on the ignored layer, or while indestructible, changes
        nothing; any other applies minus the absolute damage. */
    method OnCollisionEnter2D(layer: int, damage: int)
      modifies this`currentHealth, this`events
      ensures layer == IgnoredCollisionLayer || isIndestructible ==>
                currentHealth == old(currentHealth) && events == old(events)
      ensures layer != IgnoredCollisionLayer && !isIndestructible ==>
                currentHealth == HealthAfterChange(old(currentHealth), maxHealth, CollisionAmount(damage)) &&
                events == old(events) + (if damage == 0 then []
                                         else if currentHealth == 0 then [Death, HealthChanged]
                                         else [HealthChanged])
      ensures 0 <= old(currentHealth) ==> currentHealth <= old(currentHealth)
    {
      if layer == IgnoredCollisionLayer {
        return;
      }
      if !isIndestructible {
        TryChangeHealthAmount(-Abs(damage));
      }
    }

    /** Accepts only positive values, and does not clamp them to the maximum. */
    method SetCurrentHealth(health: int)
      modifies this`currentHealth, this`events
      ensures health > 0 ==> currentHealth == health && events == old(events) + [HealthChanged]
      ensures health <= 0 ==> currentHealth == old(currentHealth) && events == old(events)
    {
      if health > 0 {
        currentHealth := health;
        events := events + [HealthChanged];
      }
    }

    /** Accepts only positive values and leaves the current health alone. */
    method SetMaxHealth(health: int)
      modifies this`maxHealth
      ensures maxHealth == if health > 0 then health else old(maxHealth)
    {
      if health > 0 {
        maxHealth := health;
      }
    }

    method RestoreHealth()
      modifies this`currentHealth, this`events
      ensures currentHealth == maxHealth && events == old(events) + [HealthChanged]
    {
      currentHealth := maxHealth;
      events := events + [HealthChanged];
    }

    /**
     * A zero amount changes nothing and fires nothing. Any other amount clamps
     * the sum into [0, max], fires OnDeath when the result is 0 (also when
     * health was 0 already) and then OnHealthChanged.
     */
    method TryChangeHealthAmount(amount: int)
      modifies this`currentHealth, this`events
      ensures currentHealth == HealthAfterChange(old(currentHealth), maxHealth, amount)
      ensures amount == 0 ==> events == old(events)
      ensures amount != 0 && currentHealth == 0 ==> events == old(events) + [Death, HealthChanged]
      ensures amount != 0 && currentHealth != 0 ==> events == old(events) + [HealthChanged]
    {
      if amount != 0 {
        currentHealth := Clamp(currentHealth + amount, 0, maxHealth);
        if currentHealth == 0 {
          events := events + [Death];
        }
        events := events + [HealthChanged];
      }
    }

    /** Takes the saved value, falling back to the maximum when it is not positive. */
    method Load(saved: int)
      modifies this`currentHealth, this`events
      ensures currentHealth == LoadedHealth(saved, maxHealth)
      ensures saved > 0 ==> events == old(events) + [HealthChanged]
      ensures saved <= 0 ==> events == old(events) + [HealthChanged, HealthChanged]
    {
      currentHealth := saved;
      if currentHealth <= 0 {
        RestoreHealth();
      }
      events := events + [HealthChanged];
    }

    /** The value written to the scene data. */
    method Save() returns (saved: int)
      ensures saved == currentHealth
    {
      saved := currentHealth;
    }
  }

  /** Saving a positive health and loading the saved value back restores it
      exactly and fires a single OnHealthChanged. */
  method SaveLoadRoundTrip(h: Health)
    requires h.currentHealth > 0
    modifies h
    ensures h.currentHealth == old(h.currentHealth) && h.maxHealth == old(h.maxHealth)
    ensures h.events == old(h.events) + [HealthChanged]
  {
    var saved := h.Save();
    h.Load(saved);
  }
}
