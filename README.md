# Heroes: the combat rules of a small turn-based RPG

This project models `heroes.py`, the combat-rules engine of a turn-based
role-playing game, and proves properties of it in Dafny 4.11. The engine has a
base hero and three archetypes:

- The base **hero** holds health (`hp`), power and an alive flag. Every write of
  health is clamped at 0. The shared `take_damage` step marks the hero dead when
  its health is not positive. The shared `make_a_move` step raises power by 0.1.
- The **healer** attacks with half its power (floored). It takes 1.2 times the
  incoming damage. It heals a target by a magic power of 30, which is fixed when
  the healer is created.
- The **tank** attacks with its power, or half of it (floored) while its shield
  is raised. Raising the shield doubles defense and halves power (floored).
  Lowering it does the reverse. Incoming damage is floor-divided by defense while
  the shield is raised.
- The **attacker** has a damage multiplier. It attacks for power times the
  multiplier and then halves the multiplier. It takes damage times half the
  multiplier. `power_up` doubles the multiplier and `power_down` halves it.

On each turn a hero grows stronger, picks a target and picks one action from
its archetype's list. The healer picks its target among its friends, so its
attack is friendly fire. The tank and the attacker pick among their enemies.

The hero is a single class `Heroes.Hero`. Its `role` field holds the
archetype and the state only that archetype has (`HealerRole(magicPower)`, `TankRole(defense, shieldRaised)`,
`AttackerRole(powerMultiply)`). Every polymorphic call dispatches on `role`.
`Stats` is the value view of a hero (`View()`). The functions `AfterHit`,
`Grown`, `Raised`, `Lowered`, `PoweredUp`, `PoweredDown`, `OwnEffect` and
`TargetEffect` say what each operation does to that view. Each mutating method
ensures `View() == F(old(View()))` for its function `F`. The lemmas prove
properties of those functions.

Two ghost fields support the proofs:

- `lastReceived` records the amount each `take_damage` hands to the shared base
  step. It makes each archetype's damage scaling visible.
- `doublings` is the exponent of an attacker's multiplier. The invariant
  `Valid()` ties the multiplier to `Pow2(doublings)`.

Numbers (health, power, damage, multiplier) are exact `real`s. Python's `//` is
`FloorDiv` (`.Floor`). Defense is an `int`.

The random choices in `make_a_move` are parameters of `MakeAMove`:
`targetIndex` selects the target from the roster and `actionIndex` selects the
action from `Actions(role)`.

The model follows the code. Where the code and its comments disagree:

- No path subtracts damage from health. The base `take_damage`
  (heroes.py:50-56) only updates the alive flag. A hero's health therefore only
  changes through `set_hp` and `heal`. `ActionsNeverReviveOrWound` proves it.
  The tank deals 10, which the healer's `take_damage` raises to 12 before the
  base step; the healer keeps all 150 health, where the comment at
  heroes.py:122 says damage is then taken from health (`TankHitsFreshHealer`,
  `DamageExamples`).

What the code does and does not guarantee:

- `alive == (hp > 0)` is not an invariant of the code. A hero marked dead at
  0 health can be healed back to 30 health and still be dead
  (`DeadHealedStaysDead`). What holds: `hp >= 0` always, and nothing sets
  `alive` back to true.
- Can `defense` reach 0? With only the shield toggles it cannot: a tank's
  defense is 2 when its shield is raised and 1 otherwise (`TurnsKeepRoleValid`).

## Model

| member | source | states |
|---|---|---|
| `Heroes.Clamp` | heroes.py:29-30 | the health written by `set_hp` is `max(v, 0)`: never negative, at least `v`, and either `v` or 0 |
| `Heroes.FloorDiv` | heroes.py:162-165 | Python's `//` by a non-zero integer gives a whole number `r` with `r <= x / n < r + 1` |
| `Heroes.Pow2` | heroes.py:221-225 | every power of two reached by doubling and halving is strictly positive, so the multiplier never reaches 0 |
| `Heroes.Actions` | heroes.py:103 | each archetype's action list is non-empty and starts with attack; heal is in it exactly for the healer, the shield toggles exactly for the tank (line 174), the power toggles exactly for the attacker (line 234) |
| `Heroes.Roster` | heroes.py:100 | the healer picks its target among its friends; the tank (line 171) and the attacker (line 231) pick among their enemies |
| `Heroes.Fresh` | heroes.py:20-24 | a new hero of any archetype has health 150, power 10 and is alive |
| `Heroes.Turns` | heroes.py:58-60 | a hero's state after a series of its own turns, each the 0.1 growth followed by the chosen action's own effect (lines 176-181, 236-241); the archetype's action list never changes. It assumes no turn targets the hero itself and nobody acts on it in between |
| `Heroes.Outgoing` | heroes.py:154-160 | the damage an attack hands on: for a healer (lines 85-86) and a tank with raised shield, the whole number r with r <= power/2 < r + 1; for a tank with lowered shield, its power; for an attacker (line 213), power times multiplier; a non-attacker with non-negative power never deals more than its power or less than 0 |
| `Heroes.Incoming` | heroes.py:162-165 | the amount each archetype's `take_damage` hands to the base step: a healer takes 20% more (line 90); a tank with raised shield (defense 2) the whole number r with r <= d/2 < r + 1, with lowered shield d unchanged; an attacker d times half its multiplier (line 218); non-negative damage never becomes negative |
| `Heroes.AfterHit` | heroes.py:55-56 | the base damage step leaves health, power and role unchanged and leaves the hero alive exactly when it was alive and its health is positive |
| `Heroes.Grown` | heroes.py:58-60 | the base move step raises power by exactly 0.1 and changes nothing else |
| `Heroes.Raised` | heroes.py:142-146 | afterwards the shield is raised; a raised shield stays as it was; otherwise defense doubles and power becomes the whole number r with r <= power/2 < r + 1; health and life never change |
| `Heroes.Lowered` | heroes.py:148-152 | afterwards the shield is lowered; a lowered shield stays as it was; otherwise defense becomes its floored half and power doubles; health and life never change |
| `Heroes.PoweredUp` | heroes.py:221-222 | only the multiplier changes, and halving the new multiplier gives back the old one |
| `Heroes.PoweredDown` | heroes.py:224-225 | only the multiplier changes, doubling the new multiplier gives back the old one, and a positive multiplier stays positive |
| `Heroes.OwnEffect` | heroes.py:176-181 | the acting hero's own change under each action of the `if`/`elif` dispatch (also lines 105-108 and 236-241): it never changes the actor's own health or life, a healer is not changed by its own action, and the archetype stays the same |
| `Heroes.TargetEffect` | heroes.py:105-108 | the target's change under each action: its role and power never change, an attack can only mark it dead, a heal by a healer sets its health to the clamped sum with the magic power, and nothing else changes its health |
| `Heroes.DoubledHalf` | heroes.py:146 | twice the floored half of a power is that power exactly when it is an even whole number |
| `Heroes.HitMarksDeath` | heroes.py:50-56 | the base damage step is idempotent: a second hit with nothing changed changes nothing more (the alive rule itself is `AfterHit`'s contract) |
| `Heroes.ActionsNeverReviveOrWound` | heroes.py:50-56 | no action revives its actor or its target, and no action lowers anyone's health; only heal changes the target's health |
| `Heroes.ActionsKeepRoleValid` | heroes.py:128-152 | every action, on another hero or on the actor itself, keeps the archetype invariant: magic power 30, tank defense 2 exactly when raised and 1 otherwise, multiplier positive |
| `Heroes.ShieldTogglesIdempotent` | heroes.py:142-152 | raising a raised shield and lowering a lowered one change nothing |
| `Heroes.ShieldRoundTrip` | heroes.py:142-152 | raising then lowering the shield restores defense and the flag; power returns as twice its floored half, within 2 of the old power and never above it, and equal to it exactly when the old power is an even whole number |
| `Heroes.ShieldMitigates` | heroes.py:162-165 | with the shield raised a tank takes at most half of any non-negative damage and never less than 0; with it lowered the damage passes unchanged |
| `Heroes.PowerUpDownInverse` | heroes.py:221-225 | `power_up` then `power_down` restores the multiplier, and so does the reverse order |
| `Heroes.MultiplierScalesDamage` | heroes.py:212-219 | doubling the multiplier doubles both the attacker's outgoing damage and the damage it passes to its base step |
| `Heroes.TurnGrowsPower` | heroes.py:58-60 | every archetype's turn raises power by exactly 0.1 before acting; afterwards only a tank's effective shield toggle changes power (floored half, or double); a tank raising a raised shield or lowering a lowered one keeps the grown power |
| `Heroes.TurnsKeepRoleValid` | heroes.py:128-152 | over any series of its own turns the archetype invariant holds; a tank's defense stays 1 or 2 and never reaches 0 |
| `Heroes.TurnsScaleMultiplier` | heroes.py:202-241 | over any series of its own turns, a multiplier 2^e becomes 2^(e + power-ups - power-downs - attacks); every attack is followed by one halving |
| `Heroes.DamageExamples` | heroes.py:85-91 | a fresh tank deals 10, which a healer amplifies to 12; a raised shield of defense 2 turns 10 into 5; multiplier 4 turns 10 into 20; the hit healer keeps 150 health and stays alive |
| `Heroes.Hero.Healer` | heroes.py:78-80 | a new healer has 150 health, power 10, is alive, and its magic power is the snapshot 3 * 10 = 30 |
| `Heroes.Hero.Tank` | heroes.py:128-131 | a new tank has 150 health, power 10, is alive, with defense 1 and the shield lowered |
| `Heroes.Hero.Attacker` | heroes.py:202-204 | a new attacker has 150 health, power 10, is alive, with multiplier 1 |
| `Heroes.Hero.GetHp` | heroes.py:26-27 | returns the current health |
| `Heroes.Hero.SetHp` | heroes.py:29-30 | sets health to `max(v, 0)` and changes nothing else |
| `Heroes.Hero.GetPower` | heroes.py:32-33 | returns the current power |
| `Heroes.Hero.SetPower` | heroes.py:35-36 | sets power to any value and changes nothing else |
| `Heroes.Hero.IsAlive` | heroes.py:38-39 | returns the alive flag |
| `Heroes.Hero.GetMagicPower` | heroes.py:82-83 | a healer's magic power is always 30, whatever its current power |
| `Heroes.Hero.GetDefense` | heroes.py:133-134 | a tank's defense is 2 when its shield is raised and 1 otherwise |
| `Heroes.Hero.IsShieldRaised` | heroes.py:139-140 | returns whether the tank's shield is raised |
| `Heroes.Hero.GetPowerMultiply` | heroes.py:206-207 | an attacker's multiplier is always strictly positive |
| `Heroes.Hero.BaseTakeDamage` | heroes.py:50-56 | the shared damage step records the amount it was handed, leaves health and power as they were, and sets alive to `old(alive) && hp > 0` |
| `Heroes.Hero.TakeDamage` | heroes.py:89-91 | the amount handed to the base step is `Incoming`: 1.2 times the damage for a healer, floored division by defense for a tank with raised shield (lines 162-165), damage times half the multiplier for an attacker (lines 217-219); otherwise as the base step |
| `Heroes.Hero.RaiseShield` | heroes.py:142-146 | if lowered: raises the shield, doubles defense, floors half of power; if raised: no change; invariant kept |
| `Heroes.Hero.LowerShield` | heroes.py:148-152 | if raised: lowers the shield, halves defense, doubles power; if lowered: no change; invariant kept |
| `Heroes.Hero.PowerUp` | heroes.py:221-222 | doubles the multiplier, nothing else changes, and the multiplier stays a power of two |
| `Heroes.Hero.PowerDown` | heroes.py:224-225 | halves the multiplier, nothing else changes, and the multiplier stays a positive power of two |
| `Heroes.Hero.Attack` | heroes.py:212-215 | the target's base step receives `Incoming(target role, Outgoing(attacker))`: half power floored for a healer (lines 85-87), power or half power floored for a tank (lines 154-160), power times multiplier for an attacker; an attacker then halves its multiplier, one step down in its exponent; another target's exponent is untouched; correct also when the target is the attacker itself |
| `Heroes.Hero.Heal` | heroes.py:93-94 | the target's health rises by exactly the healer's magic power, with no ceiling, and nothing else changes |
| `Heroes.Hero.BaseMakeAMove` | heroes.py:58-60 | power rises by exactly 0.1 and nothing else changes |
| `Heroes.Hero.MakeAMove` | heroes.py:167-181 | after the 0.1 growth, exactly one action from the archetype's list is done on one roster member (friends for a healer, lines 96-108; enemies otherwise, lines 227-241); the actor and that target change as `OwnEffect` and `TargetEffect` say, nobody else changes, an attack hands the target the scaled damage, and an attacker's exponent moves by one step up for power-up and one down for power-down or attack |
| `Heroes.TankHitsFreshHealer` | heroes.py:154-165 | a fresh tank attacking a fresh healer leaves the healer with 150 health, alive |
| `Heroes.DeadHealedStaysDead` | heroes.py:93-94 | a tank put at 0 health and then hit is dead; a heal raises its health to 30 and it stays dead |
| `Heroes.HitAtZeroHealth` | heroes.py:50-56 | a hero put at 0 health dies on the next hit and stays at 0 health, dead, after another hit |

## Left out

- The `print` in the base `take_damage` (heroes.py:53) and the `__str__` methods: console output and formatting only.
- The `random` module: target and action choices are the `targetIndex` and `actionIndex` parameters of `MakeAMove`.
- Heroes.Hero.MakeAMove: requires a non-empty roster and in-range indices; where the source would raise `IndexError` from `random.choice`, the model has no error path.
- Floating point: `+ 0.1`, `* 1.2` and `/ 2` are exact real arithmetic, without IEEE rounding.
- The base `attack` and `__str__` that raise `NotImplementedError`: every role defines its own attack, so the error cannot arise.
- `Tank.set_defense` and `Attacker.set_power_multiply` as entry points for outside callers: nothing calls `set_power_multiply`, and `set_defense` is called only by the shield toggles (heroes.py:145, heroes.py:151), with twice or half the current defense; the model writes `role` directly inside `RaiseShield` and `LowerShield`. Leaving out outside calls keeps a tank's defense at 1 or 2, so `//` by defense never divides by 0.
- Heroes.Hero.TakeDamage: requires `Valid()`, which gives a tank a non-zero defense; the source would raise `ZeroDivisionError` only with a defense of 0, which needs the omitted `set_defense`.
- The `name` attribute is kept as an immutable field; Python's name-mangled private attributes are plain fields.
- The turn driver and match loop are not part of this model.
