/*
 * The combat rules of a small turn-based RPG: a base hero with health, power
 * and a life flag, and three archetypes (healer, tank, attacker) that scale
 * outgoing and incoming damage by their own rules and pick one action per turn.
 *
 * The Python source has one abstract base class and three subclasses. Here the
 * hero is one class whose `role` field carries the archetype and the state that
 * only that archetype has; every polymorphic call dispatches on `role`.
 * `Stats` is the value view of a hero, and the functions over it specify what
 * each operation does to the state.
 */
module Heroes {

  /** Health of a new hero (class attribute `max_hp`; not enforced as a ceiling). */
  const MaxHp: real := 150.0
  /** Power of a new hero (class attribute `start_power`). */
  const StartPower: real := 10.0
  /** Power every hero gains at the start of each of its turns. */
  const Growth: real := 0.1

  /** The state only one archetype has. */
  datatype Role =
    | HealerRole(magicPower: real)
    | TankRole(defense: int, shieldRaised: bool)
    | AttackerRole(powerMultiply: real)

  /** The actions a hero may pick on its turn. */
  datatype Action = Attack | Heal | RaiseShield | LowerShield | PowerUp | PowerDown

  /** The observable state of a hero. */
  datatype Stats = Stats(hp: real, power: real, alive: bool, role: Role)

  // ---------------------------------------------------------------------------
  // Arithmetic of the source

  /** `max(v, 0)`: the health floor applied by every write of health. */
  function Clamp(v: real): (r: real)
    ensures r >= 0.0 && r >= v
    ensures r == v || r == 0.0
  {
    if v < 0.0 then 0.0 else v
  }

  /** Python's floor division `x // n` of a number by a non-zero integer. */
  function FloorDiv(x: real, n: int): (r: real)
    requires n != 0
    ensures r == r.Floor as real
    ensures r <= x / n as real < r + 1.0
  {
    (x / n as real).Floor as real
  }

  /** 2 to the power k, for any integer k. */
  function Pow2(k: int): (r: real)
    ensures r > 0.0
    decreases if k < 0 then -k else k
  {
    if k == 0 then 1.0
    else if k > 0 then 2.0 * Pow2(k - 1)
    else Pow2(k + 1) / 2.0
  }

  lemma Pow2Up(k: int)
    ensures Pow2(k + 1) == 2.0 * Pow2(k)
  {
  }

  lemma Pow2Down(k: int)
    ensures Pow2(k - 1) == Pow2(k) / 2.0
  {
    Pow2Up(k - 1);
  }

  // ---------------------------------------------------------------------------
  // Archetype invariants, action sets and targets

  /**
   * What each archetype keeps true: the healer's magic power is the snapshot
   * 3 * start power, a tank's defense is 2 exactly when its shield is raised
   * and 1 otherwise, and an attacker's multiplier is positive.
   */
  predicate RoleValid(role: Role)
  {
    match role
    case HealerRole(mp) => mp == 3.0 * StartPower
    case TankRole(defense, raised) => defense == if raised then 2 else 1
    case AttackerRole(m) => m > 0.0
  }

  /** The list each archetype's `make_a_move` draws its action from. */
  function Actions(role: Role): (r: seq<Action>)
    ensures |r| > 0 && r[0] == Attack
    ensures Heal in r <==> role.HealerRole?
    ensures RaiseShield in r <==> role.TankRole?
    ensures LowerShield in r <==> role.TankRole?
    ensures PowerUp in r <==> role.AttackerRole?
    ensures PowerDown in r <==> role.AttackerRole?
  {
    match role
    case HealerRole(_) => [Attack, Heal]
    case TankRole(_, _) => [Attack, RaiseShield, LowerShield]
    case AttackerRole(_) => [Attack, PowerUp, PowerDown]
  }

  /** The roster a hero draws its target from: the healer picks among its friends. */
  function Roster<T>(role: Role, friends: seq<T>, enemies: seq<T>): (r: seq<T>)
    ensures role.HealerRole? ==> r == friends
    ensures !role.HealerRole? ==> r == enemies
  {
    if role.HealerRole? then friends else enemies
  }

  /** A hero in its initial state. */
  function Fresh(role: Role): (r: Stats)
    ensures r.hp == MaxHp && r.power == StartPower && r.alive && r.role == role
  {
    Stats(MaxHp, StartPower, true, role)
  }

  // ---------------------------------------------------------------------------
  // Damage rules

  /** The damage a hero hands to its target's `take_damage` when it attacks. */
  function Outgoing(s: Stats): (r: real)
    ensures s.role.HealerRole? || (s.role.TankRole? && s.role.shieldRaised) ==>
              r == r.Floor as real && r <= s.power / 2.0 < r + 1.0
    ensures s.role.TankRole? && !s.role.shieldRaised ==> r == s.power
    ensures s.role.AttackerRole? ==> r == s.power * s.role.powerMultiply
    ensures !s.role.AttackerRole? && s.power >= 0.0 ==> 0.0 <= r <= s.power
  {
    match s.role
    case HealerRole(_) => FloorDiv(s.power, 2)
    case TankRole(_, raised) => if raised then FloorDiv(s.power, 2) else s.power
    case AttackerRole(m) => s.power * m
  }

  /** The amount a hero's `take_damage` hands to the shared base step. */
  function Incoming(role: Role, damage: real): (r: real)
    requires RoleValid(role)
    ensures role.HealerRole? ==> r == damage + damage / 5.0
    ensures role.TankRole? && role.shieldRaised ==>
              r == r.Floor as real && r <= damage / 2.0 < r + 1.0
    ensures role.TankRole? && !role.shieldRaised ==> r == damage
    ensures role.AttackerRole? ==> r == damage * role.powerMultiply / 2.0
    ensures damage >= 0.0 ==> r >= 0.0
  {
    match role
    case HealerRole(_) => 1.2 * damage
    case TankRole(defense, raised) => if raised then FloorDiv(damage, defense) else damage
    case AttackerRole(m) => damage * (m / 2.0)
  }

  // ---------------------------------------------------------------------------
  // State transitions

  /** The base `take_damage` step: health is untouched, the hero dies when health is not positive. */
  function AfterHit(s: Stats): (r: Stats)
    ensures r.alive <==> s.alive && s.hp > 0.0
    ensures r.hp == s.hp && r.power == s.power && r.role == s.role
  {
    s.(alive := s.alive && s.hp > 0.0)
  }

  /** The base `make_a_move` step. */
  function Grown(s: Stats): (r: Stats)
    ensures r.power == s.power + Growth
    ensures r.hp == s.hp && r.alive == s.alive && r.role == s.role
  {
    s.(power := s.power + Growth)
  }

  function Raised(s: Stats): (r: Stats)
    requires s.role.TankRole?
    ensures r.role.TankRole? && r.role.shieldRaised
    ensures r.hp == s.hp && r.alive == s.alive
    ensures s.role.shieldRaised ==> r == s
    ensures !s.role.shieldRaised ==>
              r.role.defense == 2 * s.role.defense &&
              r.power == r.power.Floor as real && r.power <= s.power / 2.0 < r.power + 1.0
  {
    if s.role.shieldRaised then s
    else s.(role := TankRole(s.role.defense * 2, true), power := FloorDiv(s.power, 2))
  }

  function Lowered(s: Stats): (r: Stats)
    requires s.role.TankRole?
    ensures r.role.TankRole? && !r.role.shieldRaised
    ensures r.hp == s.hp && r.alive == s.alive
    ensures !s.role.shieldRaised ==> r == s
    ensures s.role.shieldRaised ==>
              2 * r.role.defense <= s.role.defense < 2 * r.role.defense + 2 &&
              r.power == 2.0 * s.power
  {
    if !s.role.shieldRaised then s
    else s.(role := TankRole(s.role.defense / 2, false), power := s.power * 2.0)
  }

  function PoweredUp(s: Stats): (r: Stats)
    requires s.role.AttackerRole?
    ensures r.role.AttackerRole? && r.role.powerMultiply / 2.0 == s.role.powerMultiply
    ensures r.(role := s.role) == s
  {
    s.(role := AttackerRole(s.role.powerMultiply * 2.0))
  }

  function PoweredDown(s: Stats): (r: Stats)
    requires s.role.AttackerRole?
    ensures r.role.AttackerRole? && r.role.powerMultiply * 2.0 == s.role.powerMultiply
    ensures s.role.powerMultiply > 0.0 ==> r.role.powerMultiply > 0.0
    ensures r.(role := s.role) == s
  {
    s.(role := AttackerRole(s.role.powerMultiply / 2.0))
  }

  /**
   * What action `a` does to the acting hero itself. Like the source's
   * `if`/`elif` chains, an action outside the hero's own list does nothing.
   */
  function OwnEffect(a: Action, me: Stats): (r: Stats)
    ensures Actions(r.role) == Actions(me.role)
    ensures r.hp == me.hp && r.alive == me.alive
    ensures me.role.HealerRole? ==> r == me
    ensures a == Heal ==> r == me
  {
    match me.role
    case HealerRole(_) => me
    case TankRole(_, _) =>
      if a == RaiseShield then Raised(me)
      else if a == LowerShield then Lowered(me)
      else me
    case AttackerRole(_) =>
      if a == Attack || a == PowerDown then PoweredDown(me)
      else if a == PowerUp then PoweredUp(me)
      else me
  }

  /** What action `a` of hero `me` does to its target `tgt`. */
  function TargetEffect(a: Action, me: Stats, tgt: Stats): (r: Stats)
    ensures r.role == tgt.role && r.power == tgt.power
    ensures r.alive ==> tgt.alive
    ensures a != Attack ==> r.alive == tgt.alive
    ensures a != Heal || !me.role.HealerRole? ==> r.hp == tgt.hp
    ensures a == Heal && me.role.HealerRole? ==> r.hp == Clamp(tgt.hp + me.role.magicPower)
  {
    match a
    case Attack => AfterHit(tgt)
    case Heal => if me.role.HealerRole? then tgt.(hp := Clamp(tgt.hp + me.role.magicPower)) else tgt
    case _ => tgt
  }

  /**
   * The acting hero's own state after a series of its turns, each
   * growing its power and then performing the next action of `acts`
   * (no turn targets the hero itself and nobody acts on it in between).
   */
  function Turns(s: Stats, acts: seq<Action>): (r: Stats)
    ensures Actions(r.role) == Actions(s.role)
    decreases |acts|
  {
    if acts == [] then s else Turns(OwnEffect(acts[0], Grown(s)), acts[1..])
  }

  /** How one action of an attacker moves the exponent of its multiplier; an attack halves it too. */
  function Doubling(a: Action): int
  {
    match a
    case PowerUp => 1
    case PowerDown => -1
    case Attack => -1
    case _ => 0
  }

  /** The change of an attacker's multiplier exponent over `acts`. */
  function NetDoublings(acts: seq<Action>): int
  {
    if acts == [] then 0 else Doubling(acts[0]) + NetDoublings(acts[1..])
  }

  // ---------------------------------------------------------------------------
  // Lemmas

  /** The base step is idempotent: a second hit of nothing changes nothing further. */
  lemma HitMarksDeath(s: Stats)
    ensures AfterHit(AfterHit(s)) == AfterHit(s)
  {
  }

  /** No action revives a hero, and no action lowers anyone's health. */
  lemma ActionsNeverReviveOrWound(a: Action, me: Stats, tgt: Stats)
    requires RoleValid(me.role)
    ensures OwnEffect(a, me).alive == me.alive && OwnEffect(a, me).hp == me.hp
    ensures TargetEffect(a, me, tgt).alive ==> tgt.alive
    ensures TargetEffect(a, me, tgt).hp >= tgt.hp
    ensures a != Heal ==> TargetEffect(a, me, tgt).hp == tgt.hp
  {
  }

  /** Every action keeps the archetype invariant of both heroes involved. */
  lemma ActionsKeepRoleValid(a: Action, me: Stats, tgt: Stats)
    requires RoleValid(me.role) && RoleValid(tgt.role)
    ensures RoleValid(OwnEffect(a, me).role) && RoleValid(TargetEffect(a, me, tgt).role)
    ensures RoleValid(OwnEffect(a, TargetEffect(a, me, me)).role)
  {
  }

  /** Raising an already raised shield changes nothing; so does lowering a lowered one. */
  lemma ShieldTogglesIdempotent(s: Stats)
    requires s.role.TankRole?
    ensures Raised(Raised(s)) == Raised(s)
    ensures Lowered(Lowered(s)) == Lowered(s)
  {
  }

  /**
   * Raising and then lowering the shield restores defense and the shield flag;
   * power comes back as twice its floored half, which is the old power
   * exactly when that power is an even whole number.
   */
  lemma ShieldRoundTrip(s: Stats)
    requires s.role.TankRole? && !s.role.shieldRaised && RoleValid(s.role)
    ensures Lowered(Raised(s)).role == s.role
    ensures Lowered(Raised(s)).power == 2.0 * FloorDiv(s.power, 2)
    ensures s.power - 2.0 < Lowered(Raised(s)).power <= s.power
    ensures Lowered(Raised(s)).hp == s.hp && Lowered(Raised(s)).alive == s.alive
    ensures Lowered(Raised(s)).power == s.power <==>
              s.power == s.power.Floor as real && s.power.Floor % 2 == 0
  {
    DoubledHalf(s.power);
  }

  /** Twice the floored half of p is p exactly when p is an even whole number. */
  lemma DoubledHalf(p: real)
    ensures 2.0 * FloorDiv(p, 2) == p <==> p == p.Floor as real && p.Floor % 2 == 0
  {
    var f := (p / 2.0).Floor;
    assert FloorDiv(p, 2) == f as real;
    if 2.0 * (f as real) == p {
      assert (2 * f) as real == p;
      assert p.Floor == 2 * f;
    }
    if p == p.Floor as real && p.Floor % 2 == 0 {
      var k := p.Floor / 2;
      assert p.Floor == 2 * k;
      assert p / 2.0 == k as real;
      assert f == k;
    }
  }

  /** A raised shield at least halves non-negative incoming damage; a lowered one passes it through. */
  lemma ShieldMitigates(role: Role, damage: real)
    requires role.TankRole? && RoleValid(role) && damage >= 0.0
    ensures role.shieldRaised ==> 0.0 <= Incoming(role, damage) <= damage / 2.0
    ensures !role.shieldRaised ==> Incoming(role, damage) == damage
  {
  }

  /** `power_up` and `power_down` undo each other. */
  lemma PowerUpDownInverse(s: Stats)
    requires s.role.AttackerRole?
    ensures PoweredDown(PoweredUp(s)) == s
    ensures PoweredUp(PoweredDown(s)) == s
  {
  }

  /** The multiplier scales an attacker's outgoing and incoming damage alike. */
  lemma MultiplierScalesDamage(s: Stats, damage: real)
    requires s.role.AttackerRole? && RoleValid(s.role)
    ensures Outgoing(PoweredUp(s)) == 2.0 * Outgoing(s)
    ensures Incoming(PoweredUp(s).role, damage) == 2.0 * Incoming(s.role, damage)
  {
  }

  /**
   * Each turn raises the hero's power by exactly `Growth` before its action,
   * and only a tank's shield toggles change power afterwards.
   */
  lemma TurnGrowsPower(a: Action, s: Stats)
    ensures !s.role.TankRole? || a !in {RaiseShield, LowerShield} ==>
              OwnEffect(a, Grown(s)).power == s.power + Growth
    ensures s.role.TankRole? && a == RaiseShield && !s.role.shieldRaised ==>
              OwnEffect(a, Grown(s)).power == FloorDiv(s.power + Growth, 2)
    ensures s.role.TankRole? && a == LowerShield && s.role.shieldRaised ==>
              OwnEffect(a, Grown(s)).power == 2.0 * (s.power + Growth)
    ensures s.role.TankRole? && ((a == RaiseShield && s.role.shieldRaised) ||
                                 (a == LowerShield && !s.role.shieldRaised)) ==>
              OwnEffect(a, Grown(s)).power == s.power + Growth
  {
  }

  /**
   * Over any series of turns the archetype invariant holds: in particular
   * a tank's defense stays 1 or 2 and never reaches 0.
   */
  lemma {:induction false} TurnsKeepRoleValid(s: Stats, acts: seq<Action>)
    requires RoleValid(s.role)
    ensures RoleValid(Turns(s, acts).role)
    ensures Turns(s, acts).role.TankRole? ==> Turns(s, acts).role.defense in {1, 2}
    decreases |acts|
  {
    if acts != [] {
      var next := OwnEffect(acts[0], Grown(s));
      ActionsKeepRoleValid(acts[0], Grown(s), Grown(s));
      TurnsKeepRoleValid(next, acts[1..]);
    }
  }

  /**
   * Over any series of an attacker's turns, a multiplier 2^e becomes 2 to
   * e plus the number of power-ups minus the number of power-downs and attacks.
   */
  lemma {:induction false} TurnsScaleMultiplier(s: Stats, acts: seq<Action>, e: int)
    requires s.role.AttackerRole? && s.role.powerMultiply == Pow2(e)
    ensures Turns(s, acts).role.AttackerRole?
    ensures Turns(s, acts).role.powerMultiply == Pow2(e + NetDoublings(acts))
    decreases |acts|
  {
    if acts != [] {
      var d := Doubling(acts[0]);
      Pow2Up(e);
      Pow2Down(e);
      assert OwnEffect(acts[0], Grown(s)).role.powerMultiply == Pow2(e + d);
      TurnsScaleMultiplier(OwnEffect(acts[0], Grown(s)), acts[1..], e + d);
    }
  }

  /**
   * Worked damage figures: a fresh tank hits a fresh healer for 10, which the
   * healer amplifies to 12; a raised shield of defense 2 turns 10 into 5; an
   * attacker with multiplier 4 turns 10 into 20. Since the base step never
   * subtracts, the healer keeps all 150 health and stays alive.
   */
  lemma DamageExamples()
    ensures Outgoing(Fresh(TankRole(1, false))) == 10.0
    ensures Incoming(HealerRole(30.0), Outgoing(Fresh(TankRole(1, false)))) == 12.0
    ensures Incoming(TankRole(2, true), 10.0) == 5.0
    ensures Incoming(AttackerRole(4.0), 10.0) == 20.0
    ensures TargetEffect(Attack, Fresh(TankRole(1, false)), Fresh(HealerRole(30.0))) == Fresh(HealerRole(30.0))
  {
    assert FloorDiv(10.0, 2) == 5.0;
  }

  // ---------------------------------------------------------------------------
  // The hero object

  class Hero {
    const name: string
    var hp: real
    var power: real
    var alive: bool
    var role: Role
    /** The amount the most recent `take_damage` handed to the base step. */
    ghost var lastReceived: real
    /** The exponent of an attacker's multiplier: power-ups minus power-downs. */
    ghost var doublings: int

    ghost predicate Valid()
      reads this
    {
      hp >= 0.0 && RoleValid(role) &&
      (role.AttackerRole? ==> role.powerMultiply == Pow2(doublings))
    }

    function View(): Stats
      reads this
    {
      Stats(hp, power, alive, role)
    }

    constructor Healer(name: string)
      ensures Valid() && this.name == name
      ensures View() == Fresh(HealerRole(3.0 * StartPower))
      ensures lastReceived == 0.0
    {
      this.name := name;
      hp, power, alive := MaxHp, StartPower, true;
      role := HealerRole(StartPower * 3.0);
      lastReceived, doublings := 0.0, 0;
    }

    constructor Tank(name: string)
      ensures Valid() && this.name == name
      ensures View() == Fresh(TankRole(1, false))
      ensures lastReceived == 0.0
    {
      this.name := name;
      hp, power, alive := MaxHp, StartPower, true;
      role := TankRole(1, false);
      lastReceived, doublings := 0.0, 0;
    }

    constructor Attacker(name: string)
      ensures Valid() && this.name == name
      ensures View() == Fresh(AttackerRole(1.0))
      ensures lastReceived == 0.0
    {
      this.name := name;
      hp, power, alive := MaxHp, StartPower, true;
      role := AttackerRole(1.0);
      lastReceived, doublings := 0.0, 0;
    }

    method GetHp() returns (v: real)
      ensures v == hp
    {
      v := hp;
    }

    method SetHp(newValue: real)
      modifies this
      ensures View() == old(View()).(hp := Clamp(newValue))
      ensures hp >= 0.0 && (newValue >= 0.0 ==> hp == newValue)
      ensures lastReceived == old(lastReceived) && doublings == old(doublings)
    {
      hp := Clamp(newValue);
    }

    method GetPower() returns (v: real)
      ensures v == power
    {
      v := power;
    }

    method SetPower(newPower: real)
      modifies this
      ensures View() == old(View()).(power := newPower)
      ensures lastReceived == old(lastReceived) && doublings == old(doublings)
    {
      power := newPower;
    }

    method IsAlive() returns (b: bool)
      ensures b == alive
    {
      b := alive;
    }

    method GetMagicPower() returns (v: real)
      requires Valid() && role.HealerRole?
      ensures v == role.magicPower && v == 30.0
    {
      v := role.magicPower;
    }

    method GetDefense() returns (v: int)
      requires Valid() && role.TankRole?
      ensures v == role.defense && v == (if role.shieldRaised then 2 else 1)
    {
      v := role.defense;
    }

    method IsShieldRaised() returns (b: bool)
      requires role.TankRole?
      ensures b == role.shieldRaised
    {
      b := role.shieldRaised;
    }

    method GetPowerMultiply() returns (v: real)
      requires Valid() && role.AttackerRole?
      ensures v == role.powerMultiply && v > 0.0
    {
      v := role.powerMultiply;
    }

    /** The shared `take_damage` step of the base class. */
    method BaseTakeDamage(damage: real)
      requires Valid()
      modifies this
      ensures Valid()
      ensures View() == AfterHit(old(View()))
      ensures lastReceived == damage && doublings == old(doublings)
    {
      lastReceived := damage;
      if hp <= 0.0 {
        alive := false;
      }
    }

    /** Each archetype's `take_damage`: scale the damage, then run the base step. */
    method TakeDamage(damage: real)
      requires Valid()
      modifies this
      ensures Valid()
      ensures View() == AfterHit(old(View()))
      ensures lastReceived == Incoming(old(role), damage) && doublings == old(doublings)
    {
      var d := damage;
      match role {
        case HealerRole(_) =>
          d := d * 1.2;
        case TankRole(defense, raised) =>
          if raised {
            d := FloorDiv(d, defense);
          }
        case AttackerRole(m) =>
          d := d * (m / 2.0);
      }
      BaseTakeDamage(d);
    }

    method RaiseShield()
      requires Valid() && role.TankRole?
      modifies this
      ensures Valid()
      ensures View() == Raised(old(View()))
      ensures lastReceived == old(lastReceived) && doublings == old(doublings)
    {
      if !role.shieldRaised {
        role := TankRole(role.defense * 2, true);
        power := FloorDiv(power, 2);
      }
    }

    method LowerShield()
      requires Valid() && role.TankRole?
      modifies this
      ensures Valid()
      ensures View() == Lowered(old(View()))
      ensures lastReceived == old(lastReceived) && doublings == old(doublings)
    {
      if role.shieldRaised {
        role := TankRole(role.defense / 2, false);
        power := power * 2.0;
      }
    }

    method PowerUp()
      requires Valid() && role.AttackerRole?
      modifies this
      ensures Valid()
      ensures View() == PoweredUp(old(View()))
      ensures lastReceived == old(lastReceived) && doublings == old(doublings) + 1
    {
      Pow2Up(doublings);
      role := AttackerRole(role.powerMultiply * 2.0);
      doublings := doublings + 1;
    }

    method PowerDown()
      requires Valid() && role.AttackerRole?
      modifies this
      ensures Valid()
      ensures View() == PoweredDown(old(View()))
      ensures lastReceived == old(lastReceived) && doublings == old(doublings) - 1
    {
      Pow2Down(doublings);
      role := AttackerRole(role.powerMultiply / 2.0);
      doublings := doublings - 1;
    }

    /**
     * Each archetype's `attack`: hand the outgoing damage to the target's
     * `take_damage`; an attacker then weakens itself with `power_down`.
     * The target may be the attacking hero itself.
     */
    method Attack(target: Hero)
      requires Valid() && target.Valid()
      modifies this, target
      ensures Valid() && target.Valid()
      ensures target.lastReceived == Incoming(old(target.role), Outgoing(old(View())))
      ensures doublings == old(doublings) - (if old(role).AttackerRole? then 1 else 0)
      ensures target != this ==> target.doublings == old(target.doublings)
      ensures target != this ==>
                View() == OwnEffect(Action.Attack, old(View())) &&
                target.View() == TargetEffect(Action.Attack, old(View()), old(target.View())) &&
                lastReceived == old(lastReceived)
      ensures target == this ==>
                View() == OwnEffect(Action.Attack, TargetEffect(Action.Attack, old(View()), old(View())))
    {
      var damage: real;
      match role {
        case HealerRole(_) =>
          damage := FloorDiv(power, 2);
        case TankRole(_, raised) =>
          if raised {
            damage := FloorDiv(power, 2);
          } else {
            damage := power;
          }
        case AttackerRole(m) =>
          damage := power * m;
      }
      assert damage == Outgoing(View());
      target.TakeDamage(damage);
      if role.AttackerRole? {
        PowerDown();
      }
    }

    /** The healer's `heal`: raise the target's health by the magic power, with no ceiling. */
    method Heal(target: Hero)
      requires Valid() && role.HealerRole? && target.Valid()
      modifies target
      ensures target.Valid()
      ensures target.View() == TargetEffect(Action.Heal, old(View()), old(target.View()))
      ensures target.hp == old(target.hp) + old(role.magicPower)
      ensures target.lastReceived == old(target.lastReceived) && target.doublings == old(target.doublings)
    {
      target.hp := Clamp(target.hp + role.magicPower);
    }

    /** The base `make_a_move`: the hero grows stronger every turn. */
    method BaseMakeAMove()
      requires Valid()
      modifies this
      ensures Valid()
      ensures View() == Grown(old(View()))
      ensures lastReceived == old(lastReceived) && doublings == old(doublings)
    {
      power := power + Growth;
    }

    /**
     * Each archetype's `make_a_move`. The random choices of the source are the
     * caller's: `targetIndex` picks the target from the roster (friends for a
     * healer, enemies otherwise) and `actionIndex` picks from the archetype's
     * action list. The target is drawn even when the action ignores it.
     */
    method MakeAMove(friends: seq<Hero>, enemies: seq<Hero>, targetIndex: nat, actionIndex: nat)
      requires Valid()
      requires targetIndex < |Roster(role, friends, enemies)|
      requires actionIndex < |Actions(role)|
      requires Roster(role, friends, enemies)[targetIndex].Valid()
      modifies this, Roster(role, friends, enemies)[targetIndex]
      ensures Valid() && old(Roster(role, friends, enemies)[targetIndex]).Valid()
      ensures
        var target := old(Roster(role, friends, enemies)[targetIndex]);
        var a := old(Actions(role)[actionIndex]);
        var g := Grown(old(View()));
        (target != this ==>
           View() == OwnEffect(a, g) &&
           target.View() == TargetEffect(a, g, old(target.View()))) &&
        (target == this ==>
           View() == OwnEffect(a, TargetEffect(a, g, g))) &&
        (a == Action.Attack ==>
           target.lastReceived == Incoming(old(target.role), Outgoing(g))) &&
        (target != this ==> lastReceived == old(lastReceived)) &&
        doublings == old(doublings) + (if old(role).AttackerRole? then Doubling(a) else 0) &&
        (target != this ==> target.doublings == old(target.doublings)) &&
        (a != Action.Attack ==>
           target.lastReceived == old(target.lastReceived) && lastReceived == old(lastReceived))
    {
      BaseMakeAMove();
      var target := Roster(role, friends, enemies)[targetIndex];
      var action := Actions(role)[actionIndex];
      match action
      case Attack =>
        Attack(target);
      case Heal =>
        Heal(target);
      case RaiseShield =>
        RaiseShield();
      case LowerShield =>
        LowerShield();
      case PowerUp =>
        PowerUp();
      case PowerDown =>
        PowerDown();
    }
  }

  /**
   * A fresh tank attacking a fresh healer hands it 10, which the healer
   * amplifies to 12 before the base step; the healer keeps all its health.
   */
  method TankHitsFreshHealer() returns (hpAfter: real, aliveAfter: bool)
    ensures hpAfter == MaxHp && aliveAfter
  {
    var tank := new Hero.Tank("tank");
    var healer := new Hero.Healer("healer");
    tank.Attack(healer);
    assert healer.lastReceived == 12.0 by {
      DamageExamples();
    }
    hpAfter := healer.GetHp();
    aliveAfter := healer.IsAlive();
  }

  /** A hero put at 0 health dies on the next hit and stays at 0 on every later one. */
  method HitAtZeroHealth() returns (hpAfter: real, aliveAfter: bool)
    ensures hpAfter == 0.0 && !aliveAfter
  {
    var tank := new Hero.Tank("tank");
    tank.SetHp(-5.0);
    tank.TakeDamage(10.0);
    tank.TakeDamage(10.0);
    hpAfter := tank.GetHp();
    aliveAfter := tank.IsAlive();
  }

  /**
   * Healing does not revive: a tank put at 0 health dies on the next hit, and
   * the healer's heal then raises its health to 30 while it stays dead.
   */
  method DeadHealedStaysDead() returns (hpAfter: real, aliveAfter: bool)
    ensures hpAfter == 30.0 && !aliveAfter
  {
    var t := new Hero.Tank("tank");
    var h := new Hero.Healer("healer");
    t.SetHp(0.0);
    t.TakeDamage(1.0);
    h.Heal(t);
    hpAfter := t.GetHp();
    aliveAfter := t.IsAlive();
  }
}
