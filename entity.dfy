/** entity.js: the state every game object carries, and the rules that change its
    health, mana, targets and attack clock. Units and buildings are the same class
    here, told apart by `kind`; their own behaviour is in modules Units and Buildings. */
module Entities {
  import opened Utils
  import opened Constants

  /** Entity ids. The game draws them at random; here they are opaque tokens. */
  type Id = nat

  /** JavaScript's `v || d` on a number: a zero field counts as absent. */
  function Or(v: real, d: real): real {
    if v != 0.0 then v else d
  }

  function OrString(v: string, d: string): string {
    if v != "" then v else d
  }

  // ---------------------------------------------------------------------
  // Records the code passes around
  // ---------------------------------------------------------------------

  datatype Kind = PlainKind | UnitKind | BuildingKind

  datatype AbilityKind = HealAbility | DamageAbility | BuffAbility | AoeAbility | OtherAbility

  /** An ability record; a numeric field the record leaves out is 0.0. */
  datatype Ability = Ability(
    id: string, kind: AbilityKind, value: real, manaCost: real, cooldown: real,
    stat: string, duration: real, radius: real,
    affectsEnemies: bool, affectsAllies: bool, damage: real, heal: real)

  /** An entry of the game's unit-type table, also the item a production queue holds. */
  datatype UnitTemplate = UnitTemplate(
    unitType: string, role: string,
    maxHealth: real, maxMana: real, attackDamage: real, attackRange: real, attackSpeed: real,
    defense: real, speed: real, radius: real, cost: real, abilities: seq<Ability>)

  /** One level of a building's upgrade path; a bonus the record leaves out is 0.0. */
  datatype UpgradeOption = UpgradeOption(
    cost: real, healthBonus: real, defenseBonus: real, productionRateBonus: real,
    goldGenerationBonus: real, attackDamageBonus: real, attackRangeBonus: real,
    attackSpeedBonus: real, newUnitTypes: seq<UnitTemplate>)

  datatype BuildingTemplate = BuildingTemplate(
    buildingType: string, isBase: bool,
    maxHealth: real, defense: real, attackDamage: real, attackRange: real, attackSpeed: real,
    goldGeneration: real, productionRate: real, radius: real,
    unitTypes: seq<UnitTemplate>, upgradeOptions: seq<UpgradeOption>)

  /** The argument of the Entity constructor; a numeric field left out is 0.0. */
  datatype Config = Config(
    pos: Point, radius: real, side: int, speed: real,
    maxHealth: real, health: Option<real>, maxMana: real, mana: Option<real>,
    attackDamage: real, attackRange: real, attackSpeed: real, defense: real,
    autopilot: Option<bool>)

  /** The numeric state the constructor derives from its argument. */
  datatype Stats = Stats(
    radius: real, speed: real, maxHealth: real, health: real, maxMana: real, mana: real,
    attackDamage: real, attackRange: real, attackSpeed: real, defense: real, autopilot: bool)

  /** The constructor's defaults: radius 16, maxHealth 100, attackSpeed 1, the others 0;
      health and mana start full unless given, and autopilot starts on unless given. */
  function Defaults(c: Config): (s: Stats)
    ensures s.maxHealth != 0.0 && s.attackSpeed != 0.0 && s.radius != 0.0
    ensures c.maxHealth != 0.0 ==> s.maxHealth == c.maxHealth
    ensures c.health.None? ==> s.health == s.maxHealth
    ensures c.mana.None? ==> s.mana == s.maxMana
    ensures c.autopilot.None? ==> s.autopilot
    ensures c.health.Some? ==> s.health == c.health.value
    ensures c.autopilot.Some? ==> s.autopilot == c.autopilot.value
  {
    var maxHealth := Or(c.maxHealth, 100.0);
    var maxMana := c.maxMana;
    Stats(Or(c.radius, 16.0), c.speed, maxHealth,
          if c.health.Some? then c.health.value else maxHealth,
          maxMana, if c.mana.Some? then c.mana.value else maxMana,
          c.attackDamage, c.attackRange, Or(c.attackSpeed, 1.0), c.defense,
          if c.autopilot.Some? then c.autopilot.value else true)
  }

  /** A projectile record as the game stores it. `current` is absent until the first
      flight step writes currentX and currentY. */
  datatype Projectile = Projectile(
    source: Point, target: Point, targetId: Option<Id>, sourceId: Id, kind: string,
    damage: real, healing: real, speed: real, size: real,
    gravityAffected: bool, gravityFactor: real, penetration: int, lifetime: real,
    side: int, creationTime: real, current: Option<Point>)

  /** The part of an entity that damage, healing and targeting change. `removalDue` is the
      time at which the removal that die() schedules with setTimeout comes due. */
  datatype Vitals = Vitals(
    health: real, maxHealth: real, alive: bool, autopilot: bool,
    targetId: Option<Id>, targetPosition: Option<Point>, removalDue: Option<real>)

  /** What other entities read of an entity. */
  datatype View = View(id: Id, side: int, pos: Point, radius: real, defense: real, isBase: bool, vitals: Vitals)

  /** What an attacker reads of itself when deciding to fire. */
  datatype Shooter = Shooter(
    id: Id, pos: Point, radius: real, side: int, speed: real,
    attackDamage: real, attackRange: real, attackSpeed: real, lastAttackTime: real,
    targetId: Option<Id>, projectileKind: string)

  // ---------------------------------------------------------------------
  // Targets, health and death
  // ---------------------------------------------------------------------

  /** At most one of the two targets is set: an entity aims at an entity or walks to a
      point. setTarget, setTargetPosition, stop and die() establish it, but the attack
      gate's chase sets a stop point beside the target it keeps (ChaseSetsBothTargets), and
      the end of a dodge can restore a target beside the dodge point, so the code does not
      keep it. */
  predicate Exclusive(v: Vitals) {
    !(v.targetId.Some? && v.targetPosition.Some?)
  }

  /** Health is never negative and never above the maximum; a living entity has health
      left, and a dead one has none and a removal pending. */
  predicate Consistent(v: Vitals) {
    0.0 <= v.health <= v.maxHealth &&
    (v.alive ==> v.health > 0.0) &&
    (!v.alive ==> v.health == 0.0 && v.removalDue.Some?)
  }

  /** setTarget(id) */
  function Targeted(v: Vitals, id: Id): (r: Vitals)
    ensures r.targetId == Some(id) && r.targetPosition.None? && Exclusive(r)
    ensures r.(targetId := v.targetId, targetPosition := v.targetPosition) == v
  {
    v.(targetId := Some(id), targetPosition := None)
  }

  /** setTargetPosition(x, y) */
  function Moving(v: Vitals, p: Point): (r: Vitals)
    ensures r.targetPosition == Some(p) && r.targetId.None? && Exclusive(r)
    ensures r.(targetId := v.targetId, targetPosition := v.targetPosition) == v
  {
    v.(targetPosition := Some(p), targetId := None)
  }

  /** Whichever of setTarget and setTargetPosition comes last decides, and the other
      target is cleared. */
  lemma LastCommandWins(v: Vitals, id: Id, p: Point)
    ensures Moving(Targeted(v, id), p).targetId.None? && Moving(Targeted(v, id), p).targetPosition == Some(p)
    ensures Targeted(Moving(v, p), id).targetPosition.None? && Targeted(Moving(v, p), id).targetId == Some(id)
  {
  }

  /** toggleAutopilot: switching on clears both targets, switching off keeps them. */
  function Toggled(v: Vitals): (r: Vitals)
    ensures r.autopilot == !v.autopilot
    ensures r.autopilot ==> r.targetId.None? && r.targetPosition.None?
    ensures !r.autopilot ==> r.targetId == v.targetId && r.targetPosition == v.targetPosition
    ensures Exclusive(v) ==> Exclusive(r)
    ensures r.health == v.health && r.alive == v.alive
  {
    var a := !v.autopilot;
    if a then v.(autopilot := a, targetId := None, targetPosition := None) else v.(autopilot := a)
  }

  /** Toggling twice gives back the flag, though not the targets it cleared. */
  lemma ToggleTwice(v: Vitals)
    ensures Toggled(Toggled(v)).autopilot == v.autopilot
    ensures v.autopilot ==> Toggled(Toggled(v)) == v.(targetId := None, targetPosition := None)
  {
  }

  /** die(): dead, no targets, and removal one second later. */
  function Died(v: Vitals, now: real): (r: Vitals)
    ensures !r.alive && r.targetId.None? && r.targetPosition.None? && r.removalDue == Some(now + 1000.0)
    ensures r.health == v.health && r.maxHealth == v.maxHealth && r.autopilot == v.autopilot
  {
    v.(alive := false, targetId := None, targetPosition := None, removalDue := Some(now + 1000.0))
  }

  /** takeDamage(amount, attacker): health falls by amount, floored at 0 with death;
      then an entity off autopilot with no target turns on the attacker. Because die()
      has just cleared the target, a manual entity that dies still takes the attacker. */
  function Damaged(v: Vitals, amount: real, attacker: Option<Id>, now: real): (r: Vitals)
    ensures amount >= v.health ==> r.health == 0.0 && !r.alive && r.removalDue == Some(now + 1000.0)
    ensures amount < v.health ==> r.health == v.health - amount && r.alive == v.alive && r.removalDue == v.removalDue
    ensures r.maxHealth == v.maxHealth && r.autopilot == v.autopilot
    ensures !v.autopilot && attacker.Some? && (amount >= v.health || v.targetId.None?) ==>
              r.targetId == attacker && r.targetPosition.None?
    ensures (v.autopilot || attacker.None?) && amount >= v.health ==> r.targetId.None? && r.targetPosition.None?
    ensures amount < v.health && (v.autopilot || attacker.None? || v.targetId.Some?) ==>
              r.targetId == v.targetId && r.targetPosition == v.targetPosition
    ensures Exclusive(v) ==> Exclusive(r)
  {
    var h := v.health - amount;
    var v1 := if h <= 0.0 then Died(v.(health := 0.0), now) else v.(health := h);
    if !v1.autopilot && v1.targetId.None? && attacker.Some? then Targeted(v1, attacker.value) else v1
  }

  /** Healing as the heal ability and healing projectiles apply it: capped at maxHealth. */
  function Healed(v: Vitals, amount: real): (r: Vitals)
    ensures r.health == Min(v.maxHealth, v.health + amount)
    ensures v.health <= v.maxHealth && amount >= 0.0 ==> v.health <= r.health <= v.maxHealth
    ensures r.(health := v.health) == v
  {
    v.(health := Min(v.maxHealth, v.health + amount))
  }

  /** Non-negative damage and healing keep health in range and keep alive and health in step. */
  lemma DamageKeepsConsistent(v: Vitals, amount: real, attacker: Option<Id>, now: real)
    requires Consistent(v) && amount >= 0.0
    ensures Consistent(Damaged(v, amount, attacker, now))
  {
  }

  lemma HealKeepsConsistent(v: Vitals, amount: real)
    requires Consistent(v) && v.alive && amount >= 0.0
    ensures Consistent(Healed(v, amount))
  {
  }

  /** The retaliation quirk: a manual-control entity killed by an attacker is left dead
      but targeting that attacker. */
  lemma DeadEntityRetargets(v: Vitals, amount: real, a: Id, now: real)
    requires !v.autopilot && amount >= v.health
    ensures var r := Damaged(v, amount, Some(a), now); !r.alive && r.targetId == Some(a)
  {
  }

  // ---------------------------------------------------------------------
  // Mana, the attack clock and the damage formula
  // ---------------------------------------------------------------------

  /** Mana regeneration: 5% of maxMana per second, capped at maxMana. */
  function Regenerated(mana: real, maxMana: real, dt: real): (r: real)
    ensures maxMana > 0.0 ==> r <= maxMana
    ensures maxMana > 0.0 && dt >= 0.0 && mana <= maxMana ==> mana <= r
    ensures maxMana > 0.0 && mana >= maxMana && dt >= 0.0 ==> r == maxMana
    ensures maxMana <= 0.0 ==> r == mana
  {
    if maxMana > 0.0 then Min(maxMana, mana + maxMana * 0.05 * dt) else mana
  }

  /** The cooldown gate: at least 1000 / attackSpeed milliseconds since the last attack
      (a zero speed makes the wait infinite). With a positive speed, a ready entity's last
      attack lies strictly in the past. */
  predicate AttackReady(now: real, lastAttackTime: real, attackSpeed: real): (b: bool)
    ensures b ==> attackSpeed != 0.0
    ensures b && attackSpeed > 0.0 ==> lastAttackTime < now
  {
    attackSpeed != 0.0 && now - lastAttackTime >= 1000.0 / attackSpeed
  }

  /** Math.round: the nearest integer, halves rounded up. */
  function JsRound(x: real): (r: int)
    ensures x - 0.5 < r as real <= x + 0.5
  {
    (x + 0.5).Floor
  }

  /** round(max(1, atk - def) * multiplier): the nearest integer to the scaled damage, and
      never below 1 for a multiplier of at least one half. */
  function Damage(attackDamage: real, defense: real, multiplier: real): (d: int)
    ensures Max(1.0, attackDamage - defense) * multiplier - 0.5 < d as real <= Max(1.0, attackDamage - defense) * multiplier + 0.5
    ensures multiplier >= 0.5 ==> d >= 1
  {
    var base := Max(1.0, attackDamage - defense);
    if multiplier >= 0.5 then
      assert base * multiplier >= multiplier by {
        assert (base - 1.0) * multiplier >= 0.0;
      }
      JsRound(base * multiplier)
    else
      JsRound(base * multiplier)
  }

  /** PROJECTILE_TYPES[kind] || PROJECTILE_TYPES.warrior */
  function ProjectileConfigFor(kind: string): ProjectileConfig {
    if kind in ProjectileTypes then ProjectileTypes[kind] else WarriorProjectile
  }

  /** attack(target): the projectile record, fired from 0.8 radius out towards the target.
      A healer shooting a same-side target makes a healing projectile with no damage;
      every other projectile does at least 1 damage and heals nothing. */
  function Attack(s: Shooter, target: View, now: real, env: Env): (r: Option<Projectile>)
    ensures r.Some? <==> target.vitals.alive
    ensures r.Some? ==> r.value.targetId == Some(target.id) && r.value.target == target.pos &&
                        r.value.sourceId == s.id && r.value.side == s.side && r.value.kind == s.projectileKind &&
                        r.value.creationTime == now && r.value.current.None?
    ensures r.Some? ==> r.value.lifetime > 0.0 && r.value.penetration == 0 && r.value.speed > 0.0
    ensures r.Some? && (s.projectileKind != "healer" || target.side != s.side) ==>
              r.value.healing == 0.0 &&
              r.value.damage == Damage(s.attackDamage, target.defense, Or(ProjectileConfigFor(s.projectileKind).damageMultiplier, 1.0)) as real &&
              r.value.damage >= 1.0
    ensures r.Some? && s.projectileKind == "healer" && target.side == s.side ==>
              r.value.damage == 0.0 && r.value.healing == JsRound(s.attackDamage) as real
  {
    if !target.vitals.alive then None
    else
      var cfg := ProjectileConfigFor(s.projectileKind);
      var damage := Damage(s.attackDamage, target.defense, Or(cfg.damageMultiplier, 1.0));
      var isHealing := s.projectileKind == "healer" && target.side == s.side;
      var healAmount := if isHealing then JsRound(s.attackDamage * Or(cfg.healingMultiplier, 1.0)) else 0;
      Some(Projectile(
        env.toward(s.pos, target.pos, s.radius * 0.8), target.pos, Some(target.id), s.id, s.projectileKind,
        if isHealing then 0.0 else damage as real, healAmount as real, cfg.speed, cfg.size,
        cfg.gravityAffected, Or(cfg.gravityFactor, 1.0), cfg.penetration, Or(cfg.lifetime, ProjectileLifetime),
        s.side, now, None))
  }

  /** What update() does about the current target this tick. */
  datatype Gate = Idle | Clear | Fire | Chase(stop: Point) | Hold

  /** The attack gate of update(): with a target and a positive attack, an absent, dead or
      same-side target is cleared; a valid one is shot at when in range and off cooldown,
      chased (to 90% of the range) when out of range and able to move, and held otherwise. */
  function GateOf(s: Shooter, target: Option<View>, now: real, env: Env): (g: Gate)
    ensures g == Idle <==> !(s.targetId.Some? && s.attackDamage > 0.0 && s.attackRange > 0.0)
    ensures g == Clear <==> s.targetId.Some? && s.attackDamage > 0.0 && s.attackRange > 0.0 &&
                            !(target.Some? && target.value.vitals.alive && target.value.side != s.side)
    ensures g == Fire <==> s.targetId.Some? && s.attackDamage > 0.0 && s.attackRange > 0.0 &&
                           target.Some? && target.value.vitals.alive && target.value.side != s.side &&
                           Within(s.pos, target.value.pos, s.attackRange) && AttackReady(now, s.lastAttackTime, s.attackSpeed)
    ensures g.Chase? <==> s.targetId.Some? && s.attackDamage > 0.0 && s.attackRange > 0.0 &&
                          target.Some? && target.value.vitals.alive && target.value.side != s.side &&
                          !Within(s.pos, target.value.pos, s.attackRange) && s.speed > 0.0
    ensures g.Chase? ==> g.stop == env.toward(target.value.pos, s.pos, s.attackRange * AttackStopDistance)
  {
    if !(s.targetId.Some? && s.attackDamage > 0.0 && s.attackRange > 0.0) then Idle
    else if !(target.Some? && target.value.vitals.alive && target.value.side != s.side) then Clear
    else if Within(s.pos, target.value.pos, s.attackRange) && AttackReady(now, s.lastAttackTime, s.attackSpeed) then Fire
    else if !Within(s.pos, target.value.pos, s.attackRange) && s.speed > 0.0 then
      Chase(env.toward(target.value.pos, s.pos, s.attackRange * AttackStopDistance))
    else Hold
  }

  /** A shot through the gate never heals: same-side targets are cleared before attack()
      is reached, so a healer's ally target never yields a healing projectile. */
  lemma GateFireNeverHeals(s: Shooter, target: Option<View>, now: real, env: Env)
    requires GateOf(s, target, now, env) == Fire
    ensures Attack(s, target.value, now, env).Some?
    ensures Attack(s, target.value, now, env).value.healing == 0.0
  {
  }

  /** The projectile the attack gate of update() fires: attack(target) exactly when the
      verdict is Fire, and nothing otherwise. */
  function Fired(s: Shooter, target: Option<View>, now: real, env: Env): Option<Projectile>
  {
    if GateOf(s, target, now, env) == Fire then Attack(s, target.value, now, env) else None
  }

  /** update() fires exactly when the gate says Fire. */
  lemma FiredExactlyOnFire(s: Shooter, target: Option<View>, now: real, env: Env)
    ensures Fired(s, target, now, env).Some? <==> GateOf(s, target, now, env) == Fire
  {
    if GateOf(s, target, now, env) == Fire {
      GateFireNeverHeals(s, target, now, env);
    }
  }

  /** update() fires only at a living enemy target within attackRange once the cooldown
      has run out, and what it fires does damage and never heals. */
  lemma FiredOnlyWhenReady(s: Shooter, target: Option<View>, now: real, env: Env)
    requires Fired(s, target, now, env).Some?
    ensures target.Some? && target.value.vitals.alive && target.value.side != s.side
    ensures Within(s.pos, target.value.pos, s.attackRange) && AttackReady(now, s.lastAttackTime, s.attackSpeed)
    ensures var p := Fired(s, target, now, env).value;
            p.healing == 0.0 && p.damage >= 1.0 && p.targetId == Some(target.value.id) && p.sourceId == s.id
  {
    GateFireNeverHeals(s, target, now, env);
  }

  /** attack() reads of its target only the id, side, position, defense and liveness. */
  lemma AttackSees(s: Shooter, t: View, u: View, now: real, env: Env)
    requires t.id == u.id && t.side == u.side && t.pos == u.pos && t.defense == u.defense
    requires t.vitals.alive == u.vitals.alive
    ensures Attack(s, t, now, env) == Attack(s, u, now, env)
  {
  }

  // ---------------------------------------------------------------------
  // Looking entities up (getEntityById, getEntitiesInRadius, getEntitiesAtPoint)
  // ---------------------------------------------------------------------

  /** findIndex(e => e.id === id) */
  function IndexOf(es: seq<Entity>, id: Id): (r: Option<nat>)
    ensures r.Some? ==> r.value < |es| && es[r.value].id == id && forall j :: 0 <= j < r.value ==> es[j].id != id
    ensures r.None? ==> forall j :: 0 <= j < |es| ==> es[j].id != id
    decreases |es|
  {
    if es == [] then None
    else if es[0].id == id then Some(0)
    else match IndexOf(es[1..], id)
      case None => None
      case Some(k) => Some(k + 1)
  }

  /** getEntityById: the first entity with the id, or nothing. */
  function FindById(es: seq<Entity>, id: Id): (r: Option<Entity>)
    ensures r.Some? ==> r.value in es && r.value.id == id
    ensures r.None? <==> forall e :: e in es ==> e.id != id
  {
    match IndexOf(es, id)
    case None => None
    case Some(k) => Some(es[k])
  }

  /** The entities of a list, as a set. */
  function Objs(es: seq<Entity>): set<Entity> {
    set e | e in es
  }

  /** The view of the entity an id names, if any. */
  function TargetView(es: seq<Entity>, id: Option<Id>): (r: Option<View>)
    reads es
    ensures r.Some? ==> id.Some? && FindById(es, id.value).Some? && r.value == FindById(es, id.value).value.Snapshot()
    ensures r.None? ==> id.None? || FindById(es, id.value).None?
  {
    if id.None? then None
    else match FindById(es, id.value)
      case None => None
      case Some(e) => Some(e.Snapshot())
  }

  function Views(es: seq<Entity>): (ws: seq<View>)
    reads es
    ensures |ws| == |es| && forall i :: 0 <= i < |es| ==> ws[i] == es[i].Snapshot()
  {
    seq(|es|, i requires 0 <= i < |es| reads es => es[i].Snapshot())
  }

  /** The views of a list are determined by the views of its members. */
  lemma ViewsPointwise(es: seq<Entity>, ws: seq<View>)
    requires |ws| == |es| && forall i :: 0 <= i < |es| ==> ws[i] == es[i].Snapshot()
    ensures Views(es) == ws
  {
  }

  /** getEntitiesInRadius(x, y, r): the living entities within r of the point, in list order. */
  function InRadius(es: seq<Entity>, c: Point, r: real): (rs: seq<Entity>)
    reads es
    ensures |rs| <= |es|
    ensures forall e :: e in rs ==> e in es && e.alive && Within(c, e.pos, r)
    ensures forall e :: e in es && e.alive && Within(c, e.pos, r) ==> e in rs
    decreases |es|
  {
    if es == [] then []
    else (if es[0].alive && Within(c, es[0].pos, r) then [es[0]] else []) + InRadius(es[1..], c, r)
  }

  /** getEntitiesAtPoint(x, y): the living entities whose circle contains the point. */
  function AtPoint(es: seq<Entity>, c: Point): (rs: seq<Entity>)
    reads es
    ensures |rs| <= |es|
    ensures forall e :: e in rs ==> e in es && e.alive && Within(c, e.pos, e.radius)
    ensures forall e :: e in es && e.alive && Within(c, e.pos, e.radius) ==> e in rs
    decreases |es|
  {
    if es == [] then []
    else (if es[0].alive && Within(c, es[0].pos, es[0].radius) then [es[0]] else []) + AtPoint(es[1..], c)
  }

  // ---------------------------------------------------------------------
  // Nearest-entity scans (findNearestEnemy here, findNearestInjuredAlly in unit.js)
  // ---------------------------------------------------------------------

  datatype Scan = Enemies | InjuredAllies

  /** Which entities a scan considers: living enemies, or living allies below 80% health
      (the scanning entity itself included). */
  predicate Candidate(scan: Scan, side: int, w: View) {
    match scan
    case Enemies => w.side != side && w.vitals.alive
    case InjuredAllies => w.side == side && w.vitals.alive && w.vitals.health < w.vitals.maxHealth * 0.8
  }

  /** nearest over the views, in list order: the index of the closest candidate. */
  function Nearest(scan: Scan, side: int, me: Point, ws: seq<View>): (r: Option<nat>)
    ensures r.Some? ==> r.value < |ws| && Candidate(scan, side, ws[r.value])
    decreases |ws|
  {
    if ws == [] then None
    else
      var k := |ws| - 1;
      var r := Nearest(scan, side, me, ws[..k]);
      if Candidate(scan, side, ws[k]) && (r.None? || Dist2(me, ws[k].pos) < Dist2(me, ws[r.value].pos)) then Some(k)
      else r
  }

  /** The index the scan settles on is a candidate at least as close as every candidate,
      and strictly closer than every candidate before it (the strict `<` keeps the first
      of equally near ones); there is none exactly when no view is a candidate. */
  lemma {:induction false} NearestSpec(scan: Scan, side: int, me: Point, ws: seq<View>)
    ensures var r := Nearest(scan, side, me, ws);
            (r.Some? ==> forall j :: 0 <= j < |ws| && Candidate(scan, side, ws[j]) ==>
                           Dist2(me, ws[r.value].pos) <= Dist2(me, ws[j].pos)) &&
            (r.Some? ==> forall j :: 0 <= j < r.value && Candidate(scan, side, ws[j]) ==>
                           Dist2(me, ws[r.value].pos) < Dist2(me, ws[j].pos)) &&
            (r.None? <==> forall j :: 0 <= j < |ws| ==> !Candidate(scan, side, ws[j]))
    decreases |ws|
  {
    if ws != [] {
      var k := |ws| - 1;
      var p := ws[..k];
      NearestSpec(scan, side, me, p);
      assert forall j :: 0 <= j < k ==> p[j] == ws[j];
    }
  }

  /** The three conditions pin the answer down: any index meeting them is the scan's. */
  lemma NearestUnique(scan: Scan, side: int, me: Point, ws: seq<View>, i: nat)
    requires i < |ws| && Candidate(scan, side, ws[i])
    requires forall j :: 0 <= j < |ws| && Candidate(scan, side, ws[j]) ==> Dist2(me, ws[i].pos) <= Dist2(me, ws[j].pos)
    requires forall j :: 0 <= j < i && Candidate(scan, side, ws[j]) ==> Dist2(me, ws[i].pos) < Dist2(me, ws[j].pos)
    ensures Nearest(scan, side, me, ws) == Some(i)
  {
    NearestSpec(scan, side, me, ws);
    assert Nearest(scan, side, me, ws).Some?;
  }

  /** The scan loop: one pass in list order, keeping the nearest candidate seen so far. */
  method FindNearest(scan: Scan, side: int, me: Point, es: seq<Entity>) returns (r: Option<nat>)
    ensures r == Nearest(scan, side, me, Views(es))
  {
    ghost var ws := Views(es);
    r := None;
    var best := 0.0;
    var k := 0;
    while k < |es|
      invariant 0 <= k <= |es|
      invariant r == Nearest(scan, side, me, ws[..k])
      invariant r.Some? ==> r.value < k && best == Dist2(me, es[r.value].pos)
    {
      assert ws[..k + 1][..k] == ws[..k];
      var w := es[k].Snapshot();
      var d := Dist2(me, w.pos);
      if Candidate(scan, side, w) && (r.None? || d < best) {
        r := Some(k);
        best := d;
      }
      k := k + 1;
    }
    assert ws[..k] == ws;
  }

  /** The id of the entity a scan settles on, if any. */
  function NearestId(scan: Scan, side: int, me: Point, ws: seq<View>): Option<Id> {
    match Nearest(scan, side, me, ws)
    case None => None
    case Some(k) => Some(ws[k].id)
  }

  /** A scan looks only at which views are candidates, where they are and their ids:
      two lists that agree on those settle on the same entity. */
  lemma {:induction false} NearestAgrees(scan: Scan, side: int, me: Point, ws: seq<View>, vs: seq<View>)
    requires |ws| == |vs|
    requires forall i :: 0 <= i < |ws| ==>
               (Candidate(scan, side, ws[i]) <==> Candidate(scan, side, vs[i])) && ws[i].pos == vs[i].pos && ws[i].id == vs[i].id
    ensures Nearest(scan, side, me, ws) == Nearest(scan, side, me, vs)
    ensures NearestId(scan, side, me, ws) == NearestId(scan, side, me, vs)
    decreases |ws|
  {
    if ws != [] {
      var k := |ws| - 1;
      assert forall i :: 0 <= i < k ==> ws[..k][i] == ws[i] && vs[..k][i] == vs[i];
      NearestAgrees(scan, side, me, ws[..k], vs[..k]);
    }
  }

  /** What a scan sees of an entity: its id, side, position and health. Nothing else of
      the view is read, so the other fields are left at fixed values. */
  function Sighting(e: Entity): View
    reads e`health, e`maxHealth, e`alive
  {
    View(e.id, e.side, e.pos, e.radius, 0.0, false, Vitals(e.health, e.maxHealth, e.alive, false, None, None, None))
  }

  function Sightings(es: seq<Entity>): (ws: seq<View>)
    reads es`health, es`maxHealth, es`alive
    ensures |ws| == |es|
    decreases |es|
  {
    if es == [] then [] else [Sighting(es[0])] + Sightings(es[1..])
  }

  lemma {:induction false} SightingsAt(es: seq<Entity>)
    ensures forall i :: 0 <= i < |es| ==> Sightings(es)[i] == Sighting(es[i])
    decreases |es|
  {
    if es != [] {
      SightingsAt(es[1..]);
    }
  }

  /** The id a scan of the entities settles on. It reads only health and liveness, so a
      step that changes neither leaves it as it was. */
  function NearestOf(scan: Scan, side: int, me: Point, es: seq<Entity>): Option<Id>
    reads es`health, es`maxHealth, es`alive
  {
    NearestId(scan, side, me, Sightings(es))
  }

  /** Scanning the sightings and scanning the full views settle on the same entity. */
  lemma NearestOfViews(scan: Scan, side: int, me: Point, es: seq<Entity>)
    ensures NearestOf(scan, side, me, es) == NearestId(scan, side, me, Views(es))
  {
    SightingsAt(es);
    NearestAgrees(scan, side, me, Sightings(es), Views(es));
  }

  // ---------------------------------------------------------------------
  // The targets update() leaves
  // ---------------------------------------------------------------------

  /** The arrival test: an entity that can move and is within MIN_DISTANCE of its target
      point drops the point. */
  function Arrived(v: Vitals, me: Point, speed: real): Vitals {
    if v.targetPosition.Some? && speed > 0.0 && Within(me, v.targetPosition.value, MinDistance)
    then v.(targetPosition := None) else v
  }

  /** What the attack gate does to the targets: a cleared target is dropped, a chased one
      gets the stop point beside it, and the other verdicts leave both as they are. */
  function Gated(v: Vitals, g: Gate): Vitals {
    match g
    case Clear => v.(targetId := None)
    case Chase(stop) => v.(targetPosition := Some(stop))
    case _ => v
  }

  /** The targets after update(), movement aside: the arrival test, then the attack gate,
      then, on autopilot, the nearest enemy for an armed entity left without a target. */
  function UpdatedTargets(v: Vitals, s: Shooter, target: Option<View>, nearest: Option<Id>, now: real, env: Env): Vitals {
    var w := Gated(Arrived(v, s.pos, s.speed), GateOf(s, target, now, env));
    if v.autopilot && s.attackDamage > 0.0 && w.targetId.None? && nearest.Some? then Targeted(w, nearest.value) else w
  }

  /** update() moves only the two targets: health, life, autopilot and a pending removal
      stay as they were. */
  lemma UpdateMovesOnlyTargets(v: Vitals, s: Shooter, target: Option<View>, nearest: Option<Id>, now: real, env: Env)
    ensures var r := UpdatedTargets(v, s, target, nearest, now, env);
            r.(targetId := v.targetId, targetPosition := v.targetPosition) == v
    ensures Consistent(v) ==> Consistent(UpdatedTargets(v, s, target, nearest, now, env))
  {
  }

  /** An armed entity whose target is absent, dead or on its own side loses it: under
      manual control it is left without a target, and on autopilot it takes the nearest
      enemy instead, with no target point, or nothing when there is no enemy. */
  lemma UpdateDropsLostTarget(v: Vitals, s: Shooter, target: Option<View>, nearest: Option<Id>, now: real, env: Env)
    requires s.targetId.Some? && s.attackDamage > 0.0 && s.attackRange > 0.0
    requires !(target.Some? && target.value.vitals.alive && target.value.side != s.side)
    ensures var r := UpdatedTargets(v, s, target, nearest, now, env);
            (!v.autopilot ==> r.targetId.None?) &&
            (v.autopilot ==> r.targetId == nearest && (nearest.Some? ==> r.targetPosition.None?))
  {
  }

  /** A living enemy target is kept: the gate fires at it, chases it or holds, and the
      autopilot does not replace it. */
  lemma UpdateKeepsLiveTarget(v: Vitals, s: Shooter, target: Option<View>, nearest: Option<Id>, now: real, env: Env)
    requires v.targetId == s.targetId && s.targetId.Some?
    requires target.Some? && target.value.vitals.alive && target.value.side != s.side
    ensures UpdatedTargets(v, s, target, nearest, now, env).targetId == v.targetId
  {
  }

  /** The chase keeps the target id and sets a target point, so an armed entity walking
      up to a target out of range has both targets set. */
  lemma ChaseSetsBothTargets(v: Vitals, s: Shooter, target: Option<View>, nearest: Option<Id>, now: real, env: Env)
    requires v.targetId == s.targetId
    requires GateOf(s, target, now, env).Chase?
    ensures var r := UpdatedTargets(v, s, target, nearest, now, env);
            r.targetId == v.targetId && r.targetPosition == Some(GateOf(s, target, now, env).stop) && !Exclusive(r)
  {
  }

  /** On autopilot an armed entity with no target and an enemy in sight always ends the
      tick with a target. */
  lemma AutopilotAlwaysTargets(v: Vitals, s: Shooter, target: Option<View>, nearest: Option<Id>, now: real, env: Env)
    requires v.autopilot && v.targetId.None? && s.targetId.None? && s.attackDamage > 0.0 && nearest.Some?
    ensures UpdatedTargets(v, s, target, nearest, now, env).targetId == nearest
  {
  }

  /** The gate sees of its target only whether there is one, whether it lives, its side
      and its position. */
  lemma GateSees(s: Shooter, t: Option<View>, u: Option<View>, now: real, env: Env)
    requires t.None? <==> u.None?
    requires t.Some? ==> t.value.vitals.alive == u.value.vitals.alive && t.value.side == u.value.side && t.value.pos == u.value.pos
    ensures GateOf(s, t, now, env) == GateOf(s, u, now, env)
  {
  }

  // ---------------------------------------------------------------------
  // What the Unit and Building constructors pass to the Entity constructor
  // ---------------------------------------------------------------------

  /** A unit's configuration: the template's fields at a position, for a side. */
  function UnitConfig(t: UnitTemplate, p: Point, side: int): Config {
    Config(p, t.radius, side, t.speed, t.maxHealth, None, t.maxMana, None,
           t.attackDamage, t.attackRange, t.attackSpeed, t.defense, None)
  }

  /** A building's configuration: radius 32 unless given, and no movement speed. */
  function BuildingConfig(t: BuildingTemplate, p: Point, side: int): Config {
    Config(p, Or(t.radius, 32.0), side, 0.0, t.maxHealth, None, 0.0, None,
           t.attackDamage, t.attackRange, t.attackSpeed, t.defense, None)
  }

  function AbilityIds(abilities: seq<Ability>): set<string> {
    set a | a in abilities :: a.id
  }

  /** The Unit constructor's cooldown table: one entry per ability id, all 0. */
  function InitialCooldowns(abilities: seq<Ability>): (m: map<string, real>)
    ensures m.Keys == AbilityIds(abilities)
    ensures forall a :: a in abilities ==> a.id in m && m[a.id] == 0.0
    ensures forall k :: k in m ==> m[k] == 0.0
  {
    map k | k in AbilityIds(abilities) :: 0.0
  }

  /** The attack range a unit ends up with: the ATTACK_RANGES entry for its type when there
      is one, the template's own range otherwise. */
  function UnitRange(unitType: string, templateRange: real): (r: real)
    ensures AttackRanges(unitType) != 0.0 ==> r == AttackRanges(unitType)
    ensures AttackRanges(unitType) == 0.0 ==> r == templateRange
  {
    if AttackRanges(unitType) != 0.0 then AttackRanges(unitType) else templateRange
  }

  /** A building's attack range: 300 for a tower, the template's range otherwise. */
  function BuildingRange(buildingType: string, templateRange: real): (r: real)
    ensures buildingType == "tower" ==> r == AttackRanges("tower") == 300.0
    ensures buildingType != "tower" ==> r == templateRange
  {
    if buildingType == "tower" && AttackRanges("tower") != 0.0 then AttackRanges("tower") else templateRange
  }

  // ---------------------------------------------------------------------
  // The entity
  // ---------------------------------------------------------------------

  class Entity {
    const id: Id
    const kind: Kind
    /** Position and size. Movement is not modelled, so they never change. */
    const pos: Point
    const radius: real
    const side: int
    const speed: real
    const maxMana: real
    // Unit fields (defaults elsewhere)
    const unitType: string
    const role: string
    const abilities: seq<Ability>
    const cost: real
    // Building fields (defaults elsewhere)
    const buildingType: string
    const isBase: bool
    const upgradeOptions: seq<UpgradeOption>
    const maxLevel: int

    var selected: bool
    var autopilot: bool
    var targetId: Option<Id>
    var targetPosition: Option<Point>
    var maxHealth: real
    var health: real
    var mana: real
    var attackDamage: real
    var attackRange: real
    var attackSpeed: real
    var defense: real
    var lastAttackTime: real
    var alive: bool
    var removalDue: Option<real>
    var stats: map<string, real>
    // Unit state
    var cooldowns: map<string, real>
    var isDodging: bool
    var dodgeTime: real
    var originalTargetId: Option<Id>
    // Building state
    var productionQueue: seq<UnitTemplate>
    var productionProgress: real
    var productionRate: real
    var goldGeneration: real
    var lastGoldTime: real
    var unitTypes: seq<UnitTemplate>
    var level: int

    function State(): Vitals
      reads this`health, this`maxHealth, this`alive, this`autopilot, this`targetId, this`targetPosition, this`removalDue
    {
      Vitals(health, maxHealth, alive, autopilot, targetId, targetPosition, removalDue)
    }

    function Snapshot(): View
      reads this`health, this`maxHealth, this`alive, this`autopilot, this`targetId, this`targetPosition, this`removalDue, this`defense
    {
      View(id, side, pos, radius, defense, kind == BuildingKind && isBase, State())
    }

    function CurrentStats(): Stats
      reads this
    {
      Stats(radius, speed, maxHealth, health, maxMana, mana, attackDamage, attackRange, attackSpeed, defense, autopilot)
    }

    /** this.unitType || this.buildingType || 'warrior' */
    function ProjectileKind(): string {
      OrString(unitType, OrString(buildingType, "warrior"))
    }

    function AsShooter(): Shooter
      reads this
    {
      Shooter(id, pos, radius, side, speed, attackDamage, attackRange, attackSpeed, lastAttackTime, targetId, ProjectileKind())
    }

    /** new Entity(config): alive, untargeted, unselected, with the constructor defaults. */
    constructor (id: Id, c: Config)
      ensures this.id == id && kind == PlainKind && pos == c.pos && side == c.side
      ensures CurrentStats() == Defaults(c)
      ensures alive && targetId.None? && targetPosition.None? && removalDue.None? && !selected
      ensures lastAttackTime == 0.0 && stats == map[]
    {
      var s := Defaults(c);
      this.id := id;
      kind := PlainKind;
      pos := c.pos;
      radius := s.radius;
      side := c.side;
      speed := s.speed;
      maxMana := s.maxMana;
      unitType := "";
      role := "";
      abilities := [];
      cost := 0.0;
      buildingType := "";
      isBase := false;
      upgradeOptions := [];
      maxLevel := 0;
      selected := false;
      autopilot := s.autopilot;
      targetId := None;
      targetPosition := None;
      maxHealth := s.maxHealth;
      health := s.health;
      mana := s.mana;
      attackDamage := s.attackDamage;
      attackRange := s.attackRange;
      attackSpeed := s.attackSpeed;
      defense := s.defense;
      lastAttackTime := 0.0;
      alive := true;
      removalDue := None;
      stats := map[];
      cooldowns := map[];
      isDodging := false;
      dodgeTime := 0.0;
      originalTargetId := None;
      productionQueue := [];
      productionProgress := 0.0;
      productionRate := 0.0;
      goldGeneration := 0.0;
      lastGoldTime := 0.0;
      unitTypes := [];
      level := 0;
    }

    /** new Unit(config): an Entity of type 'unit', with the unit defaults (type 'generic',
        role 'offensive', cost 100), the ATTACK_RANGES override, a zero cooldown for each
        ability and no dodge in progress. */
    constructor Unit(id: Id, t: UnitTemplate, p: Point, side: int)
      ensures this.id == id && kind == UnitKind && pos == p && this.side == side
      ensures unitType == OrString(t.unitType, "generic") && role == OrString(t.role, "offensive")
      ensures abilities == t.abilities && cost == Or(t.cost, 100.0) && buildingType == ""
      ensures CurrentStats() == Defaults(UnitConfig(t, p, side)).(attackRange := UnitRange(unitType, t.attackRange))
      ensures alive && autopilot && health == maxHealth && mana == maxMana
      ensures targetId.None? && targetPosition.None? && removalDue.None? && !selected
      ensures cooldowns == InitialCooldowns(t.abilities)
      ensures !isDodging && dodgeTime == 0.0 && originalTargetId.None?
      ensures lastAttackTime == 0.0 && stats == map[]
    {
      var s := Defaults(UnitConfig(t, p, side));
      var ut := OrString(t.unitType, "generic");
      this.id := id;
      kind := UnitKind;
      pos := p;
      radius := s.radius;
      this.side := side;
      speed := s.speed;
      maxMana := s.maxMana;
      unitType := ut;
      role := OrString(t.role, "offensive");
      abilities := t.abilities;
      cost := Or(t.cost, 100.0);
      buildingType := "";
      isBase := false;
      upgradeOptions := [];
      maxLevel := 0;
      selected := false;
      autopilot := s.autopilot;
      targetId := None;
      targetPosition := None;
      maxHealth := s.maxHealth;
      health := s.health;
      mana := s.mana;
      attackDamage := s.attackDamage;
      attackRange := UnitRange(ut, s.attackRange);
      attackSpeed := s.attackSpeed;
      defense := s.defense;
      lastAttackTime := 0.0;
      alive := true;
      removalDue := None;
      stats := map[];
      cooldowns := InitialCooldowns(t.abilities);
      isDodging := false;
      dodgeTime := 0.0;
      originalTargetId := None;
      productionQueue := [];
      productionProgress := 0.0;
      productionRate := 0.0;
      goldGeneration := 0.0;
      lastGoldTime := 0.0;
      unitTypes := [];
      level := 0;
    }

    /** new Building(config): an Entity of type 'building' with radius 32 unless given,
        an empty queue, production rate 1 unless given, level 1 of 3, the gold clock at 0,
        and range 300 for a tower. */
    constructor Building(id: Id, t: BuildingTemplate, p: Point, side: int)
      ensures this.id == id && kind == BuildingKind && pos == p && this.side == side
      ensures buildingType == OrString(t.buildingType, "generic") && isBase == t.isBase && unitType == ""
      ensures CurrentStats() == Defaults(BuildingConfig(t, p, side)).(attackRange := BuildingRange(buildingType, t.attackRange))
      ensures alive && autopilot && health == maxHealth
      ensures targetId.None? && targetPosition.None? && removalDue.None? && !selected
      ensures productionQueue == [] && productionProgress == 0.0 && productionRate == Or(t.productionRate, 1.0)
      ensures goldGeneration == t.goldGeneration && lastGoldTime == 0.0
      ensures unitTypes == t.unitTypes && upgradeOptions == t.upgradeOptions && level == 1 && maxLevel == 3
      ensures lastAttackTime == 0.0 && stats == map[] && cooldowns == map[] && !isDodging
    {
      var s := Defaults(BuildingConfig(t, p, side));
      var bt := OrString(t.buildingType, "generic");
      this.id := id;
      kind := BuildingKind;
      pos := p;
      radius := s.radius;
      this.side := side;
      speed := s.speed;
      maxMana := s.maxMana;
      unitType := "";
      role := "";
      abilities := [];
      cost := 0.0;
      buildingType := bt;
      isBase := t.isBase;
      upgradeOptions := t.upgradeOptions;
      maxLevel := 3;
      selected := false;
      autopilot := s.autopilot;
      targetId := None;
      targetPosition := None;
      maxHealth := s.maxHealth;
      health := s.health;
      mana := s.mana;
      attackDamage := s.attackDamage;
      attackRange := BuildingRange(bt, s.attackRange);
      attackSpeed := s.attackSpeed;
      defense := s.defense;
      lastAttackTime := 0.0;
      alive := true;
      removalDue := None;
      stats := map[];
      cooldowns := map[];
      isDodging := false;
      dodgeTime := 0.0;
      originalTargetId := None;
      productionQueue := [];
      productionProgress := 0.0;
      productionRate := Or(t.productionRate, 1.0);
      goldGeneration := t.goldGeneration;
      lastGoldTime := 0.0;
      unitTypes := t.unitTypes;
      level := 1;
    }

    /** setTarget(id) */
    method SetTarget(t: Id)
      modifies this`targetId, this`targetPosition
      ensures State() == Targeted(old(State()), t)
    {
      targetId := Some(t);
      targetPosition := None;
    }

    /** setTargetPosition(x, y) */
    method SetTargetPosition(p: Point)
      modifies this`targetId, this`targetPosition
      ensures State() == Moving(old(State()), p)
    {
      targetPosition := Some(p);
      targetId := None;
    }

    /** toggleAutopilot() */
    method ToggleAutopilot()
      modifies this`autopilot, this`targetId, this`targetPosition
      ensures State() == Toggled(old(State()))
    {
      autopilot := !autopilot;
      if autopilot {
        targetId := None;
        targetPosition := None;
      }
    }

    /** die(gameState); the removal it schedules is recorded in removalDue. */
    method Die(now: real)
      modifies this`alive, this`targetId, this`targetPosition, this`removalDue
      ensures State() == Died(old(State()), now)
    {
      alive := false;
      targetId := None;
      targetPosition := None;
      removalDue := Some(now + 1000.0);
    }

    /** takeDamage(amount, attacker, gameState); the attacker is passed by id. */
    method TakeDamage(amount: real, attacker: Option<Id>, now: real)
      modifies this`health, this`alive, this`targetId, this`targetPosition, this`removalDue
      ensures State() == Damaged(old(State()), amount, attacker, now)
    {
      health := health - amount;
      if health <= 0.0 {
        health := 0.0;
        Die(now);
      }
      if !autopilot && targetId.None? && attacker.Some? {
        SetTarget(attacker.value);
      }
    }

    /** The mana step of update() */
    method RegenerateMana(dt: real)
      modifies this`mana
      ensures mana == Regenerated(old(mana), maxMana, dt)
    {
      if maxMana > 0.0 {
        mana := Min(maxMana, mana + maxMana * 0.05 * dt);
      }
    }

    /** The arrival test of update(): a target position within MIN_DISTANCE is dropped. */
    method Arrive()
      modifies this`targetPosition
      ensures old(targetPosition.Some? && speed > 0.0 && Within(pos, targetPosition.value, MinDistance)) ==>
                targetPosition.None?
      ensures !old(targetPosition.Some? && speed > 0.0 && Within(pos, targetPosition.value, MinDistance)) ==>
                targetPosition == old(targetPosition)
    {
      if targetPosition.Some? && speed > 0.0 && Within(pos, targetPosition.value, MinDistance) {
        targetPosition := None;
      }
    }

    /** The attack gate of update(): fire (and restart the attack clock), chase, hold or
      clear the target, as GateOf decides. */
    method AttackStep(now: real, entities: seq<Entity>, env: Env) returns (shot: Option<Projectile>)
      modifies this`targetId, this`targetPosition, this`lastAttackTime
      ensures var s := old(AsShooter()); var t := old(TargetView(entities, targetId));
              match GateOf(s, t, now, env)
              case Fire =>
                shot == Attack(s, t.value, now, env) && shot.Some? && lastAttackTime == now &&
                targetId == old(targetId) && targetPosition == old(targetPosition)
              case Clear =>
                shot.None? && targetId.None? && targetPosition == old(targetPosition) && lastAttackTime == old(lastAttackTime)
              case Chase(stop) =>
                shot.None? && targetPosition == Some(stop) && targetId == old(targetId) && lastAttackTime == old(lastAttackTime)
              case _ =>
                shot.None? && targetId == old(targetId) && targetPosition == old(targetPosition) && lastAttackTime == old(lastAttackTime)
    {
      ghost var g := GateOf(AsShooter(), TargetView(entities, targetId), now, env);
      shot := None;
      if targetId.Some? && attackDamage > 0.0 && attackRange > 0.0 {
        var target := FindById(entities, targetId.value);
        if target.Some? && target.value.alive && target.value.side != side {
          var t := target.value;
          if Within(pos, t.pos, attackRange) && AttackReady(now, lastAttackTime, attackSpeed) {
            shot := Attack(AsShooter(), t.Snapshot(), now, env);
            lastAttackTime := now;
          } else if !Within(pos, t.pos, attackRange) && speed > 0.0 {
            targetPosition := Some(env.toward(t.pos, pos, attackRange * AttackStopDistance));
          }
        } else {
          targetId := None;
        }
      }
    }

    /** findNearestEnemy(gameState) */
    method FindNearestEnemy(entities: seq<Entity>) returns (nearest: Option<Entity>)
      ensures match Nearest(Enemies, side, pos, Views(entities))
              case None => nearest.None?
              case Some(k) => nearest == Some(entities[k])
    {
      var k := FindNearest(Enemies, side, pos, entities);
      nearest := if k.Some? then Some(entities[k.value]) else None;
    }

    /** runAutopilot(gameState): an armed entity without a target takes the nearest enemy. */
    method RunAutopilot(entities: seq<Entity>)
      modifies this`targetId, this`targetPosition
      ensures var k := Nearest(Enemies, side, pos, old(Views(entities)));
              if old(attackDamage > 0.0 && targetId.None?) && k.Some?
              then State() == Targeted(old(State()), entities[k.value].id)
              else State() == old(State())
    {
      if attackDamage > 0.0 && targetId.None? {
        var nearest := FindNearestEnemy(entities);
        if nearest.Some? {
          SetTarget(nearest.value.id);
        }
      }
    }

    /** The arrival test and the attack gate of update(). */
    method Engage(now: real, entities: seq<Entity>, env: Env) returns (shot: Option<Projectile>)
      modifies this`targetId, this`targetPosition, this`lastAttackTime
      ensures State() == Gated(Arrived(old(State()), pos, speed), GateOf(old(AsShooter()), old(TargetView(entities, targetId)), now, env))
      ensures shot == Fired(old(AsShooter()), old(TargetView(entities, targetId)), now, env)
      ensures shot.Some? ==> shot.value.healing == 0.0 && shot.value.damage >= 1.0
      ensures shot.Some? ==> shot.value.sourceId == id && shot.value.side == side && lastAttackTime == now
      ensures shot.None? ==> lastAttackTime == old(lastAttackTime)
    {
      ghost var v0, s0, t0 := State(), AsShooter(), TargetView(entities, targetId);
      Arrive();
      ghost var t1 := TargetView(entities, targetId);
      assert State() == Arrived(v0, pos, speed) && AsShooter() == s0;
      GateSees(s0, t0, t1, now, env);
      ghost var g := GateOf(s0, t0, now, env);
      shot := AttackStep(now, entities, env);
      if g == Fire {
        GateFireNeverHeals(s0, t0, now, env);
        AttackSees(s0, t0.value, t1.value, now, env);
      }
    }

    /** update(deltaTime, gameState) without the movement: mana, arrival, the attack gate,
        then autopilot targeting. Returns the projectile attack() adds, if any. */
    method Update(dt: real, now: real, entities: seq<Entity>, env: Env) returns (shot: Option<Projectile>)
      modifies this`mana, this`targetId, this`targetPosition, this`lastAttackTime
      ensures mana == Regenerated(old(mana), maxMana, dt)
      ensures shot == Fired(old(AsShooter()), old(TargetView(entities, targetId)), now, env)
      ensures shot.Some? ==> shot.value.healing == 0.0 && shot.value.damage >= 1.0
      ensures shot.Some? ==> shot.value.sourceId == id && shot.value.side == side && lastAttackTime == now
      ensures shot.None? ==> lastAttackTime == old(lastAttackTime)
      ensures health == old(health) && alive == old(alive)
      ensures State() == UpdatedTargets(old(State()), old(AsShooter()), old(TargetView(entities, targetId)),
                                        old(NearestOf(Enemies, side, pos, entities)), now, env)
    {
      ghost var s0, t0, ws0 := AsShooter(), TargetView(entities, targetId), Views(entities);
      RegenerateMana(dt);
      ViewsPointwise(entities, ws0);
      assert AsShooter() == s0 && TargetView(entities, targetId) == t0;
      shot := Steer(now, entities, env);
    }

    /** The targeting half of update(): the arrival test and the attack gate, then the
        autopilot. */
    method Steer(now: real, entities: seq<Entity>, env: Env) returns (shot: Option<Projectile>)
      modifies this`targetId, this`targetPosition, this`lastAttackTime
      ensures shot == Fired(old(AsShooter()), old(TargetView(entities, targetId)), now, env)
      ensures shot.Some? ==> shot.value.healing == 0.0 && shot.value.damage >= 1.0
      ensures shot.Some? ==> shot.value.sourceId == id && shot.value.side == side && lastAttackTime == now
      ensures shot.None? ==> lastAttackTime == old(lastAttackTime)
      ensures State() == UpdatedTargets(old(State()), old(AsShooter()), old(TargetView(entities, targetId)),
                                        old(NearestOf(Enemies, side, pos, entities)), now, env)
    {
      ghost var v0, s0, t0 := State(), AsShooter(), TargetView(entities, targetId);
      ghost var n0, g := NearestOf(Enemies, side, pos, entities), GateOf(s0, t0, now, env);
      shot := Engage(now, entities, env);
      ghost var w := State();
      assert w == Gated(Arrived(v0, pos, speed), g);
      Pursue(entities);
      assert State() == if autopilot && attackDamage > 0.0 && w.targetId.None? && n0.Some? then Targeted(w, n0.value) else w;
    }

    /** The autopilot step of update(): runAutopilot on an entity on autopilot. */
    method Pursue(entities: seq<Entity>)
      modifies this`targetId, this`targetPosition
      ensures var n := old(NearestOf(Enemies, side, pos, entities));
              State() == if autopilot && attackDamage > 0.0 && old(targetId.None?) && n.Some?
                         then Targeted(old(State()), n.value) else old(State())
    {
      ghost var ws := Views(entities);
      ghost var k := Nearest(Enemies, side, pos, ws);
      NearestOfViews(Enemies, side, pos, entities);
      assert k.Some? ==> NearestId(Enemies, side, pos, ws) == Some(entities[k.value].id);
      if autopilot {
        RunAutopilot(entities);
      }
    }
  }
}
