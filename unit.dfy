/** unit.js: what a unit adds to an entity — ability cooldowns, dodging incoming
    projectiles, support and utility behaviour, and abilities. */
module Units {
  import opened Utils
  import opened Constants
  import opened Entities

  /** The object a possibly-null reference names, as a set. */
  function Only(e: Entity?): set<Entity> {
    if e == null then {} else {e}
  }

  function ViewOf(e: Entity?): (r: Option<View>)
    reads Only(e)`health, Only(e)`maxHealth, Only(e)`alive, Only(e)`autopilot, Only(e)`targetId, Only(e)`targetPosition, Only(e)`removalDue, Only(e)`defense
    ensures e == null <==> r.None?
  {
    if e == null then None else Some(e.Snapshot())
  }

  // ---------------------------------------------------------------------
  // Cooldowns
  // ---------------------------------------------------------------------

  /** The cooldown step of update(): every running cooldown c becomes max(0, c - dt).
      Keys never change; a cooldown never goes below zero and never grows for dt >= 0;
      one that has run out stays out. */
  function Decayed(m: map<string, real>, dt: real): (r: map<string, real>)
    ensures r.Keys == m.Keys
    ensures forall k :: k in m && m[k] >= 0.0 ==> r[k] >= 0.0
    ensures forall k :: k in m && dt >= 0.0 ==> r[k] <= m[k]
    ensures forall k :: k in m && m[k] <= 0.0 ==> r[k] == m[k]
    ensures forall k :: k in m && m[k] > 0.0 && dt >= m[k] ==> r[k] == 0.0
    ensures forall k :: k in m && m[k] > 0.0 && m[k] > dt ==> r[k] == m[k] - dt
  {
    map k | k in m :: if m[k] > 0.0 then Max(0.0, m[k] - dt) else m[k]
  }

  /** Two steps of decay are one step of their total. */
  lemma DecayedTwice(m: map<string, real>, a: real, b: real)
    requires a >= 0.0 && b >= 0.0
    ensures Decayed(Decayed(m, a), b) == Decayed(m, a + b)
  {
    var l, r := Decayed(Decayed(m, a), b), Decayed(m, a + b);
    forall k | k in m
      ensures l[k] == r[k]
    {
    }
  }

  /** The `for (const abilityId in this.cooldowns)` loop. */
  method DecayCooldowns(u: Entity, dt: real)
    modifies u`cooldowns
    ensures u.cooldowns == Decayed(old(u.cooldowns), dt)
  {
    ghost var m0 := u.cooldowns;
    var keys := u.cooldowns.Keys;
    while keys != {}
      invariant keys <= m0.Keys
      invariant u.cooldowns.Keys == m0.Keys
      invariant forall k :: k in m0 && k !in keys ==> u.cooldowns[k] == Decayed(m0, dt)[k]
      invariant forall k :: k in keys ==> u.cooldowns[k] == m0[k]
      decreases keys
    {
      var k :| k in keys;
      if u.cooldowns[k] > 0.0 {
        u.cooldowns := u.cooldowns[k := Max(0.0, u.cooldowns[k] - dt)];
      }
      keys := keys - {k};
    }
    assert u.cooldowns == Decayed(m0, dt);
  }

  // ---------------------------------------------------------------------
  // Dodging
  // ---------------------------------------------------------------------

  datatype Dodge = Dodge(
    isDodging: bool, dodgeTime: real, originalTargetId: Option<Id>,
    targetId: Option<Id>, targetPosition: Option<Point>)

  function DodgeOf(u: Entity): Dodge
    reads u
  {
    Dodge(u.isDodging, u.dodgeTime, u.originalTargetId, u.targetId, u.targetPosition)
  }

  /** A dodge in progress has time left; outside a dodge the clock is 0 and no target is saved. */
  predicate DodgeInvariant(d: Dodge) {
    (d.isDodging ==> d.dodgeTime > 0.0) &&
    (!d.isDodging ==> d.dodgeTime == 0.0 && d.originalTargetId.None?)
  }

  /** startDodge(x, y): the current target (if any) is saved and cleared, the dodge clock is
      set to EFFECT_DURATION.DODGE, and the unit heads for the dodge point. */
  function Started(d: Dodge, p: Point): (r: Dodge)
    ensures r.isDodging && r.dodgeTime == DodgeDuration
    ensures r.targetId.None? && r.targetPosition == Some(p)
    ensures r.originalTargetId == if d.targetId.Some? then d.targetId else d.originalTargetId
    ensures DodgeInvariant(d) ==> DodgeInvariant(r)
  {
    var saved := if d.targetId.Some? then d.(originalTargetId := d.targetId, targetId := None) else d;
    saved.(isDodging := true, dodgeTime := DodgeDuration, targetPosition := Some(p), targetId := None)
  }

  /** The dodge step of update(): the clock runs down, and when it reaches zero the dodge
      ends and a saved target comes back. The target position is left as it was. */
  function Ticked(d: Dodge, dt: real): (r: Dodge)
    ensures !d.isDodging ==> r == d
    ensures d.isDodging && d.dodgeTime - dt > 0.0 ==> r == d.(dodgeTime := d.dodgeTime - dt)
    ensures d.isDodging && d.dodgeTime - dt <= 0.0 ==>
              !r.isDodging && r.dodgeTime == 0.0 && r.originalTargetId.None? && r.targetPosition == d.targetPosition &&
              r.targetId == (if d.originalTargetId.Some? then d.originalTargetId else d.targetId)
    ensures DodgeInvariant(d) ==> DodgeInvariant(r)
  {
    if !d.isDodging then d
    else
      var t := d.dodgeTime - dt;
      if t > 0.0 then d.(dodgeTime := t)
      else if d.originalTargetId.Some? then
        d.(isDodging := false, dodgeTime := 0.0, targetId := d.originalTargetId, originalTargetId := None)
      else d.(isDodging := false, dodgeTime := 0.0)
  }

  /** The restore quirk: a unit that dodges while attacking gets its target back when the
      dodge ends, and keeps the dodge point too, so both targets are set. */
  lemma DodgeRestoresTarget(d: Dodge, p: Point, dt: real, t: Id)
    requires DodgeInvariant(d) && d.targetId == Some(t) && dt >= DodgeDuration
    ensures var r := Ticked(Started(d, p), dt);
            !r.isDodging && r.targetId == Some(t) && r.targetPosition == Some(p) && !Exclusive(Vitals(0.0, 0.0, true, true, r.targetId, r.targetPosition, None))
  {
  }

  function Total(dts: seq<real>): real
    decreases |dts|
  {
    if dts == [] then 0.0 else dts[0] + Total(dts[1..])
  }

  /** The dodge step applied over several ticks. */
  function TickedAll(d: Dodge, dts: seq<real>): Dodge
    decreases |dts|
  {
    if dts == [] then d else TickedAll(Ticked(d, dts[0]), dts[1..])
  }

  lemma {:induction false} NotDodgingStays(d: Dodge, dts: seq<real>)
    requires !d.isDodging
    ensures TickedAll(d, dts) == d
    decreases |dts|
  {
    if dts != [] {
      NotDodgingStays(Ticked(d, dts[0]), dts[1..]);
    }
  }

  /** A dodge never outlasts its clock: once the ticks add up to the time left, it is over. */
  lemma {:induction false} DodgeEnds(d: Dodge, dts: seq<real>)
    requires DodgeInvariant(d)
    requires forall i :: 0 <= i < |dts| ==> dts[i] >= 0.0
    requires Total(dts) >= d.dodgeTime
    ensures !TickedAll(d, dts).isDodging
    ensures DodgeInvariant(TickedAll(d, dts))
    decreases |dts|
  {
    if !d.isDodging {
      NotDodgingStays(d, dts);
    } else {
      assert dts != [];
      var n := Ticked(d, dts[0]);
      if n.isDodging {
        assert forall i :: 0 <= i < |dts[1..]| ==> dts[1..][i] == dts[i + 1];
        DodgeEnds(n, dts[1..]);
      } else {
        NotDodgingStays(n, dts[1..]);
      }
    }
  }

  method StartDodge(u: Entity, p: Point)
    modifies u`originalTargetId, u`targetId, u`isDodging, u`dodgeTime, u`targetPosition
    ensures DodgeOf(u) == Started(old(DodgeOf(u)), p)
  {
    if u.targetId.Some? {
      u.originalTargetId := u.targetId;
      u.targetId := None;
    }
    u.isDodging := true;
    u.dodgeTime := DodgeDuration;
    u.SetTargetPosition(p);
  }

  method UpdateDodge(u: Entity, dt: real)
    modifies u`originalTargetId, u`targetId, u`isDodging, u`dodgeTime
    ensures DodgeOf(u) == Ticked(old(DodgeOf(u)), dt)
  {
    if u.isDodging {
      u.dodgeTime := u.dodgeTime - dt;
      if u.dodgeTime <= 0.0 {
        u.isDodging := false;
        u.dodgeTime := 0.0;
        if u.originalTargetId.Some? {
          u.targetId := u.originalTargetId;
          u.originalTargetId := None;
        }
      }
    }
  }

  /** The projectiles checkForIncomingProjectiles reacts to: from the other side, not
      healing, aimed at nobody or at this unit, already in flight, and arriving in strictly
      between REACTION_TIME and 3 * REACTION_TIME (distance / speed, compared squared).
      A threat is never at the unit's own position, so the dodge has a direction. */
  predicate Threat(id: Id, side: int, me: Point, p: Projectile): (b: bool)
    ensures b ==> p.current.Some? && p.current.value != me && Dist2(p.current.value, me) > 0.0
  {
    p.side != side && !(p.healing > 0.0) && (p.targetId.None? || p.targetId.value == id) &&
    p.current.Some? && p.speed > 0.0 &&
    (ReactionTime * p.speed) * (ReactionTime * p.speed) < Dist2(p.current.value, me) &&
    Dist2(p.current.value, me) < (3.0 * ReactionTime * p.speed) * (3.0 * ReactionTime * p.speed)
  }

  /** The projectile loop: the first threat in list order (the loop breaks on it). */
  method FindThreat(id: Id, side: int, me: Point, ps: seq<Projectile>) returns (r: Option<nat>)
    ensures r.Some? ==> r.value < |ps| && Threat(id, side, me, ps[r.value])
    ensures r.Some? ==> forall j :: 0 <= j < r.value ==> !Threat(id, side, me, ps[j])
    ensures r.None? ==> forall j :: 0 <= j < |ps| ==> !Threat(id, side, me, ps[j])
  {
    var k := 0;
    while k < |ps|
      invariant 0 <= k <= |ps|
      invariant forall j :: 0 <= j < k ==> !Threat(id, side, me, ps[j])
    {
      var p := ps[k];
      if p.side == side || p.healing > 0.0 {
        k := k + 1;
        continue;
      }
      if p.targetId.Some? && p.targetId.value != id {
        k := k + 1;
        continue;
      }
      if p.current.Some? && p.speed > 0.0 {
        var d := Dist2(p.current.value, me);
        var lo := ReactionTime * p.speed;
        var hi := 3.0 * ReactionTime * p.speed;
        if lo * lo < d && d < hi * hi {
          return Some(k);
        }
      }
      k := k + 1;
    }
    return None;
  }

  /** Whether a unit tries to dodge this tick: it gives up when the roll exceeds its
      intelligence (DODGE_INTELLIGENCE on autopilot, 1.0 under manual control). */
  function Attempts(autopilot: bool, roll: real): (b: bool)
    ensures !autopilot && roll <= 1.0 ==> b
    ensures autopilot ==> (b <==> roll <= DodgeIntelligence)
  {
    var intelligence := if autopilot then DodgeIntelligence else 1.0;
    !(roll > intelligence)
  }

  /** With a roll r in [0, 1), a unit on autopilot tries exactly when r <= 0.7, so the
      chance of trying is the intelligence, as the comment beside the roll says. */
  lemma AttemptChanceIsIntelligence(roll: real)
    requires 0.0 <= roll < 1.0
    ensures Attempts(true, roll) <==> roll <= 0.7
    ensures Attempts(false, roll)
  {
  }

  /** The dodge point: three radii from the unit, at right angles to the line from the
      projectile, to the side the second roll picks. */
  function DodgePoint(u: Entity, p: Projectile, env: Env): Point
    requires p.current.Some?
  {
    env.perpendicular(p.current.value, u.pos, u.radius * 3.0, env.roll(u.id, DodgeSide) > 0.5)
  }

  /** checkForIncomingProjectiles(gameState) */
  method CheckForIncomingProjectiles(u: Entity, projectiles: seq<Projectile>, env: Env)
    modifies u`originalTargetId, u`targetId, u`isDodging, u`dodgeTime, u`targetPosition
    ensures var k := FirstThreat(u.id, u.side, u.pos, projectiles);
            if Attempts(old(u.autopilot), env.roll(u.id, DodgeAttempt)) && k.Some?
            then DodgeOf(u) == Started(old(DodgeOf(u)), DodgePoint(u, projectiles[k.value], env))
            else DodgeOf(u) == old(DodgeOf(u))
  {
    if !Attempts(u.autopilot, env.roll(u.id, DodgeAttempt)) {
      return;
    }
    var k := FindThreat(u.id, u.side, u.pos, projectiles);
    FirstThreatIs(u.id, u.side, u.pos, projectiles, k);
    if k.Some? {
      StartDodge(u, DodgePoint(u, projectiles[k.value], env));
    }
  }

  /** The first threat, as a function. */
  function FirstThreat(id: Id, side: int, me: Point, ps: seq<Projectile>): (r: Option<nat>)
    ensures r.Some? ==> r.value < |ps| && Threat(id, side, me, ps[r.value])
    ensures r.Some? ==> forall j :: 0 <= j < r.value ==> !Threat(id, side, me, ps[j])
    ensures r.None? ==> forall j :: 0 <= j < |ps| ==> !Threat(id, side, me, ps[j])
    decreases |ps|
  {
    if ps == [] then None
    else if Threat(id, side, me, ps[0]) then Some(0)
    else match FirstThreat(id, side, me, ps[1..])
      case None => None
      case Some(k) => Some(k + 1)
  }

  /** The first-threat conditions single out one index. */
  lemma FirstThreatIs(id: Id, side: int, me: Point, ps: seq<Projectile>, r: Option<nat>)
    requires r.Some? ==> r.value < |ps| && Threat(id, side, me, ps[r.value])
    requires r.Some? ==> forall j :: 0 <= j < r.value ==> !Threat(id, side, me, ps[j])
    requires r.None? ==> forall j :: 0 <= j < |ps| ==> !Threat(id, side, me, ps[j])
    ensures r == FirstThreat(id, side, me, ps)
  {
  }

  // ---------------------------------------------------------------------
  // Support and utility behaviour
  // ---------------------------------------------------------------------

  /** findNearestInjuredAlly(gameState): the scan of findNearestEnemy over living allies
      below 80% health, which may pick the unit itself. */
  method FindNearestInjuredAlly(u: Entity, entities: seq<Entity>) returns (ally: Option<Entity>)
    ensures match Nearest(InjuredAllies, u.side, u.pos, Views(entities))
            case None => ally.None?
            case Some(k) => ally == Some(entities[k])
  {
    var k := FindNearest(InjuredAllies, u.side, u.pos, entities);
    ally := if k.Some? then Some(entities[k.value]) else None;
  }

  /** The self-target quirk: an injured unit alone on its side picks itself. */
  lemma InjuredSelfIsPicked(me: View)
    requires me.vitals.alive && me.vitals.health < me.vitals.maxHealth * 0.8
    ensures Nearest(InjuredAllies, me.side, me.pos, [me]) == Some(0)
  {
  }

  /** runSupportBehavior(gameState) */
  method RunSupportBehavior(u: Entity, entities: seq<Entity>)
    modifies u`targetId, u`targetPosition
    ensures var k := Nearest(InjuredAllies, u.side, u.pos, old(Views(entities)));
            if old(u.targetId.None?) && k.Some?
            then u.State() == Targeted(old(u.State()), entities[k.value].id)
            else u.State() == old(u.State())
  {
    if u.targetId.None? {
      var ally := FindNearestInjuredAlly(u, entities);
      if ally.Some? {
        u.SetTarget(ally.value.id);
      }
    }
  }

  /** runUtilityBehavior(gameState): with no target of either kind, a 1% roll sends the
      unit to a random position inside the padded bounds. */
  method RunUtilityBehavior(u: Entity, width: int, height: int, env: Env)
    modifies u`targetId, u`targetPosition
    ensures var wander := old(u.targetId.None? && u.targetPosition.None?) && env.roll(u.id, Wander) < 0.01;
            var spot := RandomPosition(width, height, DefaultPadding, env.roll(u.id, WanderX), env.roll(u.id, WanderY));
            if wander then u.State() == Moving(old(u.State()), spot) else u.State() == old(u.State())
  {
    if u.targetId.None? && u.targetPosition.None? && env.roll(u.id, Wander) < 0.01 {
      var spot := RandomPosition(width, height, DefaultPadding, env.roll(u.id, WanderX), env.roll(u.id, WanderY));
      u.SetTargetPosition(spot);
    }
  }

  /** stop(): both targets cleared. */
  method Stop(u: Entity)
    modifies u`targetId, u`targetPosition
    ensures u.State() == old(u.State()).(targetId := None, targetPosition := None)
    ensures Exclusive(u.State())
  {
    u.targetId := None;
    u.targetPosition := None;
  }

  // ---------------------------------------------------------------------
  // Abilities
  // ---------------------------------------------------------------------

  /** A buff's setTimeout: the stat loses the value again at `due`. */
  datatype BuffTimer = BuffTimer(stat: string, value: real, due: real)

  /** The buff's effect on the stats: `stats[stat] = (stats[stat] || 0) + value`. */
  function Buffed(stats: map<string, real>, stat: string, value: real): map<string, real>
  {
    stats[stat := (if stat in stats then stats[stat] else 0.0) + value]
  }

  /** The timer a buff sets: one `duration` seconds after `now` (in milliseconds), and
      none for a buff without a duration. */
  function BuffTimerOf(a: Ability, now: real): Option<BuffTimer>
  {
    if a.duration != 0.0 then Some(BuffTimer(a.stat, a.value, now + a.duration * 1000.0)) else None
  }

  /** abilities.find(a => a.id === abilityId) */
  function FindAbility(abilities: seq<Ability>, abilityId: string): (r: Option<Ability>)
    ensures r.Some? ==> r.value in abilities && r.value.id == abilityId
    ensures r.None? <==> forall a :: a in abilities ==> a.id != abilityId
    ensures r.Some? ==> exists k :: 0 <= k < |abilities| && abilities[k] == r.value &&
                          forall j :: 0 <= j < k ==> abilities[j].id != abilityId
    decreases |abilities|
  {
    if abilities == [] then None
    else if abilities[0].id == abilityId then Some(abilities[0])
    else
      var r := FindAbility(abilities[1..], abilityId);
      if r.Some? then
        ghost var k :| 0 <= k < |abilities[1..]| && abilities[1..][k] == r.value &&
                       forall j :: 0 <= j < k ==> abilities[1..][j].id != abilityId;
        assert abilities[k + 1] == r.value;
        r
      else r
  }

  /** The all-or-nothing checks of useAbility: the ability exists, its cooldown is not
      running, and a non-zero mana cost is covered. */
  function Usable(abilities: seq<Ability>, cooldowns: map<string, real>, mana: real, abilityId: string): (r: Option<Ability>)
    ensures r.Some? ==> r == FindAbility(abilities, abilityId)
    ensures r.None? <==> FindAbility(abilities, abilityId).None? ||
                         (abilityId in cooldowns && cooldowns[abilityId] > 0.0) ||
                         (FindAbility(abilities, abilityId).value.manaCost != 0.0 &&
                          mana < FindAbility(abilities, abilityId).value.manaCost)
    ensures r.Some? ==> mana >= r.value.manaCost || r.value.manaCost == 0.0
  {
    var a := FindAbility(abilities, abilityId);
    if a.None? then None
    else if abilityId in cooldowns && cooldowns[abilityId] > 0.0 then None
    else if a.value.manaCost != 0.0 && mana < a.value.manaCost then None
    else a
  }

  /** Whether a ready ability takes effect: heal and buff need a living same-side target,
      damage a living enemy target, an area ability a position; other kinds never do. */
  function Takes(kind: AbilityKind, side: int, target: Option<View>, position: Option<Point>): (b: bool)
    ensures kind == HealAbility || kind == BuffAbility ==>
              (b <==> target.Some? && target.value.vitals.alive && target.value.side == side)
    ensures kind == DamageAbility ==> (b <==> target.Some? && target.value.vitals.alive && target.value.side != side)
    ensures kind == AoeAbility ==> (b <==> position.Some?)
    ensures kind == OtherAbility ==> !b
  {
    match kind
    case HealAbility => target.Some? && target.value.vitals.alive && target.value.side == side
    case BuffAbility => target.Some? && target.value.vitals.alive && target.value.side == side
    case DamageAbility => target.Some? && target.value.vitals.alive && target.value.side != side
    case AoeAbility => position.Some?
    case OtherAbility => false
  }

  /** What an area ability does to one entity in its radius: damage to an enemy when it
      affects enemies and has damage, capped healing to an ally when it affects allies and
      has healing, nothing otherwise. */
  function AoeEffect(a: Ability, side: int, attacker: Id, now: real, targetSide: int, v: Vitals): (r: Vitals)
    ensures a.affectsEnemies && targetSide != side && a.damage != 0.0 ==> r == Damaged(v, a.damage, Some(attacker), now)
    ensures a.affectsAllies && targetSide == side && a.heal != 0.0 ==> r == Healed(v, a.heal)
    ensures (!(a.affectsEnemies && targetSide != side && a.damage != 0.0) &&
             !(a.affectsAllies && targetSide == side && a.heal != 0.0)) ==> r == v
  {
    var v1 := if a.affectsEnemies && targetSide != side && a.damage != 0.0 then Damaged(v, a.damage, Some(attacker), now) else v;
    if a.affectsAllies && targetSide == side && a.heal != 0.0 then Healed(v1, a.heal) else v1
  }

  /** An area ability with non-negative amounts keeps a living entity's vitals consistent. */
  lemma AoeKeepsConsistent(a: Ability, side: int, attacker: Id, now: real, targetSide: int, v: Vitals)
    requires Consistent(v) && v.alive && a.damage >= 0.0 && a.heal >= 0.0
    ensures Consistent(AoeEffect(a, side, attacker, now, targetSide, v))
  {
    DamageKeepsConsistent(v, a.damage, Some(attacker), now);
    if !(a.affectsEnemies && targetSide != side && a.damage != 0.0) {
      HealKeepsConsistent(v, a.heal);
    }
  }

  predicate Distinct(es: seq<Entity>) {
    forall i, j :: 0 <= i < j < |es| ==> es[i] != es[j]
  }

  lemma {:induction false} InRadiusDistinct(es: seq<Entity>, c: Point, r: real)
    requires Distinct(es)
    ensures Distinct(InRadius(es, c, r))
    decreases |es|
  {
    if es != [] {
      assert Distinct(es[1..]);
      InRadiusDistinct(es[1..], c, r);
      var rest := InRadius(es[1..], c, r);
      assert es[0] !in rest;
    }
  }

  /** The forEach of an area ability over the entities it caught. */
  method ApplyAoe(attacker: Id, side: int, a: Ability, hit: seq<Entity>, now: real)
    requires Distinct(hit)
    modifies (set e | e in hit)`health, (set e | e in hit)`alive, (set e | e in hit)`targetId,
             (set e | e in hit)`targetPosition, (set e | e in hit)`removalDue
    ensures forall j :: 0 <= j < |hit| ==> hit[j].State() == AoeEffect(a, side, attacker, now, hit[j].side, old(hit[j].State()))
  {
    var i := 0;
    while i < |hit|
      invariant 0 <= i <= |hit|
      invariant forall j :: 0 <= j < i ==> hit[j].State() == AoeEffect(a, side, attacker, now, hit[j].side, old(hit[j].State()))
      invariant forall j :: i <= j < |hit| ==> hit[j].State() == old(hit[j].State())
    {
      var e := hit[i];
      if a.affectsEnemies && e.side != side && a.damage != 0.0 {
        e.TakeDamage(a.damage, Some(attacker), now);
      }
      if a.affectsAllies && e.side == side && a.heal != 0.0 {
        e.health := Min(e.maxHealth, e.health + a.heal);
      }
      i := i + 1;
    }
  }

  /** The effect of a ready ability, by kind (the switch of useAbility). Returns whether it
      took effect, and the buff reversal to schedule, if any. */
  method ApplyAbility(side: int, id: Id, a: Ability, target: Entity?, position: Option<Point>, entities: seq<Entity>, now: real)
    returns (ok: bool, timer: Option<BuffTimer>)
    requires Distinct(entities)
    modifies Only(target)`health, Only(target)`alive, Only(target)`targetId, Only(target)`targetPosition,
             Only(target)`removalDue, Only(target)`stats
    modifies (set e | e in entities)`health, (set e | e in entities)`alive, (set e | e in entities)`targetId,
             (set e | e in entities)`targetPosition, (set e | e in entities)`removalDue
    ensures ok <==> Takes(a.kind, side, old(ViewOf(target)), position)
    ensures timer.Some? ==> ok && a.kind == BuffAbility
    ensures !ok ==> (target != null ==> target.State() == old(target.State()) && target.stats == old(target.stats)) &&
                    forall e :: e in entities ==> e.State() == old(e.State())
    ensures ok && a.kind == HealAbility ==> target.State() == Healed(old(target.State()), a.value)
    ensures ok && a.kind == DamageAbility ==> target.State() == Damaged(old(target.State()), a.value, Some(id), now)
    ensures ok && a.kind == BuffAbility ==>
              target.State() == old(target.State()) &&
              target.stats == Buffed(old(target.stats), a.stat, a.value) && timer == BuffTimerOf(a, now)
    ensures a.kind != AoeAbility ==> forall e :: e in entities && e != target ==> e.State() == old(e.State())
    ensures a.kind != BuffAbility && target != null ==> target.stats == old(target.stats)
    ensures ok && a.kind == AoeAbility ==>
              (forall e :: e in entities ==>
                 e.State() == if old(e.alive) && Within(position.value, e.pos, a.radius)
                              then AoeEffect(a, side, id, now, e.side, old(e.State()))
                              else old(e.State())) &&
              (target != null && target !in entities ==> target.State() == old(target.State()))
  {
    ok := false;
    timer := None;
    match a.kind {
      case HealAbility =>
        if target != null && target.alive && target.side == side {
          target.health := Min(target.maxHealth, target.health + a.value);
          ok := true;
        }
      case DamageAbility =>
        if target != null && target.alive && target.side != side {
          target.TakeDamage(a.value, Some(id), now);
          ok := true;
        }
      case BuffAbility =>
        if target != null && target.alive && target.side == side {
          var current := if a.stat in target.stats then target.stats[a.stat] else 0.0;
          target.stats := target.stats[a.stat := current + a.value];
          if a.duration != 0.0 {
            timer := Some(BuffTimer(a.stat, a.value, now + a.duration * 1000.0));
          }
          ok := true;
        }
      case AoeAbility =>
        if position.Some? {
          ApplyAoeAt(side, id, a, position.value, entities, now);
          ok := true;
        }
      case OtherAbility =>
    }
  }

  /** An area ability at `c`: the living entities within its radius, then the effect on each. */
  method ApplyAoeAt(side: int, id: Id, a: Ability, c: Point, entities: seq<Entity>, now: real)
    requires Distinct(entities)
    modifies (set e | e in entities)`health, (set e | e in entities)`alive, (set e | e in entities)`targetId,
             (set e | e in entities)`targetPosition, (set e | e in entities)`removalDue
    ensures forall e :: e in entities ==>
              e.State() == if old(e.alive) && Within(c, e.pos, a.radius)
                           then AoeEffect(a, side, id, now, e.side, old(e.State()))
                           else old(e.State())
  {
    var hit := InRadius(entities, c, a.radius);
    InRadiusDistinct(entities, c, a.radius);
    ApplyAoe(id, side, a, hit, now);
    forall e | e in entities
      ensures e.State() == if old(e.alive) && Within(c, e.pos, a.radius)
                           then AoeEffect(a, side, id, now, e.side, old(e.State()))
                           else old(e.State())
    {
      if e in hit {
        var j :| 0 <= j < |hit| && hit[j] == e;
      }
    }
  }

  /** useAbility(abilityId, target, position, gameState): an unknown ability, a running
      cooldown or too little mana refuses it; otherwise it takes effect by kind, and only
      when it did are its mana cost paid and its cooldown started. */
  method UseAbility(u: Entity, abilityId: string, target: Entity?, position: Option<Point>, entities: seq<Entity>, now: real)
    returns (ok: bool, timer: Option<BuffTimer>)
    requires Distinct(entities)
    modifies u`mana, u`cooldowns
    modifies Only(target)`health, Only(target)`alive, Only(target)`targetId, Only(target)`targetPosition,
             Only(target)`removalDue, Only(target)`stats
    modifies (set e | e in entities)`health, (set e | e in entities)`alive, (set e | e in entities)`targetId,
             (set e | e in entities)`targetPosition, (set e | e in entities)`removalDue
    ensures var a := Usable(u.abilities, old(u.cooldowns), old(u.mana), abilityId);
            ok <==> a.Some? && Takes(a.value.kind, u.side, old(ViewOf(target)), position)
    ensures var a := FindAbility(u.abilities, abilityId);
            ok ==> u.mana == old(u.mana) - a.value.manaCost && u.cooldowns == old(u.cooldowns)[abilityId := a.value.cooldown]
    ensures !ok ==> u.mana == old(u.mana) && u.cooldowns == old(u.cooldowns) && timer.None?
    ensures !ok ==> (target != null ==> target.State() == old(target.State()) && target.stats == old(target.stats)) &&
                    forall e :: e in entities ==> e.State() == old(e.State())
    ensures var a := FindAbility(u.abilities, abilityId);
            ok && a.value.kind == HealAbility ==> target.State() == Healed(old(target.State()), a.value.value)
    ensures var a := FindAbility(u.abilities, abilityId);
            ok && a.value.kind == DamageAbility ==> target.State() == Damaged(old(target.State()), a.value.value, Some(u.id), now)
    ensures ok && FindAbility(u.abilities, abilityId).value.kind == BuffAbility ==>
              var a := FindAbility(u.abilities, abilityId).value;
              target.State() == old(target.State()) &&
              target.stats == Buffed(old(target.stats), a.stat, a.value) && timer == BuffTimerOf(a, now)
    ensures var a := FindAbility(u.abilities, abilityId);
            ok && a.value.kind != AoeAbility ==> forall e :: e in entities && e != target ==> e.State() == old(e.State())
    ensures var a := FindAbility(u.abilities, abilityId);
            ok && a.value.kind != BuffAbility && target != null ==> target.stats == old(target.stats)
    ensures var a := FindAbility(u.abilities, abilityId);
            ok && a.value.kind == AoeAbility ==>
              forall e :: e in entities ==>
                e.State() == if old(e.alive) && Within(position.value, e.pos, a.value.radius)
                             then AoeEffect(a.value, u.side, u.id, now, e.side, old(e.State()))
                             else old(e.State())
    ensures var a := FindAbility(u.abilities, abilityId);
            timer.Some? ==> ok && a.value.kind == BuffAbility && timer == BuffTimerOf(a.value, now)
  {
    ok := false;
    timer := None;
    var found := FindAbility(u.abilities, abilityId);
    if found.None? {
      return;
    }
    var a := found.value;
    if abilityId in u.cooldowns && u.cooldowns[abilityId] > 0.0 {
      return;
    }
    if a.manaCost != 0.0 && u.mana < a.manaCost {
      return;
    }
    ok, timer := ApplyAbility(u.side, u.id, a, target, position, entities, now);
    if ok {
      Pay(u, abilityId, a);
    }
  }

  /** What a successful useAbility costs: the mana cost, when there is one, and the
      ability's cooldown. */
  method Pay(u: Entity, abilityId: string, a: Ability)
    modifies u`mana, u`cooldowns
    ensures u.mana == old(u.mana) - a.manaCost && u.cooldowns == old(u.cooldowns)[abilityId := a.cooldown]
  {
    if a.manaCost != 0.0 {
      u.mana := u.mana - a.manaCost;
    }
    u.cooldowns := u.cooldowns[abilityId := a.cooldown];
  }

  /** The buff's setTimeout callback: `target.stats[stat] -= value`. */
  method RevertBuff(target: Entity, t: BuffTimer)
    modifies target`stats
    ensures t.stat in old(target.stats) ==> target.stats == old(target.stats)[t.stat := old(target.stats)[t.stat] - t.value]
    ensures t.stat !in old(target.stats) ==> target.stats == old(target.stats)
  {
    if t.stat in target.stats {
      target.stats := target.stats[t.stat := target.stats[t.stat] - t.value];
    }
  }

  /** A buff followed by its reversal leaves the stat where it was when it was present. */
  lemma BuffThenRevert(stats: map<string, real>, stat: string, value: real)
    requires stat in stats
    ensures var buffed := Buffed(stats, stat, value);
            buffed[stat := buffed[stat] - value] == stats
  {
    var buffed := Buffed(stats, stat, value);
    assert buffed[stat := buffed[stat] - value][stat] == stats[stat];
  }

  // ---------------------------------------------------------------------
  // The unit's tick
  // ---------------------------------------------------------------------

  /** The dodge part of update(): a unit that is not dodging and can move starts a dodge
      away from the first threat when its roll lets it try, and then the dodge clock runs. */
  function DodgeStep(d: Dodge, u: Entity, autopilot: bool, projectiles: seq<Projectile>, dt: real, env: Env): (r: Dodge)
    ensures DodgeInvariant(d) ==> DodgeInvariant(r)
  {
    var k := FirstThreat(u.id, u.side, u.pos, projectiles);
    var started := if !d.isDodging && u.speed > 0.0 && Attempts(autopilot, env.roll(u.id, DodgeAttempt)) && k.Some?
                   then Started(d, DodgePoint(u, projectiles[k.value], env)) else d;
    Ticked(started, dt)
  }

  /** A unit already dodging does not look for threats: only its clock runs. */
  lemma DodgingIgnoresThreats(d: Dodge, u: Entity, autopilot: bool, projectiles: seq<Projectile>, dt: real, env: Env)
    requires d.isDodging
    ensures DodgeStep(d, u, autopilot, projectiles, dt, env) == Ticked(d, dt)
  {
  }

  /** A mobile unit that tries and sees a threat starts dodging: its target is saved, it
      heads for the dodge point, and for a tick shorter than the dodge it is still
      dodging afterwards. */
  lemma ThreatStartsDodge(d: Dodge, u: Entity, autopilot: bool, projectiles: seq<Projectile>, dt: real, env: Env)
    requires !d.isDodging && u.speed > 0.0 && Attempts(autopilot, env.roll(u.id, DodgeAttempt))
    requires FirstThreat(u.id, u.side, u.pos, projectiles).Some?
    requires 0.0 <= dt < DodgeDuration
    ensures var k := FirstThreat(u.id, u.side, u.pos, projectiles).value;
            var r := DodgeStep(d, u, autopilot, projectiles, dt, env);
            r.isDodging && r.dodgeTime == DodgeDuration - dt && r.targetId.None? &&
            r.targetPosition == Some(DodgePoint(u, projectiles[k], env)) &&
            r.originalTargetId == (if d.targetId.Some? then d.targetId else d.originalTargetId)
  {
  }

  /** Without a threat in range, or when the roll says no, nothing about the dodge changes
      for a unit that is not dodging. */
  lemma NoThreatNoDodge(d: Dodge, u: Entity, autopilot: bool, projectiles: seq<Projectile>, dt: real, env: Env)
    requires !d.isDodging
    requires FirstThreat(u.id, u.side, u.pos, projectiles).None? || !Attempts(autopilot, env.roll(u.id, DodgeAttempt))
    ensures DodgeStep(d, u, autopilot, projectiles, dt, env) == d
  {
  }

  /** The targets the role step of update() leaves: on autopilot, an untargeted support
      unit takes the nearest injured ally (`ally`), and a utility unit with neither a target
      nor a target point wanders to a random spot on a 1% roll; every other unit, and every
      unit under manual control, keeps its targets. */
  function RoleStep(v: Vitals, role: string, id: Id, ally: Option<Id>, width: int, height: int, env: Env): (r: Vitals)
    ensures r.(targetId := v.targetId, targetPosition := v.targetPosition) == v
    ensures !v.autopilot || (role != "support" && role != "utility") ==> r == v
  {
    if v.autopilot && role == "support" && v.targetId.None? && ally.Some? then Targeted(v, ally.value)
    else if v.autopilot && role == "utility" && v.targetId.None? && v.targetPosition.None? && env.roll(id, Wander) < 0.01 then
      Moving(v, RandomPosition(width, height, DefaultPadding, env.roll(id, WanderX), env.roll(id, WanderY)))
    else v
  }

  /** An untargeted support unit on autopilot with an injured ally in sight (itself
      included) ends the role step aiming at the nearest one. */
  lemma SupportFindsInjured(v: Vitals, id: Id, side: int, me: Point, ws: seq<View>, j: nat, width: int, height: int, env: Env)
    requires v.autopilot && v.targetId.None?
    requires j < |ws| && Candidate(InjuredAllies, side, ws[j])
    ensures var r := RoleStep(v, "support", id, NearestId(InjuredAllies, side, me, ws), width, height, env);
            r.targetId.Some? && r.targetPosition.None? && r.targetId == NearestId(InjuredAllies, side, me, ws)
  {
    NearestSpec(InjuredAllies, side, me, ws);
  }

  /** A wandering utility unit only ever walks to a point inside the padded field. */
  lemma WanderStaysInField(v: Vitals, id: Id, ally: Option<Id>, width: int, height: int, env: Env)
    requires 0.0 <= env.roll(id, WanderX) < 1.0 && 0.0 <= env.roll(id, WanderY) < 1.0
    requires DefaultPadding <= width - DefaultPadding && DefaultPadding <= height - DefaultPadding
    requires v.targetPosition.None?
    ensures var r := RoleStep(v, "utility", id, ally, width, height, env);
            r.targetPosition.Some? ==>
              DefaultPadding as real <= r.targetPosition.value.x <= (width - DefaultPadding) as real &&
              DefaultPadding as real <= r.targetPosition.value.y <= (height - DefaultPadding) as real
  {
  }

  /** update(deltaTime, gameState): the entity step, cooldown decay, the dodge check (when not
      dodging and able to move), the dodge clock, then support or utility behaviour on
      autopilot. Returns the projectile the entity step fired, if any. */
  method Update(u: Entity, dt: real, now: real, entities: seq<Entity>, projectiles: seq<Projectile>,
                width: int, height: int, env: Env) returns (shot: Option<Projectile>)
    modifies u`mana, u`targetId, u`targetPosition, u`lastAttackTime, u`cooldowns,
             u`originalTargetId, u`isDodging, u`dodgeTime
    ensures u.mana == Regenerated(old(u.mana), u.maxMana, dt)
    ensures u.cooldowns == Decayed(old(u.cooldowns), dt)
    ensures shot == Fired(old(u.AsShooter()), old(TargetView(entities, u.targetId)), now, env)
    ensures shot.Some? ==> shot.value.healing == 0.0 && shot.value.sourceId == u.id && u.lastAttackTime == now
    ensures shot.None? ==> u.lastAttackTime == old(u.lastAttackTime)
    ensures u.health == old(u.health) && u.alive == old(u.alive)
    ensures DodgeInvariant(old(DodgeOf(u))) ==> DodgeInvariant(DodgeOf(u))
    ensures var v := UpdatedTargets(old(u.State()), old(u.AsShooter()), old(TargetView(entities, u.targetId)),
                                    old(NearestOf(Enemies, u.side, u.pos, entities)), now, env);
            var d := DodgeStep(old(DodgeOf(u)).(targetId := v.targetId, targetPosition := v.targetPosition),
                               u, old(u.autopilot), projectiles, dt, env);
            u.isDodging == d.isDodging && u.dodgeTime == d.dodgeTime && u.originalTargetId == d.originalTargetId &&
            u.State() == RoleStep(v.(targetId := d.targetId, targetPosition := d.targetPosition), u.role, u.id,
                                  old(NearestOf(InjuredAllies, u.side, u.pos, entities)), width, height, env)
  {
    ghost var d0 := DodgeOf(u);
    shot := u.Update(dt, now, entities, env);
    ghost var v := u.State();
    assert DodgeOf(u) == d0.(targetId := v.targetId, targetPosition := v.targetPosition);
    React(u, dt, entities, projectiles, width, height, env);
  }

  /** What update() does after the entity step: cooldown decay, the dodge, and the role
      step. */
  method React(u: Entity, dt: real, entities: seq<Entity>, projectiles: seq<Projectile>, width: int, height: int, env: Env)
    modifies u`targetId, u`targetPosition, u`cooldowns, u`originalTargetId, u`isDodging, u`dodgeTime
    ensures u.cooldowns == Decayed(old(u.cooldowns), dt)
    ensures var d := DodgeStep(old(DodgeOf(u)), u, old(u.autopilot), projectiles, dt, env);
            u.isDodging == d.isDodging && u.dodgeTime == d.dodgeTime && u.originalTargetId == d.originalTargetId &&
            u.State() == RoleStep(old(u.State()).(targetId := d.targetId, targetPosition := d.targetPosition), u.role, u.id,
                                  old(NearestOf(InjuredAllies, u.side, u.pos, entities)), width, height, env)
  {
    DecayCooldowns(u, dt);
    Evade(u, projectiles, dt, env);
    RunRoleBehavior(u, entities, width, height, env);
  }

  /** The dodge half of update(): the dodge check when not dodging and able to move, then
      the dodge clock. Only the dodge state and the two targets change. */
  method Evade(u: Entity, projectiles: seq<Projectile>, dt: real, env: Env)
    modifies u`originalTargetId, u`targetId, u`isDodging, u`dodgeTime, u`targetPosition
    ensures DodgeOf(u) == DodgeStep(old(DodgeOf(u)), u, old(u.autopilot), projectiles, dt, env)
    ensures u.State() == old(u.State()).(targetId := u.targetId, targetPosition := u.targetPosition)
  {
    if !u.isDodging && u.speed > 0.0 {
      CheckForIncomingProjectiles(u, projectiles, env);
    }
    UpdateDodge(u, dt);
  }

  /** The role step of update(): on autopilot, a support unit seeks an injured ally and a
      utility unit may wander; every other unit keeps its targets. */
  method RunRoleBehavior(u: Entity, entities: seq<Entity>, width: int, height: int, env: Env)
    modifies u`targetId, u`targetPosition
    ensures !u.autopilot || (u.role != "support" && u.role != "utility") ==> u.State() == old(u.State())
    ensures u.State() == RoleStep(old(u.State()), u.role, u.id, old(NearestOf(InjuredAllies, u.side, u.pos, entities)),
                                  width, height, env)
  {
    ghost var ws := Views(entities);
    ghost var k := Nearest(InjuredAllies, u.side, u.pos, ws);
    NearestOfViews(InjuredAllies, u.side, u.pos, entities);
    assert k.Some? ==> NearestId(InjuredAllies, u.side, u.pos, ws) == Some(entities[k.value].id);
    if u.autopilot {
      if u.role == "support" {
        RunSupportBehavior(u, entities);
      } else if u.role == "utility" {
        RunUtilityBehavior(u, width, height, env);
      }
    }
  }
}
