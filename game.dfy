/** game.js: the game state — the entity, projectile and effect lists, the gold ledger,
    the clock and the speed — and the world tick: entity updates, projectile flight and
    collisions, effect decay and the game-over rule. */
module World {
  import opened Utils
  import opened Constants
  import opened Entities
  import opened Resources
  import Units
  import Buildings
  import Catalog

  // ---------------------------------------------------------------------
  // Removing one element (Array.prototype.splice(i, 1))
  // ---------------------------------------------------------------------

  /** splice(i, 1): the element at i goes; an index past the end removes nothing. What is
      left together with the element removed is what there was. */
  function Splice<T>(s: seq<T>, i: nat): (r: seq<T>)
  {
    if i < |s| then s[..i] + s[i + 1..] else s
  }

  /** What splice keeps: everything before i in place, everything after i one step down. */
  lemma SpliceFrame<T>(s: seq<T>, i: nat)
    ensures i < |s| ==> |Splice(s, i)| == |s| - 1
    ensures i >= |s| ==> Splice(s, i) == s
    ensures forall k :: 0 <= k < i && k < |s| ==> Splice(s, i)[k] == s[k]
    ensures forall k :: i <= k < |Splice(s, i)| ==> Splice(s, i)[k] == s[k + 1]
  {
  }

  // ---------------------------------------------------------------------
  // Effects
  // ---------------------------------------------------------------------

  /** An on-screen marker: its type ("damage" or "heal"), where, how much, and the
      seconds it has left. */
  datatype Effect = Effect(kind: string, pos: Point, amount: real, duration: real)

  /** The effect step of update(): every duration falls by dt, and those left at or
      below zero are removed. */
  function DecayEffects(es: seq<Effect>, dt: real): seq<Effect>
    decreases |es|
  {
    if es == [] then [] else Kept(es[0], dt) + DecayEffects(es[1..], dt)
  }

  /** One effect after the step: dt less time, or gone once at or below zero. */
  function Kept(e: Effect, dt: real): seq<Effect> {
    var x := e.(duration := e.duration - dt);
    if x.duration <= 0.0 then [] else [x]
  }

  /** No effect is left at or below zero, and none is added. */
  lemma {:induction false} DecayEffectsLive(es: seq<Effect>, dt: real)
    ensures |DecayEffects(es, dt)| <= |es|
    ensures forall x :: x in DecayEffects(es, dt) ==> x.duration > 0.0
    decreases |es|
  {
    if es != [] {
      DecayEffectsLive(es[1..], dt);
    }
  }

  /** Every effect left is one of the old ones with dt less time. */
  lemma {:induction false} DecayEffectsFrom(es: seq<Effect>, dt: real)
    ensures forall x :: x in DecayEffects(es, dt) ==>
              exists j :: 0 <= j < |es| && x == es[j].(duration := es[j].duration - dt)
    decreases |es|
  {
    if es != [] {
      DecayEffectsFrom(es[1..], dt);
      forall x | x in DecayEffects(es, dt)
        ensures exists j :: 0 <= j < |es| && x == es[j].(duration := es[j].duration - dt)
      {
        if x in Kept(es[0], dt) {
          assert x == es[0].(duration := es[0].duration - dt);
        } else {
          assert x in DecayEffects(es[1..], dt);
          var j :| 0 <= j < |es[1..]| && x == es[1..][j].(duration := es[1..][j].duration - dt);
          assert x == es[j + 1].(duration := es[j + 1].duration - dt);
        }
      }
    }
  }

  /** Every old effect with time left over stays, with dt less time. */
  lemma {:induction false} DecayEffectsKeeps(es: seq<Effect>, dt: real)
    ensures forall j :: 0 <= j < |es| && es[j].duration - dt > 0.0 ==>
              es[j].(duration := es[j].duration - dt) in DecayEffects(es, dt)
    decreases |es|
  {
    if es != [] {
      DecayEffectsKeeps(es[1..], dt);
      assert DecayEffects(es, dt) == Kept(es[0], dt) + DecayEffects(es[1..], dt);
      forall j | 0 <= j < |es| && es[j].duration - dt > 0.0
        ensures es[j].(duration := es[j].duration - dt) in DecayEffects(es, dt)
      {
        if j > 0 {
          assert es[1..][j - 1] == es[j];
        } else {
          assert Kept(es[0], dt) == [es[0].(duration := es[0].duration - dt)];
        }
      }
    }
  }

  /** Decay of a suffix, one effect at a time. */
  lemma DecayStep(es: seq<Effect>, i: nat, dt: real)
    requires i < |es|
    ensures DecayEffects(es[i..], dt) == Kept(es[i], dt) + DecayEffects(es[i + 1..], dt)
  {
    assert es[i..][0] == es[i] && es[i..][1..] == es[i + 1..];
  }

  /** Overwriting, then splicing, the element after a prefix. */
  lemma SpliceAt<T>(a: seq<T>, x: T, y: T, b: seq<T>)
    ensures (a + [x] + b)[|a| := y] == a + [y] + b
    ensures Splice(a + [y] + b, |a|) == a + b
  {
    assert (a + [y] + b)[..|a|] == a && (a + [y] + b)[|a| + 1..] == b;
  }

  /** Two decays of a non-negative second step are one decay by the sum: ticking the
      effects twice loses the same ones as one longer tick. */
  lemma {:induction false} DecayTwice(es: seq<Effect>, d1: real, d2: real)
    requires d2 >= 0.0
    ensures DecayEffects(DecayEffects(es, d1), d2) == DecayEffects(es, d1 + d2)
    decreases |es|
  {
    if es != [] {
      DecayTwice(es[1..], d1, d2);
      DecayAppend(Kept(es[0], d1), DecayEffects(es[1..], d1), d2);
    }
  }

  /** Decay works element by element, so it splits over a concatenation. */
  lemma {:induction false} DecayAppend(a: seq<Effect>, b: seq<Effect>, dt: real)
    ensures DecayEffects(a + b, dt) == DecayEffects(a, dt) + DecayEffects(b, dt)
    decreases |a|
  {
    if a != [] {
      assert (a + b)[0] == a[0] && (a + b)[1..] == a[1..] + b;
      DecayAppend(a[1..], b, dt);
      calc {
        DecayEffects(a + b, dt);
        Kept(a[0], dt) + DecayEffects(a[1..] + b, dt);
        Kept(a[0], dt) + (DecayEffects(a[1..], dt) + DecayEffects(b, dt));
        (Kept(a[0], dt) + DecayEffects(a[1..], dt)) + DecayEffects(b, dt);
      }
    } else {
      assert a + b == b;
    }
  }

  /** The effect loop of update(), from the last effect to the first: each duration
      falls by dt, and an effect at or below zero is spliced out. */
  method DecayLoop(es: seq<Effect>, dt: real) returns (r: seq<Effect>)
    ensures r == DecayEffects(es, dt)
  {
    r := es;
    var i := |r|;
    while i > 0
      invariant 0 <= i <= |es|
      invariant r == es[..i] + DecayEffects(es[i..], dt)
    {
      i := i - 1;
      DecayLoopStep(es, i, dt, r);
      var x := r[i];
      x := x.(duration := x.duration - dt);
      r := r[i := x];
      if x.duration <= 0.0 {
        r := Splice(r, i);
      }
    }
  }

  /** One iteration of the effect loop extends the decayed suffix by one effect. */
  lemma DecayLoopStep(es: seq<Effect>, i: nat, dt: real, r: seq<Effect>)
    requires i < |es| && r == es[..i + 1] + DecayEffects(es[i + 1..], dt)
    ensures i < |r| && r[i] == es[i]
    ensures var x := r[i].(duration := r[i].duration - dt);
            (if x.duration <= 0.0 then Splice(r[i := x], i) else r[i := x]) == es[..i] + DecayEffects(es[i..], dt)
  {
    var pre, tail := es[..i], DecayEffects(es[i + 1..], dt);
    assert es[..i + 1] == pre + [es[i]];
    assert r == pre + [es[i]] + tail;
    DecayStep(es, i, dt);
    var x := es[i].(duration := es[i].duration - dt);
    SpliceAt(pre, es[i], x, tail);
    if x.duration <= 0.0 {
      assert Kept(es[i], dt) == [];
    } else {
      assert Kept(es[i], dt) == [x];
    }
  }

  // ---------------------------------------------------------------------
  // The game-over rule (checkGameOver)
  // ---------------------------------------------------------------------

  /** A living base that checkGameOver counts for green (side 0) or for red (every other
      side: a base of side 2 would count as red). */
  predicate LivingBase(w: View, green: bool) {
    w.isBase && w.vitals.alive && (w.side == 0 <==> green)
  }

  /** The count of checkGameOver, over the views in list order. */
  function BaseCount(ws: seq<View>, green: bool): (r: nat)
    ensures r <= |ws|
    decreases |ws|
  {
    if ws == [] then 0
    else BaseCount(ws[..|ws| - 1], green) + (if LivingBase(ws[|ws| - 1], green) then 1 else 0)
  }

  predicate HasBase(ws: seq<View>, green: bool) {
    exists j :: 0 <= j < |ws| && LivingBase(ws[j], green)
  }

  /** A side's count is zero exactly when it has no living base. */
  lemma {:induction false} BaseCountZero(ws: seq<View>, green: bool)
    ensures BaseCount(ws, green) == 0 <==> !HasBase(ws, green)
    decreases |ws|
  {
    if ws != [] {
      var p := ws[..|ws| - 1];
      BaseCountZero(p, green);
      assert forall j :: 0 <= j < |p| ==> p[j] == ws[j];
      if HasBase(p, green) {
        var j :| 0 <= j < |p| && LivingBase(p[j], green);
        assert LivingBase(ws[j], green);
      }
    }
  }

  /** One living base of a side, and no other, counts as one. */
  lemma {:induction false} BaseCountOne(ws: seq<View>, green: bool, i: nat)
    requires i < |ws| && LivingBase(ws[i], green)
    requires forall j :: 0 <= j < |ws| && j != i ==> !LivingBase(ws[j], green)
    ensures BaseCount(ws, green) == 1
    decreases |ws|
  {
    var p := ws[..|ws| - 1];
    assert forall j :: 0 <= j < |p| ==> p[j] == ws[j];
    if i == |ws| - 1 {
      BaseCountZero(p, green);
    } else {
      BaseCountOne(p, green, i);
    }
  }

  /** gameOver and winner together. */
  datatype Outcome = Outcome(gameOver: bool, winner: Option<int>)

  /** The decision of checkGameOver from the two counts: the game is over once either
      count is zero and stays over once it is; the side with bases left wins, none does
      when both are zero, and while both sides have a base the previous outcome stands. */
  function Judge(green: nat, red: nat, prev: Outcome): (o: Outcome)
    ensures o.gameOver <==> prev.gameOver || green == 0 || red == 0
    ensures green == 0 && red == 0 ==> o.winner.None?
    ensures green == 0 && red > 0 ==> o.winner == Some(1)
    ensures green > 0 && red == 0 ==> o.winner == Some(0)
    ensures green > 0 && red > 0 ==> o == prev
  {
    if green == 0 || red == 0 then
      Outcome(true, if green == 0 && red == 0 then None else if green == 0 then Some(1) else Some(0))
    else prev
  }

  /** The game-over rule over the entities: the game is over once a side has no living
      base, and stays over; losing both is a draw, otherwise the side with a base left
      wins; while both sides hold a base nothing changes. */
  lemma JudgeRule(ws: seq<View>, prev: Outcome)
    ensures var o := Judge(BaseCount(ws, true), BaseCount(ws, false), prev);
            (o.gameOver <==> prev.gameOver || !HasBase(ws, true) || !HasBase(ws, false)) &&
            (!HasBase(ws, true) && !HasBase(ws, false) ==> o.winner.None?) &&
            (!HasBase(ws, true) && HasBase(ws, false) ==> o.winner == Some(1)) &&
            (HasBase(ws, true) && !HasBase(ws, false) ==> o.winner == Some(0)) &&
            (HasBase(ws, true) && HasBase(ws, false) ==> o == prev)
  {
    BaseCountZero(ws, true);
    BaseCountZero(ws, false);
  }

  /** The starting layout leaves one living base per side, so the game is not over. */
  lemma StartingBases(ws: seq<View>, prev: Outcome)
    requires |ws| == 6
    requires forall k :: 0 <= k < 6 ==> ws[k].vitals.alive && (ws[k].isBase <==> k < 2) && ws[k].side == k % 2
    ensures BaseCount(ws, true) == 1 && BaseCount(ws, false) == 1
    ensures Judge(BaseCount(ws, true), BaseCount(ws, false), prev) == prev
  {
    assert LivingBase(ws[0], true) && LivingBase(ws[1], false);
    BaseCountOne(ws, true, 0);
    BaseCountOne(ws, false, 1);
  }

  // ---------------------------------------------------------------------
  // Projectile flight
  // ---------------------------------------------------------------------

  /** isOutOfBounds(x, y); the edges are inside. */
  predicate IsOutOfBounds(p: Point, width: int, height: int) {
    p.x < 0.0 || p.x > width as real || p.y < 0.0 || p.y > height as real
  }

  /** Inside the bounds means inside the canvas rectangle at the origin. */
  lemma InBoundsIsInRect(p: Point, width: int, height: int)
    ensures !IsOutOfBounds(p, width, height) <==> PointInRect(p.x, p.y, 0.0, 0.0, width as real, height as real)
  {
  }

  /** age > lifetime, the age being the milliseconds since creation in seconds: the
      projectile has lived more than lifetime * 1000 milliseconds. */
  predicate Expired(p: Projectile, now: real): (b: bool)
    ensures b <==> now > p.creationTime + p.lifetime * 1000.0
  {
    (now - p.creationTime) / 1000.0 > p.lifetime
  }

  /** The collision checks run at most every COLLISION_DETECTION_INTERVAL seconds, that
      is every 50 milliseconds. */
  predicate CheckDue(now: real, lastCheck: real): (b: bool)
    ensures b <==> now >= lastCheck + 50.0
  {
    now - lastCheck >= CollisionDetectionInterval * 1000.0
  }

  /** The point a projectile flies at: its target's position while that target is alive,
      the recorded target point otherwise. */
  function AimPoint(p: Projectile, es: seq<Entity>): (r: Point)
    reads es
    ensures p.targetId.Some? && FindById(es, p.targetId.value).Some? && FindById(es, p.targetId.value).value.alive ==>
              r == FindById(es, p.targetId.value).value.pos
    ensures p.targetId.None? || FindById(es, p.targetId.value).None? || !FindById(es, p.targetId.value).value.alive ==>
              r == p.target
  {
    if p.targetId.None? then p.target
    else match IndexOf(es, p.targetId.value)
      case Some(k) => if es[k].alive then es[k].pos else p.target
      case None => p.target
  }

  /** The move of one flight step: speed * dt along the line from the launch point to
      the aim point. */
  function Displacement(p: Projectile, aim: Point, dt: real, env: Env): Point {
    env.heading(p.source, aim, p.speed * dt)
  }

  /** One flight step: a move of speed * dt along the line from the launch point to the
      aim point, from the current point, or from the launch point when there is no
      current point or its x is 0 (the test is `!currentX`). The gravity term is
      GRAVITY * gravityFactor times a sine, and GRAVITY is 0, so it adds nothing. */
  function Moved(p: Projectile, aim: Point, dt: real, env: Env): (q: Projectile)
    ensures q == p.(current := q.current) && q.current.Some?
  {
    var d := Displacement(p, aim, dt, env);
    var start := if p.current.None? || p.current.value.x == 0.0 then p.source else p.current.value;
    p.(current := Some(Point(start.x + d.x, start.y + d.y)))
  }

  /** The `!currentX` test: a projectile whose current point has x = 0 jumps back to its
      launch point instead of moving on, and so does one that has not moved yet. */
  lemma ZeroXRestarts(p: Projectile, aim: Point, dt: real, env: Env)
    requires p.current.None? || p.current.value.x == 0.0
    ensures var d := Displacement(p, aim, dt, env);
            Moved(p, aim, dt, env).current == Some(Point(p.source.x + d.x, p.source.y + d.y))
  {
  }

  /** What a projectile left in the list after the flight loop satisfies. */
  predicate Flying(q: Projectile, now: real, width: int, height: int) {
    !Expired(q, now) && q.current.Some? && !IsOutOfBounds(q.current.value, width, height)
  }

  /** The removal steps of one iteration: the collision splice at i when the projectile is
      spent, then the bounds splice at i when its point is outside. */
  function Retire(ps: seq<Projectile>, i: nat, spent: bool, outside: bool): seq<Projectile> {
    var ps1 := if spent then Splice(ps, i) else ps;
    if outside then Splice(ps1, i) else ps1
  }

  /** Splicing at i does not look at the element at i. */
  lemma SpliceIgnores<T>(s: seq<T>, i: nat, x: T)
    requires i < |s|
    ensures Splice(s[i := x], i) == Splice(s, i)
  {
    assert s[i := x][..i] == s[..i];
    assert s[i := x][i + 1..] == s[i + 1..];
  }

  /** One iteration of the reverse flight loop keeps what the loop has already looked at
      in flight: the list up to i is untouched, and everything from i on is in flight
      when everything after i was and the moved projectile stays unless it is gone. */
  lemma RetireFlying(ps: seq<Projectile>, i: nat, q: Projectile, spent: bool, outside: bool,
                     now: real, width: int, height: int)
    requires i < |ps|
    requires forall k :: i < k < |ps| ==> Flying(ps[k], now, width, height)
    requires spent || outside || Flying(q, now, width, height)
    ensures var r := Retire(ps[i := q], i, spent, outside);
            i <= |r| <= |ps| && r[..i] == ps[..i] &&
            forall k :: i <= k < |r| ==> Flying(r[k], now, width, height)
  {
    var ps0 := ps[i := q];
    var ps1 := if spent then Splice(ps0, i) else ps0;
    SpliceFrame(ps0, i);
    SpliceFrame(ps1, i);
    assert forall k :: i <= k < |ps1| ==> Flying(ps1[k], now, width, height) || (!spent && k == i);
  }

  /** A spent projectile that is also outside the bounds is spliced twice at the same
      index: the second splice removes the projectile after it, which the reverse loop has
      already moved and kept. */
  lemma DoubleSplice(ps: seq<Projectile>, i: nat)
    requires i + 1 < |ps|
    ensures Retire(ps, i, true, true) == ps[..i] + ps[i + 2..]
    ensures |Retire(ps, i, true, true)| == |ps| - 2
  {
    var t := ps[..i] + ps[i + 1..];
    assert Splice(ps, i) == t;
    assert t[..i] == ps[..i] && t[i + 1..] == ps[i + 2..];
  }

  // ---------------------------------------------------------------------
  // Collisions (checkProjectileCollisions)
  // ---------------------------------------------------------------------

  /** The hit test: a living entity other than the source, on the other side for a
      damaging projectile and on the same side for a healing one (healing > 0), whose
      circle comes within PROJECTILE_COLLISION_RADIUS + size of the point. So a hit lands
      on an ally exactly when the projectile heals. */
  predicate Hits(p: Projectile, at: Point, w: View): (b: bool)
    ensures b ==> w.vitals.alive && (w.side == p.side <==> p.healing > 0.0)
  {
    w.vitals.alive && w.id != p.sourceId &&
    (if p.healing > 0.0 then w.side == p.side else w.side != p.side) &&
    Within(at, w.pos, ProjectileCollisionRadius + p.size + w.radius)
  }

  /** What a hit does: damage when the projectile carries any, else healing capped at
      maxHealth, else nothing. maxHealth and the autopilot flag never change. */
  function Struck(p: Projectile, attacker: Option<Id>, now: real, v: Vitals): (r: Vitals)
    ensures r.maxHealth == v.maxHealth && r.autopilot == v.autopilot
    ensures p.damage > 0.0 ==> r.health == (if p.damage >= v.health then 0.0 else v.health - p.damage)
    ensures p.damage <= 0.0 && p.healing > 0.0 ==> r.health == Min(v.maxHealth, v.health + p.healing)
    ensures p.damage <= 0.0 && p.healing <= 0.0 ==> r == v
  {
    if p.damage > 0.0 then Damaged(v, p.damage, attacker, now)
    else if p.healing > 0.0 then Healed(v, p.healing)
    else v
  }

  /** The marker a hit adds: one at the entity's position lasting DAMAGE_EFFECT_DURATION,
      for damage or else healing, and none for a projectile that does neither. */
  function Marker(p: Projectile, w: View): (r: seq<Effect>)
    ensures |r| <= 1
    ensures r != [] <==> p.damage > 0.0 || p.healing > 0.0
    ensures r != [] ==> r[0].pos == w.pos && r[0].duration == DamageEffectDuration && r[0].amount > 0.0
  {
    if p.damage > 0.0 then [Effect("damage", w.pos, p.damage, DamageEffectDuration)]
    else if p.healing > 0.0 then [Effect("heal", w.pos, p.healing, DamageEffectDuration)]
    else []
  }

  /** The damage is passed with the source entity, which takeDamage uses only when it
      exists (getEntityById may find nothing). */
  function AttackerOf(es: seq<Entity>, id: Id): (r: Option<Id>)
    ensures r.Some? ==> r.value == id
    ensures r.Some? <==> exists e :: e in es && e.id == id
  {
    if FindById(es, id).Some? then Some(id) else None
  }

  /** The state of one collision scan: the entities' vitals, the markers added, the
      penetration left, whether the projectile is used up, and how many entities it hit. */
  datatype Sweep = Sweep(vitals: seq<Vitals>, effects: seq<Effect>, penetration: int, spent: bool, hits: nat)

  /** The scan over the views in list order: every hit is struck; a hit with penetration
      left uses one up, a hit with none left uses the projectile up, and after that the
      scan changes nothing. */
  function SweepOf(p: Projectile, at: Point, ws: seq<View>, attacker: Option<Id>, now: real): (s: Sweep)
    ensures |s.vitals| == |ws|
    decreases |ws|
  {
    if ws == [] then Sweep([], [], p.penetration, false, 0)
    else
      var s := SweepOf(p, at, ws[..|ws| - 1], attacker, now);
      var w := ws[|ws| - 1];
      if s.spent || !Hits(p, at, w) then s.(vitals := s.vitals + [w.vitals])
      else Sweep(s.vitals + [Struck(p, attacker, now, w.vitals)], s.effects + Marker(p, w),
                 if s.penetration <= 0 then s.penetration else s.penetration - 1,
                 s.penetration <= 0, s.hits + 1)
  }

  /** One more view in the scan: the struck vitals or the unchanged ones are appended,
      and a hit adds its marker and uses up penetration or the projectile. */
  lemma SweepSnoc(p: Projectile, at: Point, ws: seq<View>, k: nat, attacker: Option<Id>, now: real)
    requires k < |ws|
    ensures var s := SweepOf(p, at, ws[..k], attacker, now);
            var t := SweepOf(p, at, ws[..k + 1], attacker, now);
            var hit := !s.spent && Hits(p, at, ws[k]);
            (forall j :: 0 <= j < k ==> t.vitals[j] == s.vitals[j]) &&
            t.vitals[k] == (if hit then Struck(p, attacker, now, ws[k].vitals) else ws[k].vitals) &&
            t.effects == (if hit then s.effects + Marker(p, ws[k]) else s.effects) &&
            t.penetration == (if hit && s.penetration > 0 then s.penetration - 1 else s.penetration) &&
            t.spent == (s.spent || (hit && s.penetration <= 0))
  {
    assert ws[..k + 1][..k] == ws[..k];
  }

  /** The number of entities the hit test accepts. */
  function HitCount(p: Projectile, at: Point, ws: seq<View>): nat
    decreases |ws|
  {
    if ws == [] then 0
    else HitCount(p, at, ws[..|ws| - 1]) + (if Hits(p, at, ws[|ws| - 1]) then 1 else 0)
  }

  /** How many entities a projectile can hit: penetration + 1, and at least one. */
  function HitCap(penetration: int): nat {
    if penetration <= 0 then 1 else penetration + 1
  }

  /** Penetration: a projectile hits the first HitCap(penetration) entities the test
      accepts and no more; it is used up exactly when there were that many; each hit
      before the last uses up one point of penetration. */
  lemma {:induction false} SweepCount(p: Projectile, at: Point, ws: seq<View>, attacker: Option<Id>, now: real)
    ensures var s := SweepOf(p, at, ws, attacker, now);
            s.hits == if HitCount(p, at, ws) < HitCap(p.penetration) then HitCount(p, at, ws) else HitCap(p.penetration)
    ensures var s := SweepOf(p, at, ws, attacker, now);
            s.spent <==> HitCount(p, at, ws) >= HitCap(p.penetration)
    ensures var s := SweepOf(p, at, ws, attacker, now);
            s.penetration == p.penetration - (if s.spent then s.hits - 1 else s.hits)
    decreases |ws|
  {
    if ws != [] {
      SweepCount(p, at, ws[..|ws| - 1], attacker, now);
    }
  }

  /** The entity at k is struck iff the scan of the entities before it left the
      projectile unspent and the hit test accepts it; the entities after it do not
      change it. */
  lemma {:induction false} SweepAt(p: Projectile, at: Point, ws: seq<View>, k: nat, attacker: Option<Id>, now: real)
    requires k < |ws|
    ensures SweepOf(p, at, ws, attacker, now).vitals[k] ==
            (if !SweepOf(p, at, ws[..k], attacker, now).spent && Hits(p, at, ws[k])
             then Struck(p, attacker, now, ws[k].vitals) else ws[k].vitals)
    decreases |ws|
  {
    var n := |ws| - 1;
    SweepSnoc(p, at, ws, n, attacker, now);
    assert ws[..n + 1] == ws;
    if k < n {
      SweepAt(p, at, ws[..n], k, attacker, now);
      assert ws[..n][..k] == ws[..k] && ws[..n][k] == ws[k];
    }
  }

  /** Entity by entity: one the hit test rejects is untouched, and one it accepts is
      either struck or, once the projectile is used up, untouched; exactly, it is struck
      iff the entities before it left the projectile unspent. */
  lemma SweepPointwise(p: Projectile, at: Point, ws: seq<View>, attacker: Option<Id>, now: real)
    ensures var s := SweepOf(p, at, ws, attacker, now);
            forall k :: 0 <= k < |ws| ==>
              s.vitals[k] == ws[k].vitals ||
              (Hits(p, at, ws[k]) && s.vitals[k] == Struck(p, attacker, now, ws[k].vitals))
    ensures var s := SweepOf(p, at, ws, attacker, now);
            forall k :: 0 <= k < |ws| ==>
              s.vitals[k] == (if !SweepOf(p, at, ws[..k], attacker, now).spent && Hits(p, at, ws[k])
                              then Struck(p, attacker, now, ws[k].vitals) else ws[k].vitals)
  {
    forall k | 0 <= k < |ws|
      ensures SweepOf(p, at, ws, attacker, now).vitals[k] ==
              (if !SweepOf(p, at, ws[..k], attacker, now).spent && Hits(p, at, ws[k])
               then Struck(p, attacker, now, ws[k].vitals) else ws[k].vitals)
    {
      SweepAt(p, at, ws, k, attacker, now);
    }
  }

  /** A collision scan keeps every consistent entity consistent: hits fall only on
      living entities, and damage and healing are positive. */
  lemma SweepKeepsConsistent(p: Projectile, at: Point, ws: seq<View>, attacker: Option<Id>, now: real)
    ensures var s := SweepOf(p, at, ws, attacker, now);
            forall k :: 0 <= k < |ws| && Consistent(ws[k].vitals) ==> Consistent(s.vitals[k])
  {
    SweepPointwise(p, at, ws, attacker, now);
    var s := SweepOf(p, at, ws, attacker, now);
    forall k | 0 <= k < |ws| && Consistent(ws[k].vitals)
      ensures Consistent(s.vitals[k])
    {
      if s.vitals[k] != ws[k].vitals {
        if p.damage > 0.0 {
          DamageKeepsConsistent(ws[k].vitals, p.damage, attacker, now);
        } else {
          HealKeepsConsistent(ws[k].vitals, p.healing);
        }
      }
    }
  }

  /** One hit of checkProjectileCollisions: takeDamage with the source, or healing
      capped at maxHealth; returns the marker it adds. */
  method Strike(e: Entity, p: Projectile, attacker: Option<Id>, now: real) returns (mark: seq<Effect>)
    modifies e`health, e`alive, e`targetId, e`targetPosition, e`removalDue
    ensures e.State() == Struck(p, attacker, now, old(e.State()))
    ensures mark == Marker(p, old(e.Snapshot()))
  {
    mark := [];
    if p.damage > 0.0 {
      e.TakeDamage(p.damage, attacker, now);
      mark := [Effect("damage", e.pos, p.damage, DamageEffectDuration)];
    } else if p.healing > 0.0 {
      e.health := Min(e.maxHealth, e.health + p.healing);
      mark := [Effect("heal", e.pos, p.healing, DamageEffectDuration)];
    }
  }

  /** One entity of the scan: a hit while the projectile is not used up strikes the
      entity and uses up one point of penetration, or the projectile when none is left. */
  method CollideOne(p: Projectile, at: Point, e: Entity, q0: Projectile, spent0: bool, attacker: Option<Id>, now: real)
    returns (q: Projectile, spent: bool, mark: seq<Effect>)
    modifies e`health, e`alive, e`targetId, e`targetPosition, e`removalDue
    ensures var hit := !spent0 && Hits(p, at, old(e.Snapshot()));
            e.State() == (if hit then Struck(p, attacker, now, old(e.State())) else old(e.State())) &&
            mark == (if hit then Marker(p, old(e.Snapshot())) else []) &&
            q == (if hit && q0.penetration > 0 then q0.(penetration := q0.penetration - 1) else q0) &&
            spent == (spent0 || (hit && q0.penetration <= 0))
  {
    q, spent, mark := q0, spent0, [];
    if !spent && Hits(p, at, e.Snapshot()) {
      mark := Strike(e, p, attacker, now);
      if q.penetration <= 0 {
        spent := true;
      } else {
        q := q.(penetration := q.penetration - 1);
      }
    }
  }

  /** Entity k of the scan, carried out as SweepSnoc says: the entities before k hold the
      vitals of the scan of the first k views, and afterwards the first k + 1 hold those of
      the scan of the first k + 1; the entities after k are untouched. */
  method CollideStep(p: Projectile, at: Point, es: seq<Entity>, ghost ws: seq<View>, k: nat, q0: Projectile, spent0: bool,
                     attacker: Option<Id>, now: real)
    returns (q: Projectile, spent: bool, mark: seq<Effect>)
    requires Units.Distinct(es) && k < |es| == |ws|
    requires var s := SweepOf(p, at, ws[..k], attacker, now);
             q0 == p.(penetration := s.penetration) && spent0 == s.spent &&
             forall j :: 0 <= j < k ==> es[j].State() == s.vitals[j]
    requires forall j :: k <= j < |es| ==> es[j].Snapshot() == ws[j]
    modifies {es[k]}`health, {es[k]}`alive, {es[k]}`targetId, {es[k]}`targetPosition, {es[k]}`removalDue
    ensures var s, t := SweepOf(p, at, ws[..k], attacker, now), SweepOf(p, at, ws[..k + 1], attacker, now);
            q == p.(penetration := t.penetration) && spent == t.spent && s.effects + mark == t.effects &&
            forall j :: 0 <= j < k + 1 ==> es[j].State() == t.vitals[j]
    ensures forall j :: k + 1 <= j < |es| ==> es[j].Snapshot() == ws[j]
  {
    SweepSnoc(p, at, ws, k, attacker, now);
    assert forall j :: 0 <= j < |es| && j != k ==> es[j] != es[k];
    q, spent, mark := CollideOne(p, at, es[k], q0, spent0, attacker, now);
  }

  /** The loop of checkProjectileCollisions at the point `at`: the scan of SweepOf over
      the entities, in list order. Returns the projectile with its penetration left,
      whether it was used up (the caller splices it out at its index), and the markers. */
  method Collide(p: Projectile, at: Point, es: seq<Entity>, attacker: Option<Id>, now: real)
    returns (q: Projectile, spent: bool, marks: seq<Effect>)
    requires Units.Distinct(es)
    modifies (set e | e in es)`health, (set e | e in es)`alive, (set e | e in es)`targetId,
             (set e | e in es)`targetPosition, (set e | e in es)`removalDue
    ensures var s := SweepOf(p, at, old(Views(es)), attacker, now);
            q == p.(penetration := s.penetration) && spent == s.spent && marks == s.effects &&
            forall k :: 0 <= k < |es| ==> es[k].State() == s.vitals[k]
  {
    ghost var ws := Views(es);
    q := p;
    spent := false;
    marks := [];
    for k := 0 to |es|
      invariant var s := SweepOf(p, at, ws[..k], attacker, now);
                q == p.(penetration := s.penetration) && spent == s.spent && marks == s.effects &&
                forall j :: 0 <= j < k ==> es[j].State() == s.vitals[j]
      invariant forall j :: k <= j < |es| ==> es[j].Snapshot() == ws[j]
    {
      var mark;
      q, spent, mark := CollideStep(p, at, es, ws, k, q, spent, attacker, now);
      marks := marks + mark;
    }
    assert ws[..|es|] == ws;
  }

  // ---------------------------------------------------------------------
  // The frame clock (gameLoop without rendering)
  // ---------------------------------------------------------------------

  /** The tick length of gameLoop: the seconds since the last frame times the game speed,
      capped at 0.1. */
  function FrameDelta(now: real, last: real, speed: real): (r: real)
    ensures r == 0.1 || r == (now - last) / 1000.0 * speed
    ensures r <= (now - last) / 1000.0 * speed
  {
    Min((now - last) / 1000.0 * speed, 0.1)
  }

  /** The cap bounds every tick, and a clock that does not run backwards gives no
      negative tick. */
  lemma FrameDeltaBounds(now: real, last: real, speed: real)
    ensures FrameDelta(now, last, speed) <= 0.1
    ensures now >= last && speed >= 0.0 ==> FrameDelta(now, last, speed) >= 0.0
  {
    if now >= last && speed >= 0.0 {
      assert (now - last) / 1000.0 >= 0.0;
      assert (now - last) / 1000.0 * speed >= 0.0;
    }
  }

  // ---------------------------------------------------------------------
  // Identity
  // ---------------------------------------------------------------------

  /** No two entities share an id. */
  predicate UniqueIds(es: seq<Entity>) {
    forall i, j :: 0 <= i < j < |es| ==> es[i].id != es[j].id
  }

  /** Unique ids make the list free of repeats. */
  lemma UniqueIdsDistinct(es: seq<Entity>)
    requires UniqueIds(es)
    ensures Units.Distinct(es)
  {
  }

  /** With unique ids, getEntityById finds each entity by its own id. */
  lemma UniqueIdsFind(es: seq<Entity>)
    requires UniqueIds(es)
    ensures forall k :: 0 <= k < |es| ==> FindById(es, es[k].id) == Some(es[k])
  {
    forall k | 0 <= k < |es|
      ensures FindById(es, es[k].id) == Some(es[k])
    {
      var r := IndexOf(es, es[k].id);
      assert r.Some?;
    }
  }

  /** removeEntity's list: the first entity with the id taken out, which is splice(index, 1)
      at the index findIndex gives; a missing id leaves the list as it is. */
  function Without(es: seq<Entity>, id: Id): (r: seq<Entity>)
    ensures IndexOf(es, id).Some? ==> r == Splice(es, IndexOf(es, id).value)
    ensures FindById(es, id).None? ==> r == es
  {
    match IndexOf(es, id)
    case None => es
    case Some(k) => es[..k] + es[k + 1..]
  }

  /** With unique ids, removal takes out exactly the entity with that id, if any, keeps
      the others in order, and keeps the ids unique. */
  lemma WithoutSpec(es: seq<Entity>, id: Id)
    requires UniqueIds(es)
    ensures var r := Without(es, id);
            UniqueIds(r) &&
            (forall e :: e in r ==> e in es && e.id != id) &&
            (forall e :: e in es && e.id != id ==> e in r) &&
            |r| == |es| - (if FindById(es, id).Some? then 1 else 0)
  {
    var r := Without(es, id);
    match IndexOf(es, id)
    case None =>
    case Some(k) =>
      assert forall j :: 0 <= j < |r| ==> r[j] == (if j < k then es[j] else es[j + 1]);
      forall e | e in es && e.id != id
        ensures e in r
      {
        var j :| 0 <= j < |es| && es[j] == e;
        if j < k {
          assert r[j] == e;
        } else {
          assert r[j - 1] == e;
        }
      }
  }

  /** An entity built from a placement of the starting layout with the given id. */
  predicate Placed(e: Entity, pl: Catalog.Placement, id: Id)
    reads e`alive
  {
    e.id == id && e.kind == BuildingKind && e.alive &&
    e.pos == pl.pos && e.side == pl.side && e.isBase == pl.template.isBase
  }

  // ---------------------------------------------------------------------
  // The game
  // ---------------------------------------------------------------------

  class Game {
    var entities: seq<Entity>
    var effects: seq<Effect>
    var projectiles: seq<Projectile>
    var selectedEntity: Entity?
    const resources: Ledger
    /** The canvas size (`bounds`). */
    const width: int
    const height: int
    var currentTime: real
    var lastUpdateTime: real
    var gameSpeed: real
    var paused: bool
    var gameOver: bool
    var winner: Option<int>
    var lastCollisionCheck: real
    /** The id the next entity receives (generateId). */
    var nextId: Id

    /** Ids are unique and below the next one, and the speed is within its bounds. */
    predicate Valid()
      reads this`entities, this`nextId, this`gameSpeed
    {
      UniqueIds(entities) &&
      (forall k :: 0 <= k < |entities| ==> entities[k].id < nextId) &&
      GameSpeedMin <= gameSpeed <= GameSpeedMax
    }

    function Result(): Outcome
      reads this`gameOver, this`winner
    {
      Outcome(gameOver, winner)
    }

    /** new Game(canvas) and init(): the lists empty, both sides at 500 gold, the clock at
        `now`, speed 1, then the starting buildings. */
    constructor (width: int, height: int, now: real)
      ensures Valid() && fresh(resources) && resources.gold == InitialGold
      ensures |entities| == 6 && effects == [] && projectiles == [] && selectedEntity == null
      ensures forall k :: 0 <= k < 6 ==> fresh(entities[k])
      ensures currentTime == now && lastUpdateTime == now && gameSpeed == GameSpeedDefault
      ensures !paused && !gameOver && winner.None? && lastCollisionCheck == 0.0
    {
      entities := [];
      effects := [];
      projectiles := [];
      selectedEntity := null;
      resources := new Ledger();
      this.width := width;
      this.height := height;
      currentTime := now;
      lastUpdateTime := now;
      gameSpeed := GameSpeedDefault;
      paused := false;
      gameOver := false;
      winner := None;
      lastCollisionCheck := 0.0;
      nextId := 0;
      new;
      CreateInitialBuildings();
      assert entities[0..] == entities;
    }

    /** createInitialBuildings: the six buildings of the starting layout, appended in
        order with fresh ids. */
    method CreateInitialBuildings()
      modifies this`entities, this`nextId
      ensures var n := |old(entities)|;
              |entities| == n + 6 && entities[..n] == old(entities) && nextId == old(nextId) + 6
      ensures var layout := Catalog.InitialLayout(width as real, height as real);
              var added := entities[|old(entities)|..];
              |added| == 6 && forall k :: 0 <= k < 6 ==> fresh(added[k]) && Placed(added[k], layout[k], old(nextId) + k)
      ensures BaseCount(Views(entities[|old(entities)|..]), true) == 1
      ensures BaseCount(Views(entities[|old(entities)|..]), false) == 1
      ensures old(Valid()) ==> Valid()
    {
      var layout := Catalog.InitialLayout(width as real, height as real);
      var greenBase, redBase := PlacePair(layout[0], layout[1]);
      var greenMine, redMine := PlacePair(layout[2], layout[3]);
      var greenTower, redTower := PlacePair(layout[4], layout[5]);
      ghost var added := [greenBase, redBase, greenMine, redMine, greenTower, redTower];
      forall k | 0 <= k < 6
        ensures fresh(added[k]) && Placed(added[k], layout[k], old(nextId) + k)
      {
        if k < 2 {
          assert k == 0 || k == 1;
        } else if k < 4 {
          assert k == 2 || k == 3;
        } else {
          assert k == 4 || k == 5;
        }
      }
      assert entities == old(entities) + added;
      assert entities[|old(entities)|..] == added;
      ghost var ws := Views(added);
      assert forall k :: 0 <= k < 6 ==> ws[k] == added[k].Snapshot();
      assert forall k :: 0 <= k < 6 ==> (layout[k].template.isBase <==> k < 2) && layout[k].side == k % 2;
      StartingBases(ws, Outcome(false, None));
    }

    /** One pair of the layout: the green building and the red one are made, each with
        the next id (`new Building({...template, x, y, side})`), then both are added. */
    method PlacePair(green: Catalog.Placement, red: Catalog.Placement) returns (g: Entity, r: Entity)
      modifies this`entities, this`nextId
      ensures fresh(g) && Placed(g, green, old(nextId)) && fresh(r) && Placed(r, red, old(nextId) + 1)
      ensures entities == old(entities) + [g, r] && nextId == old(nextId) + 2
      ensures old(Valid()) ==> Valid()
    {
      var id := NewId();
      g := new Entity.Building(id, green.template, green.pos, green.side);
      id := NewId();
      r := new Entity.Building(id, red.template, red.pos, red.side);
      g := AddEntity(g);
      r := AddEntity(r);
    }

    /** addEntity(entity): appended at the end. */
    method AddEntity(e: Entity) returns (r: Entity)
      modifies this`entities
      ensures r == e && entities == old(entities) + [e]
      ensures old(Valid()) && e.id < nextId && (forall k :: 0 <= k < |old(entities)| ==> old(entities)[k].id != e.id) ==> Valid()
    {
      entities := entities + [e];
      r := e;
    }

    /** generateId(): a new id, never handed out before. */
    method NewId() returns (id: Id)
      modifies this`nextId
      ensures id == old(nextId) && nextId == id + 1
      ensures old(Valid()) ==> Valid() && forall k :: 0 <= k < |entities| ==> entities[k].id != id
    {
      id := nextId;
      nextId := nextId + 1;
    }

    /** removeEntity(id): the first entity with the id leaves the list, and the selection
        is cleared if it named that id; reports whether there was one. */
    method RemoveEntity(id: Id) returns (removed: bool)
      modifies this`entities, this`selectedEntity
      ensures removed <==> FindById(old(entities), id).Some?
      ensures entities == Without(old(entities), id)
      ensures selectedEntity == if removed && old(selectedEntity) != null && old(selectedEntity).id == id
                                then null else old(selectedEntity)
      ensures old(Valid()) ==> Valid()
    {
      var index := IndexOf(entities, id);
      removed := false;
      if index.Some? {
        if selectedEntity != null && selectedEntity.id == id {
          selectedEntity := null;
        }
        entities := entities[..index.value] + entities[index.value + 1..];
        removed := true;
      }
      if old(Valid()) {
        WithoutSpec(old(entities), id);
      }
    }

    /** The removal timer of die(): once the clock reaches the due time that die recorded,
        removeEntity(id) runs, after which no entity with that id is left. */
    method FireRemovalTimer(e: Entity) returns (removed: bool)
      requires Valid()
      modifies this`entities, this`selectedEntity
      ensures var due := e.removalDue.Some? && e.removalDue.value <= currentTime;
              (due ==> removed == FindById(old(entities), e.id).Some? && entities == Without(old(entities), e.id) &&
                       forall x :: x in entities ==> x.id != e.id) &&
              (!due ==> !removed && entities == old(entities) && selectedEntity == old(selectedEntity))
      ensures Valid()
    {
      removed := false;
      if e.removalDue.Some? && e.removalDue.value <= currentTime {
        removed := RemoveEntity(e.id);
        WithoutSpec(old(entities), e.id);
      }
    }

    /** selectEntity(entity): the previous selection is unmarked, the new one marked. */
    method SelectEntity(e: Entity?) returns (r: Entity?)
      modifies this`selectedEntity, Units.Only(selectedEntity)`selected, Units.Only(e)`selected
      ensures r == selectedEntity && selectedEntity == e
      ensures e != null ==> e.selected
      ensures old(selectedEntity) != null && old(selectedEntity) != e ==> !old(selectedEntity).selected
    {
      if selectedEntity != null {
        selectedEntity.selected := false;
      }
      if e != null {
        e.selected := true;
        selectedEntity := e;
      } else {
        selectedEntity := null;
      }
      r := selectedEntity;
    }

    /** addEffect(effect) */
    method AddEffect(x: Effect)
      modifies this`effects
      ensures effects == old(effects) + [x]
    {
      effects := effects + [x];
    }

    /** setGameSpeed(speed): clamped to 1..20. */
    method SetGameSpeed(speed: real)
      modifies this`gameSpeed
      ensures GameSpeedMin <= gameSpeed <= GameSpeedMax
      ensures GameSpeedMin <= speed <= GameSpeedMax ==> gameSpeed == speed
      ensures speed < GameSpeedMin ==> gameSpeed == GameSpeedMin
      ensures speed > GameSpeedMax ==> gameSpeed == GameSpeedMax
      ensures old(Valid()) ==> Valid()
    {
      gameSpeed := Clamp(speed, GameSpeedMin, GameSpeedMax);
    }

    /** togglePause() */
    method TogglePause()
      modifies this`paused
      ensures paused == !old(paused)
    {
      paused := !paused;
    }

    /** resetGame(): the entities, effects, selection and outcome cleared, both sides back
        at 500 gold, and the starting buildings made again. The projectile list is not
        cleared, so shots in flight carry over into the new game. */
    method ResetGame()
      modifies this`entities, this`effects, this`selectedEntity, this`gameOver, this`winner, this`nextId, resources
      ensures |entities| == 6
      ensures forall k :: 0 <= k < 6 ==> fresh(entities[k]) && Placed(entities[k], Catalog.InitialLayout(width as real, height as real)[k], old(nextId) + k)
      ensures effects == [] && selectedEntity == null && !gameOver && winner.None?
      ensures projectiles == old(projectiles)
      ensures resources.gold == InitialGold
      ensures BaseCount(Views(entities), true) == 1 && BaseCount(Views(entities), false) == 1
      ensures old(Valid()) ==> Valid()
    {
      entities := [];
      effects := [];
      selectedEntity := null;
      resources.Reset();
      gameOver := false;
      winner := None;
      CreateInitialBuildings();
      assert entities[0..] == entities;
    }

    /** The effect loop of update(). */
    method UpdateEffects(dt: real)
      modifies this`effects
      ensures effects == DecayEffects(old(effects), dt)
    {
      effects := DecayLoop(effects, dt);
    }

    /** checkGameOver(): count the living bases of each side and judge. */
    method CheckGameOver()
      modifies this`gameOver, this`winner
      ensures Result() == Judge(BaseCount(Views(entities), true), BaseCount(Views(entities), false), old(Result()))
    {
      ghost var ws := Views(entities);
      var greenBases := 0;
      var redBases := 0;
      for k := 0 to |entities|
        invariant greenBases == BaseCount(ws[..k], true) && redBases == BaseCount(ws[..k], false)
      {
        assert ws[..k + 1][..k] == ws[..k];
        var e := entities[k];
        if e.kind == BuildingKind && e.isBase && e.alive {
          if e.side == 0 {
            greenBases := greenBases + 1;
          } else {
            redBases := redBases + 1;
          }
        }
      }
      assert ws[..|entities|] == ws;
      if greenBases == 0 || redBases == 0 {
        gameOver := true;
        if greenBases == 0 && redBases == 0 {
          winner := None;
        } else if greenBases == 0 {
          winner := Some(1);
        } else {
          winner := Some(0);
        }
      }
    }

    /** checkProjectileCollisions(projectile, index) at the projectile's current point;
        `spent` says that the caller splices the projectile out at its index. */
    method CheckProjectileCollisions(p: Projectile) returns (q: Projectile, spent: bool)
      requires Valid() && p.current.Some?
      modifies this`effects
      modifies (set e | e in entities)`health, (set e | e in entities)`alive, (set e | e in entities)`targetId,
               (set e | e in entities)`targetPosition, (set e | e in entities)`removalDue
      ensures var s := SweepOf(p, p.current.value, old(Views(entities)), AttackerOf(entities, p.sourceId), currentTime);
              q == p.(penetration := s.penetration) && spent == s.spent && effects == old(effects) + s.effects &&
              forall k :: 0 <= k < |entities| ==> entities[k].State() == s.vitals[k]
    {
      UniqueIdsDistinct(entities);
      var marks;
      q, spent, marks := Collide(p, p.current.value, entities, AttackerOf(entities, p.sourceId), currentTime);
      effects := effects + marks;
    }

    /** One iteration of updateProjectiles' loop at index i: an expired projectile is
        spliced out, any other is advanced. */
    method FlyOne(i: nat, check: bool, dt: real, env: Env)
      requires Valid() && i < |projectiles|
      requires forall k :: i < k < |projectiles| ==> Flying(projectiles[k], currentTime, width, height)
      modifies this`projectiles, this`effects
      modifies (set e | e in entities)`health, (set e | e in entities)`alive, (set e | e in entities)`targetId,
               (set e | e in entities)`targetPosition, (set e | e in entities)`removalDue
      ensures Expired(old(projectiles[i]), currentTime) ==>
                projectiles == Splice(old(projectiles), i) && effects == old(effects) &&
                forall k :: 0 <= k < |entities| ==> entities[k].State() == old(entities[k].State())
      ensures i <= |projectiles| <= |old(projectiles)| && projectiles[..i] == old(projectiles)[..i]
      ensures forall k :: i <= k < |projectiles| ==> Flying(projectiles[k], currentTime, width, height)
      ensures |old(effects)| <= |effects| && effects[..|old(effects)|] == old(effects)
      ensures forall k :: 0 <= k < |entities| && Consistent(old(entities[k].State())) ==> Consistent(entities[k].State())
      ensures !check ==> effects == old(effects) && forall k :: 0 <= k < |entities| ==> entities[k].State() == old(entities[k].State())
    {
      if Expired(projectiles[i], currentTime) {
        SpliceFrame(projectiles, i);
        projectiles := Splice(projectiles, i);
      } else {
        Advance(i, check, dt, env);
      }
    }

    /** The flight loop at index i for a projectile that has not expired: one step
        towards its aim point, the collisions when the check is due (spliced out when
        used up), and a splice at the same index when its point is outside the bounds. */
    method Advance(i: nat, check: bool, dt: real, env: Env)
      requires Valid() && i < |projectiles|
      requires forall k :: i < k < |projectiles| ==> Flying(projectiles[k], currentTime, width, height)
      requires !Expired(projectiles[i], currentTime)
      modifies this`projectiles, this`effects
      modifies (set e | e in entities)`health, (set e | e in entities)`alive, (set e | e in entities)`targetId,
               (set e | e in entities)`targetPosition, (set e | e in entities)`removalDue
      ensures var m := Moved(old(projectiles[i]), old(AimPoint(projectiles[i], entities)), dt, env);
              var s := SweepOf(m, m.current.value, old(Views(entities)), AttackerOf(entities, m.sourceId), currentTime);
              var q := if check then m.(penetration := s.penetration) else m;
              projectiles == Retire(old(projectiles)[i := q], i, check && s.spent, IsOutOfBounds(q.current.value, width, height)) &&
              effects == old(effects) + (if check then s.effects else [])
      ensures i <= |projectiles| <= |old(projectiles)| && projectiles[..i] == old(projectiles)[..i]
      ensures forall k :: i <= k < |projectiles| ==> Flying(projectiles[k], currentTime, width, height)
      ensures forall k :: 0 <= k < |entities| && Consistent(old(entities[k].State())) ==> Consistent(entities[k].State())
      ensures !check ==> forall k :: 0 <= k < |entities| ==> entities[k].State() == old(entities[k].State())
    {
      var p := projectiles[i];
      ghost var ps := projectiles;
      var q := Moved(p, AimPoint(p, entities), dt, env);
      projectiles := projectiles[i := q];
      var spent := false;
      if check {
        q, spent := HitAt(i, q);
      }
      assert projectiles == Retire(ps[i := q], i, spent, false);
      var outside := IsOutOfBounds(q.current.value, width, height);
      if outside {
        projectiles := Splice(projectiles, i);
      }
      RetireFlying(ps, i, q, spent, outside, currentTime, width, height);
    }

    /** The collision step of the flight loop for the projectile p at index i: the
        projectile is spliced out when used up, else stored back with its penetration
        left. Either way checkProjectileCollisions keeps every consistent entity
        consistent. */
    method HitAt(i: nat, p: Projectile) returns (q: Projectile, spent: bool)
      requires Valid() && i < |projectiles| && projectiles[i] == p && p.current.Some?
      modifies this`projectiles, this`effects
      modifies (set e | e in entities)`health, (set e | e in entities)`alive, (set e | e in entities)`targetId,
               (set e | e in entities)`targetPosition, (set e | e in entities)`removalDue
      ensures var s := SweepOf(p, p.current.value, old(Views(entities)), AttackerOf(entities, p.sourceId), currentTime);
              q == p.(penetration := s.penetration) && spent == s.spent && effects == old(effects) + s.effects
      ensures q.current == p.current
      ensures projectiles == Retire(old(projectiles)[i := q], i, spent, false)
      ensures forall k :: 0 <= k < |entities| && Consistent(old(entities[k].State())) ==> Consistent(entities[k].State())
    {
      ghost var ws := Views(entities);
      q, spent := CheckProjectileCollisions(p);
      SweepKeepsConsistent(p, p.current.value, ws, AttackerOf(entities, p.sourceId), currentTime);
      if spent {
        SpliceIgnores(projectiles, i, q);
        projectiles := Splice(projectiles, i);
      } else {
        projectiles := projectiles[i := q];
      }
    }

    /** updateProjectiles(deltaTime): the collision clock, then the flight loop from the
        last projectile to the first. What is left is in flight: not expired, moved, and
        inside the bounds. */
    method UpdateProjectiles(dt: real, env: Env)
      requires Valid()
      modifies this`projectiles, this`effects, this`lastCollisionCheck
      modifies (set e | e in entities)`health, (set e | e in entities)`alive, (set e | e in entities)`targetId,
               (set e | e in entities)`targetPosition, (set e | e in entities)`removalDue
      ensures lastCollisionCheck == if CheckDue(currentTime, old(lastCollisionCheck)) then currentTime else old(lastCollisionCheck)
      ensures |projectiles| <= |old(projectiles)|
      ensures forall k :: 0 <= k < |projectiles| ==> Flying(projectiles[k], currentTime, width, height)
      ensures |old(effects)| <= |effects| && effects[..|old(effects)|] == old(effects)
      ensures forall k :: 0 <= k < |entities| && Consistent(old(entities[k].State())) ==> Consistent(entities[k].State())
      ensures !CheckDue(currentTime, old(lastCollisionCheck)) ==>
                effects == old(effects) && forall k :: 0 <= k < |entities| ==> entities[k].State() == old(entities[k].State())
    {
      var check := CheckDue(currentTime, lastCollisionCheck);
      if check {
        lastCollisionCheck := currentTime;
      }
      var i := |projectiles|;
      while i > 0
        invariant 0 <= i <= |projectiles| <= |old(projectiles)|
        invariant lastCollisionCheck == if check then currentTime else old(lastCollisionCheck)
        invariant forall k :: i <= k < |projectiles| ==> Flying(projectiles[k], currentTime, width, height)
        invariant |old(effects)| <= |effects| && effects[..|old(effects)|] == old(effects)
        invariant forall k :: 0 <= k < |entities| && Consistent(old(entities[k].State())) ==> Consistent(entities[k].State())
        invariant !check ==> effects == old(effects) && forall k :: 0 <= k < |entities| ==> entities[k].State() == old(entities[k].State())
      {
        i := i - 1;
        FlyOne(i, check, dt, env);
      }
    }

    /** entity.update(deltaTime, this) for one living entity, dispatched on its kind: a
        unit's update, a building's update (a unit it completes joins the list with the
        next id), or the plain entity update; a shot joins the projectile list. */
    method TickEntity(e: Entity, dt: real, env: Env)
      requires Valid()
      modifies this`entities, this`nextId, this`projectiles, resources
      modifies e`mana, e`targetId, e`targetPosition, e`lastAttackTime, e`cooldowns, e`originalTargetId,
               e`isDodging, e`dodgeTime, e`lastGoldTime, e`productionQueue, e`productionProgress
      ensures Valid()
      ensures e.mana == Regenerated(old(e.mana), e.maxMana, dt)
      ensures var n := |old(entities)|;
              n <= |entities| <= n + 1 && entities[..n] == old(entities) && nextId == old(nextId) + (|entities| - n)
      ensures forall k :: |old(entities)| <= k < |entities| ==>
                fresh(entities[k]) && entities[k].side == e.side && entities[k].id == old(nextId)
      ensures |entities| > |old(entities)| ==> e.kind == BuildingKind
      ensures var n := |old(projectiles)|;
              n <= |projectiles| <= n + 1 && projectiles[..n] == old(projectiles)
      ensures forall k :: |old(projectiles)| <= k < |projectiles| ==>
                projectiles[k].healing == 0.0 && projectiles[k].sourceId == e.id && e.lastAttackTime == currentTime
    {
      var shot: Option<Projectile>;
      match e.kind {
        case UnitKind =>
          shot := Units.Update(e, dt, currentTime, entities, projectiles, width, height, env);
        case BuildingKind =>
          shot := TickBuilding(e, dt, env);
        case PlainKind =>
          shot := e.Update(dt, currentTime, entities, env);
      }
      if shot.Some? {
        projectiles := projectiles + [shot.value];
      }
    }

    /** entity.update(deltaTime, this) for a building: its update() against this game's
        clock, entity list, ledger and next id. */
    method UpdateBuilding(e: Entity, dt: real, env: Env) returns (shot: Option<Projectile>, spawned: Option<Entity>)
      modifies resources, e`mana, e`targetId, e`targetPosition, e`lastAttackTime, e`lastGoldTime,
               e`productionQueue, e`productionProgress
      ensures e.mana == Regenerated(old(e.mana), e.maxMana, dt)
      ensures shot == Fired(old(e.AsShooter()), old(TargetView(entities, e.targetId)), currentTime, env)
      ensures shot.Some? ==> shot.value.healing == 0.0 && shot.value.sourceId == e.id && e.lastAttackTime == currentTime
      ensures shot.None? ==> e.lastAttackTime == old(e.lastAttackTime)
      ensures spawned.Some? ==> fresh(spawned.value) && spawned.value.side == e.side && spawned.value.id == nextId
    {
      shot, spawned := Buildings.Update(e, dt, currentTime, entities, resources, nextId, env);
    }

    /** A building's step of the entity loop: its update(), and a unit it completes joins
        the list with the next id. */
    method TickBuilding(e: Entity, dt: real, env: Env) returns (shot: Option<Projectile>)
      requires Valid()
      modifies this`entities, this`nextId, resources
      modifies e`mana, e`targetId, e`targetPosition, e`lastAttackTime, e`lastGoldTime, e`productionQueue, e`productionProgress
      ensures Valid()
      ensures e.mana == Regenerated(old(e.mana), e.maxMana, dt)
      ensures var n := |old(entities)|;
              n <= |entities| <= n + 1 && entities[..n] == old(entities) && nextId == old(nextId) + (|entities| - n)
      ensures forall k :: |old(entities)| <= k < |entities| ==>
                fresh(entities[k]) && entities[k].side == e.side && entities[k].id == old(nextId)
      ensures shot == Fired(old(e.AsShooter()), old(TargetView(entities, e.targetId)), currentTime, env)
      ensures shot.Some? ==> shot.value.healing == 0.0 && shot.value.sourceId == e.id && e.lastAttackTime == currentTime
      ensures shot.None? ==> e.lastAttackTime == old(e.lastAttackTime)
    {
      var spawned;
      shot, spawned := UpdateBuilding(e, dt, env);
      if spawned.Some? {
        entities := entities + [spawned.value];
        nextId := nextId + 1;
      }
    }

    /** The entity loop of update(): every entity that is alive, from the last to the
        first; units completed on the way are appended behind and wait for the next
        tick. No entity's health or life changes here. */
    method UpdateEntities(dt: real, env: Env)
      requires Valid()
      modifies this`entities, this`nextId, this`projectiles, resources
      modifies (set e | e in entities)`mana, (set e | e in entities)`targetId, (set e | e in entities)`targetPosition,
               (set e | e in entities)`lastAttackTime, (set e | e in entities)`cooldowns,
               (set e | e in entities)`originalTargetId, (set e | e in entities)`isDodging,
               (set e | e in entities)`dodgeTime, (set e | e in entities)`lastGoldTime,
               (set e | e in entities)`productionQueue, (set e | e in entities)`productionProgress
      ensures Valid()
      ensures var n := |old(entities)|;
              n <= |entities| && entities[..n] == old(entities) && nextId == old(nextId) + (|entities| - n)
      ensures forall k :: |old(entities)| <= k < |entities| ==> fresh(entities[k])
      ensures var n := |old(projectiles)|;
              n <= |projectiles| && projectiles[..n] == old(projectiles)
      ensures forall k :: |old(projectiles)| <= k < |projectiles| ==> projectiles[k].healing == 0.0
      ensures forall k :: 0 <= k < |old(entities)| ==>
                entities[k].mana == if entities[k].alive then Regenerated(old(entities[k].mana), entities[k].maxMana, dt)
                                    else old(entities[k].mana)
    {
      var n := |entities|;
      var i := n;
      while i > 0
        invariant 0 <= i <= n <= |entities| && entities[..n] == old(entities)
        invariant nextId == old(nextId) + (|entities| - n)
        invariant forall k :: n <= k < |entities| ==> fresh(entities[k])
        invariant |old(projectiles)| <= |projectiles| && projectiles[..|old(projectiles)|] == old(projectiles)
        invariant forall k :: |old(projectiles)| <= k < |projectiles| ==> projectiles[k].healing == 0.0
        invariant forall k :: 0 <= k < n ==>
                    entities[k].mana == if k >= i && entities[k].alive then Regenerated(old(entities[k].mana), entities[k].maxMana, dt)
                                        else old(entities[k].mana)
        invariant Valid()
      {
        i := i - 1;
        var e := entities[i];
        assert e == old(entities)[i];
        assert forall k :: 0 <= k < n && k != i ==> entities[k] != e;
        if e.alive {
          ghost var es := entities;
          ghost var ps := projectiles;
          TickEntity(e, dt, env);
          assert entities[..|es|] == es;
          assert projectiles[..|ps|] == ps;
        }
      }
    }

    /** update(deltaTime): the entity loop, the projectile loop, the effect loop, then
        checkGameOver. Afterwards every projectile left is in flight, every effect has time
        left, the outcome is the game-over rule applied to the entities, and every entity
        that was consistent still is. */
    method Update(dt: real, env: Env)
      requires Valid()
      modifies this`entities, this`nextId, this`projectiles, this`effects, this`lastCollisionCheck,
               this`gameOver, this`winner, resources
      modifies (set e | e in entities)`mana, (set e | e in entities)`targetId,
               (set e | e in entities)`targetPosition, (set e | e in entities)`lastAttackTime,
               (set e | e in entities)`cooldowns, (set e | e in entities)`originalTargetId,
               (set e | e in entities)`isDodging, (set e | e in entities)`dodgeTime,
               (set e | e in entities)`lastGoldTime, (set e | e in entities)`productionQueue,
               (set e | e in entities)`productionProgress, (set e | e in entities)`health,
               (set e | e in entities)`alive, (set e | e in entities)`removalDue
      ensures Valid()
      ensures var n := |old(entities)|;
              n <= |entities| && entities[..n] == old(entities) && nextId == old(nextId) + (|entities| - n)
      ensures forall k :: |old(entities)| <= k < |entities| ==> fresh(entities[k])
      ensures forall k :: 0 <= k < |projectiles| ==> Flying(projectiles[k], currentTime, width, height)
      ensures forall x :: x in effects ==> x.duration > 0.0
      ensures Result() == Judge(BaseCount(Views(entities), true), BaseCount(Views(entities), false), old(Result()))
      ensures forall k :: 0 <= k < |old(entities)| && Consistent(old(entities[k].State())) ==> Consistent(entities[k].State())
    {
      Move(dt, env);
      Settle(dt);
    }

    /** The first half of update(): the entity loop, then the projectile loop. */
    method Move(dt: real, env: Env)
      requires Valid()
      modifies this`entities, this`nextId, this`projectiles, this`effects, this`lastCollisionCheck, resources
      modifies (set e | e in entities)`mana, (set e | e in entities)`targetId,
               (set e | e in entities)`targetPosition, (set e | e in entities)`lastAttackTime,
               (set e | e in entities)`cooldowns, (set e | e in entities)`originalTargetId,
               (set e | e in entities)`isDodging, (set e | e in entities)`dodgeTime,
               (set e | e in entities)`lastGoldTime, (set e | e in entities)`productionQueue,
               (set e | e in entities)`productionProgress, (set e | e in entities)`health,
               (set e | e in entities)`alive, (set e | e in entities)`removalDue
      ensures Valid()
      ensures var n := |old(entities)|;
              n <= |entities| && entities[..n] == old(entities) && nextId == old(nextId) + (|entities| - n)
      ensures forall k :: |old(entities)| <= k < |entities| ==> fresh(entities[k])
      ensures forall k :: 0 <= k < |projectiles| ==> Flying(projectiles[k], currentTime, width, height)
      ensures forall k :: 0 <= k < |old(entities)| && Consistent(old(entities[k].State())) ==> Consistent(entities[k].State())
    {
      UpdateEntities(dt, env);
      assert forall k :: 0 <= k < |old(entities)| && Consistent(old(entities[k].State())) ==> Consistent(entities[k].State());
      UpdateProjectiles(dt, env);
    }

    /** The second half of update(): the effect loop, then checkGameOver. */
    method Settle(dt: real)
      modifies this`effects, this`gameOver, this`winner
      ensures effects == DecayEffects(old(effects), dt)
      ensures forall x :: x in effects ==> x.duration > 0.0
      ensures Result() == Judge(BaseCount(Views(entities), true), BaseCount(Views(entities), false), old(Result()))
    {
      ghost var fx := effects;
      UpdateEffects(dt);
      DecayEffectsLive(fx, dt);
      CheckGameOver();
    }

    /** One frame of gameLoop with the clock reading `now`: the tick is the time since the
        last frame scaled by the game speed and capped at 0.1 seconds, and the world is
        updated unless the game is paused. Game over does not stop the updates. */
    method Frame(now: real, env: Env)
      requires Valid()
      modifies this`currentTime, this`lastUpdateTime, this`entities, this`nextId, this`projectiles,
               this`effects, this`lastCollisionCheck, this`gameOver, this`winner, resources
      modifies (set e | e in entities)`mana, (set e | e in entities)`targetId,
               (set e | e in entities)`targetPosition, (set e | e in entities)`lastAttackTime,
               (set e | e in entities)`cooldowns, (set e | e in entities)`originalTargetId,
               (set e | e in entities)`isDodging, (set e | e in entities)`dodgeTime,
               (set e | e in entities)`lastGoldTime, (set e | e in entities)`productionQueue,
               (set e | e in entities)`productionProgress, (set e | e in entities)`health,
               (set e | e in entities)`alive, (set e | e in entities)`removalDue
      ensures currentTime == now && lastUpdateTime == now && Valid()
      ensures old(paused) ==>
                entities == old(entities) && projectiles == old(projectiles) && effects == old(effects) &&
                Result() == old(Result())
      ensures !old(paused) ==>
                (forall k :: 0 <= k < |projectiles| ==> Flying(projectiles[k], now, width, height)) &&
                Result() == Judge(BaseCount(Views(entities), true), BaseCount(Views(entities), false), old(Result()))
    {
      currentTime := now;
      var dt := FrameDelta(currentTime, lastUpdateTime, gameSpeed);
      lastUpdateTime := currentTime;
      if !paused {
        Update(dt, env);
      }
    }
  }
}
