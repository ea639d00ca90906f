/** building.js: what a building adds to an entity — the per-second gold payout, the FIFO
    production queue paid for when an item is queued, level-indexed upgrades, and the
    autopilot of bases (auto-queueing) and towers (retargeting). */
module Buildings {
  import opened Utils
  import opened Constants
  import opened Entities
  import opened Resources

  // ---------------------------------------------------------------------
  // Gold
  // ---------------------------------------------------------------------

  /** Whether update() pays gold: the building generates gold and at least a second
      (1000 ms) has passed since the last payout. */
  predicate PaysOut(goldGeneration: real, last: real, now: real): (b: bool)
    ensures b <==> goldGeneration > 0.0 && now >= last + 1000.0
  {
    goldGeneration > 0.0 && Elapsed(last, now) >= 1.0
  }

  /** Seconds between two millisecond timestamps. */
  function Elapsed(last: real, now: real): real {
    (now - last) / 1000.0
  }

  /** goldGeneration * Math.floor(seconds since the last payout): a whole, positive
      number of seconds' worth. */
  function Payout(goldGeneration: real, last: real, now: real): (r: real)
    requires PaysOut(goldGeneration, last, now)
    ensures r >= goldGeneration > 0.0
    ensures (r / goldGeneration).Floor as real == r / goldGeneration
  {
    var k := Elapsed(last, now).Floor;
    assert k >= 1;
    assert goldGeneration * k as real / goldGeneration == k as real;
    goldGeneration * k as real
  }

  /** A payout is at least one second's worth, never more than the elapsed time earns,
      and less than a second's worth short of it. */
  lemma PayoutBounds(goldGeneration: real, last: real, now: real)
    requires PaysOut(goldGeneration, last, now)
    ensures var r := Payout(goldGeneration, last, now);
            goldGeneration <= r <= goldGeneration * Elapsed(last, now) &&
            r + goldGeneration > goldGeneration * Elapsed(last, now)
  {
    var secs := Elapsed(last, now);
    WholeSecondsBounds(goldGeneration, secs, secs.Floor as real, Payout(goldGeneration, last, now));
  }

  /** Math.floor keeps a whole number of seconds between one and the elapsed time. */
  lemma WholeSecondsBounds(g: real, secs: real, whole: real, r: real)
    requires g > 0.0 && secs >= 1.0 && whole == secs.Floor as real && r == g * whole
    ensures g <= r <= g * secs
    ensures r + g > g * secs
  {
    assert 1.0 <= whole <= secs < whole + 1.0;
    ScaleMonotone(g, 1.0, whole);
    ScaleMonotone(g, whole, secs);
    assert secs < whole + 1.0;
    ScaleMonotone(g, secs, whole + 1.0);
    assert g * secs < g * (whole + 1.0);
    assert g * (whole + 1.0) == r + g;
    assert r + g > g * secs;
  }

  /** Scaling by a positive factor keeps the order of two reals. */
  lemma ScaleMonotone(g: real, a: real, b: real)
    requires g > 0.0 && a <= b
    ensures g * a <= g * b
    ensures a < b ==> g * a < g * b
  {
    assert g * b - g * a == g * (b - a);
  }

  /** The discarded fraction: two payouts 1.5 s apart pay one second each, so three seconds
      of generation in two ticks earn what two seconds do, not three. */
  lemma FractionDiscarded(g: real, t: real)
    requires g > 0.0
    ensures Payout(g, t, t + 1500.0) + Payout(g, t + 1500.0, t + 3000.0) == 2.0 * g
    ensures Payout(g, t, t + 3000.0) == 3.0 * g
  {
    assert Elapsed(t, t + 1500.0) == 1.5;
    assert Elapsed(t + 1500.0, t + 3000.0) == 1.5;
    assert Elapsed(t, t + 3000.0) == 3.0;
  }

  /** The first-payout quirk: lastGoldTime starts at 0 while the clock is in epoch
      milliseconds, so the first payout counts every second since 1970. */
  lemma FirstPayoutIsEnormous(g: real, now: real)
    requires g > 0.0 && now >= 1000.0
    ensures PaysOut(g, 0.0, now)
    ensures Payout(g, 0.0, now) + g > g * (now / 1000.0)
  {
    assert Elapsed(0.0, now) == now / 1000.0;
    PayoutBounds(g, 0.0, now);
  }

  /** The gold step of update(). */
  method GenerateGold(b: Entity, ledger: Ledger, now: real)
    modifies b`lastGoldTime, ledger
    ensures if PaysOut(b.goldGeneration, old(b.lastGoldTime), now)
            then ledger.gold == Credit(old(ledger.gold), b.side, Payout(b.goldGeneration, old(b.lastGoldTime), now)) &&
                 b.lastGoldTime == now
            else ledger.gold == old(ledger.gold) && b.lastGoldTime == old(b.lastGoldTime)
    ensures ledger.gold == Paid(old(ledger.gold), b.side, b.goldGeneration, old(b.lastGoldTime), now)
    ensures b.lastGoldTime == PaidAt(b.goldGeneration, old(b.lastGoldTime), now)
  {
    if b.goldGeneration > 0.0 {
      var since := (now - b.lastGoldTime) / 1000.0;
      if since >= 1.0 {
        var amount := b.goldGeneration * (since.Floor as real);
        assert amount == Payout(b.goldGeneration, b.lastGoldTime, now);
        var _ := ledger.AddGold(b.side, amount);
        b.lastGoldTime := now;
      }
    }
  }

  // ---------------------------------------------------------------------
  // Production
  // ---------------------------------------------------------------------

  /** The production queue and the progress on its head. */
  datatype Production = Production(queue: seq<UnitTemplate>, progress: real)

  function ProductionOf(b: Entity): Production
    reads b`productionQueue, b`productionProgress
  {
    Production(b.productionQueue, b.productionProgress)
  }

  /** The result of one production step: the new queue state and the item finished, if any. */
  datatype Step = Step(next: Production, done: Option<UnitTemplate>)

  /** The production step of update(): only on autopilot and with a non-empty queue does
      progress grow by rate * dt; once it reaches the head's cost, the head is finished,
      leaves the front of the queue, and progress restarts at 0. At most one item per step. */
  function Produce(p: Production, rate: real, dt: real, autopilot: bool): (r: Step)
    ensures !(autopilot && p.queue != []) ==> r == Step(p, None)
    ensures autopilot && p.queue != [] ==> (r.done.Some? <==> p.progress + rate * dt >= p.queue[0].cost)
    ensures r.done.Some? ==> [r.done.value] + r.next.queue == p.queue && r.next.progress == 0.0
    ensures r.done.None? && autopilot && p.queue != [] ==> r.next == p.(progress := p.progress + rate * dt)
  {
    if autopilot && p.queue != [] then
      var progress := p.progress + rate * dt;
      if progress >= p.queue[0].cost then Step(Production(p.queue[1..], 0.0), Some(p.queue[0]))
      else Step(p.(progress := progress), None)
    else Step(p, None)
  }

  predicate PositiveCosts(ts: seq<UnitTemplate>) {
    forall i :: 0 <= i < |ts| ==> ts[i].cost > 0.0
  }

  /** What the queue bookkeeping keeps: no progress without a queue, and progress on the
      head below its cost. */
  predicate ProductionValid(p: Production) {
    (p.queue == [] ==> p.progress == 0.0) &&
    (p.queue != [] ==> 0.0 <= p.progress < p.queue[0].cost)
  }

  lemma ProduceKeepsValid(p: Production, rate: real, dt: real, autopilot: bool)
    requires ProductionValid(p) && PositiveCosts(p.queue) && rate >= 0.0 && dt >= 0.0
    ensures ProductionValid(Produce(p, rate, dt, autopilot).next)
    ensures PositiveCosts(Produce(p, rate, dt, autopilot).next.queue)
  {
    assert rate * dt >= 0.0;
    var r := Produce(p, rate, dt, autopilot);
    if r.done.Some? {
      assert r.next.queue == p.queue[1..];
    }
  }

  /** getProductionProgress(): 0 for an empty queue, else progress over the head's cost,
      which the queue bookkeeping keeps in [0, 1). */
  function ProductionProgress(p: Production): (r: real)
    requires p.queue != [] ==> p.queue[0].cost != 0.0
    ensures p.queue == [] ==> r == 0.0
    ensures ProductionValid(p) ==> 0.0 <= r < 1.0
  {
    if p.queue == [] then 0.0
    else
      var c := p.queue[0].cost;
      if ProductionValid(p) then
        assert 0.0 <= p.progress / c < 1.0 by {
          assert p.progress / c * c == p.progress;
        }
        p.progress / c
      else p.progress / c
  }

  /** Production steps over several ticks. */
  function ProduceAll(p: Production, rate: real, dts: seq<real>, autopilot: bool): (r: (Production, seq<UnitTemplate>))
    decreases |dts|
  {
    if dts == [] then (p, [])
    else
      var s := Produce(p, rate, dts[0], autopilot);
      var rest := ProduceAll(s.next, rate, dts[1..], autopilot);
      (rest.0, (if s.done.Some? then [s.done.value] else []) + rest.1)
  }

  /** FIFO: over any run of ticks with nothing queued meanwhile, the items finished, in
      order, followed by what is still queued, are exactly the queue the run started with. */
  lemma {:induction false} ProductionIsFifo(p: Production, rate: real, dts: seq<real>, autopilot: bool)
    ensures var r := ProduceAll(p, rate, dts, autopilot); r.1 + r.0.queue == p.queue
    decreases |dts|
  {
    if dts != [] {
      var s := Produce(p, rate, dts[0], autopilot);
      ProductionIsFifo(s.next, rate, dts[1..], autopilot);
      var rest := ProduceAll(s.next, rate, dts[1..], autopilot);
      if s.done.Some? {
        assert ([s.done.value] + rest.1) + rest.0.queue == [s.done.value] + (rest.1 + rest.0.queue);
      }
    }
  }

  /** Where completeProduction places a new unit: on a ring 20 beyond the building's radius,
      at the angle the spawn roll gives. */
  function SpawnPoint(b: Entity, env: Env): Point {
    env.ring(b.pos, b.radius + 20.0, env.roll(b.id, SpawnAngle))
  }

  /** completeProduction(unitType, gameState): a new unit of the template, on the building's
      side, near the building. The caller adds it to the world. */
  method CompleteProduction(b: Entity, t: UnitTemplate, id: Id, env: Env) returns (u: Entity)
    ensures fresh(u)
    ensures u.id == id && u.kind == UnitKind && u.side == b.side && u.pos == SpawnPoint(b, env)
    ensures u.unitType == OrString(t.unitType, "generic") && u.alive && u.autopilot && u.health == u.maxHealth
  {
    u := new Entity.Unit(id, t, SpawnPoint(b, env), b.side);
  }

  /** The unit a production step hands back is the one it finished: none exactly when
      nothing finished, and otherwise a unit of the finished template's type ("generic"
      when the template names none). */
  predicate Delivers(spawned: Option<Entity>, done: Option<UnitTemplate>)
  {
    (spawned.Some? <==> done.Some?) &&
    (spawned.Some? ==> spawned.value.unitType == OrString(done.value.unitType, "generic"))
  }

  /** The production step of update(), on the building; `id` is the fresh id a finished unit gets. */
  method AdvanceProduction(b: Entity, dt: real, id: Id, env: Env) returns (spawned: Option<Entity>)
    modifies b`productionQueue, b`productionProgress
    ensures var s := Produce(old(ProductionOf(b)), b.productionRate, dt, b.autopilot);
            ProductionOf(b) == s.next && Delivers(spawned, s.done)
    ensures spawned.Some? ==>
              var u := spawned.value;
              fresh(u) && u.id == id && u.kind == UnitKind && u.side == b.side && u.pos == SpawnPoint(b, env)
    ensures old(ProductionValid(ProductionOf(b)) && PositiveCosts(b.productionQueue)) &&
            b.productionRate >= 0.0 && dt >= 0.0 ==>
              ProductionValid(ProductionOf(b)) && PositiveCosts(b.productionQueue)
  {
    if ProductionValid(ProductionOf(b)) && PositiveCosts(b.productionQueue) && b.productionRate >= 0.0 && dt >= 0.0 {
      ProduceKeepsValid(ProductionOf(b), b.productionRate, dt, b.autopilot);
    }
    spawned := None;
    if |b.productionQueue| > 0 && b.autopilot {
      var current := b.productionQueue[0];
      b.productionProgress := b.productionProgress + b.productionRate * dt;
      if b.productionProgress >= current.cost {
        var u := CompleteProduction(b, current, id, env);
        spawned := Some(u);
        b.productionQueue := b.productionQueue[1..];
        b.productionProgress := 0.0;
      }
    }
  }

  // ---------------------------------------------------------------------
  // Queueing
  // ---------------------------------------------------------------------

  /** queueProduction on a balance: None when it is short of the cost, else the balance
      after paying. */
  function Enqueue(gold: real, cost: real): (r: Option<real>)
    ensures r.None? <==> gold < cost
    ensures r.Some? ==> r.value + cost == gold
    ensures gold >= 0.0 && r.Some? ==> r.value >= 0.0 || cost < 0.0
  {
    if gold < cost then None else Some(gold - cost)
  }

  /** How many of `n` successive enqueues of an item costing `cost` succeed from `gold`. */
  function Successes(gold: real, cost: real, n: nat): nat
    decreases n
  {
    if n == 0 then 0
    else match Enqueue(gold, cost)
      case None => 0
      case Some(g) => 1 + Successes(g, cost, n - 1)
  }

  /** Paying for the queue never overdraws: against a positive cost, the successes are
      exactly as many as the balance covers, up to the attempts made. */
  lemma {:induction false} SuccessesAreAffordable(gold: real, cost: real, n: nat)
    requires gold >= 0.0 && cost > 0.0
    ensures Successes(gold, cost, n) <= n
    ensures Successes(gold, cost, n) as real * cost <= gold
    ensures Successes(gold, cost, n) < n ==> gold - Successes(gold, cost, n) as real * cost < cost
    decreases n
  {
    if n > 0 && gold >= cost {
      SuccessesAreAffordable(gold - cost, cost, n - 1);
      var k := Successes(gold - cost, cost, n - 1);
      assert (k + 1) as real * cost == k as real * cost + cost;
    }
  }

  /** Four archers (120 gold each) fit in the starting 500 gold, not five. */
  lemma FourFromStartingGold(n: nat)
    requires n >= 5
    ensures Successes(StartingGold, 120.0, n) == 4
  {
    assert Successes(20.0, 120.0, n - 4) == 0;
    assert Successes(140.0, 120.0, n - 3) == 1;
    assert Successes(260.0, 120.0, n - 2) == 2;
    assert Successes(380.0, 120.0, n - 1) == 3;
  }

  /** queueProduction(unitType, gameState) */
  method QueueProduction(b: Entity, t: UnitTemplate, ledger: Ledger) returns (ok: bool)
    modifies b`productionQueue, ledger
    ensures ok <==> Enqueue(old(ledger.GetGold(b.side)), t.cost).Some?
    ensures ok ==> b.productionQueue == old(b.productionQueue) + [t] &&
                   ledger.gold == Credit(old(ledger.gold), b.side, -t.cost)
    ensures !ok ==> b.productionQueue == old(b.productionQueue) && ledger.gold == old(ledger.gold)
  {
    var cost := t.cost;
    if ledger.GetGold(b.side) < cost {
      return false;
    }
    var _ := ledger.AddGold(b.side, -cost);
    b.productionQueue := b.productionQueue + [t];
    return true;
  }

  /** Queueing keeps the queue bookkeeping valid. */
  lemma EnqueueKeepsValid(p: Production, t: UnitTemplate)
    requires ProductionValid(p) && PositiveCosts(p.queue) && t.cost > 0.0
    ensures ProductionValid(p.(queue := p.queue + [t])) && PositiveCosts(p.queue + [t])
  {
    if p.queue != [] {
      assert (p.queue + [t])[0] == p.queue[0];
    }
  }

  // ---------------------------------------------------------------------
  // Autopilot
  // ---------------------------------------------------------------------

  /** unitTypes.filter(u => u.cost <= gold), in order; never longer than the list. */
  function Affordable(ts: seq<UnitTemplate>, gold: real): (r: seq<UnitTemplate>)
    ensures |r| <= |ts|
    decreases |ts|
  {
    if ts == [] then []
    else if ts[0].cost <= gold then [ts[0]] + Affordable(ts[1..], gold)
    else Affordable(ts[1..], gold)
  }

  /** The filter keeps exactly the templates that cost at most the balance. */
  lemma {:induction false} AffordableSpec(ts: seq<UnitTemplate>, gold: real)
    ensures forall t :: t in Affordable(ts, gold) <==> t in ts && t.cost <= gold
    decreases |ts|
  {
    if ts != [] {
      AffordableSpec(ts[1..], gold);
      assert ts == [ts[0]] + ts[1..];
    }
  }

  /** availableUnits.find(u => u.unitType === unitType): a template it finds is of the
      type and from the list. */
  function FindType(ts: seq<UnitTemplate>, unitType: string): (r: Option<UnitTemplate>)
    ensures r.Some? ==> r.value in ts && r.value.unitType == unitType
    decreases |ts|
  {
    if ts == [] then None
    else if ts[0].unitType == unitType then Some(ts[0])
    else FindType(ts[1..], unitType)
  }

  /** find gives the first template of the type when the list has one, and nothing
      otherwise. */
  lemma {:induction false} FindTypeSpec(ts: seq<UnitTemplate>, unitType: string)
    ensures var r := FindType(ts, unitType);
            (r.Some? ==> r.value in ts && r.value.unitType == unitType) &&
            (r.None? <==> forall t :: t in ts ==> t.unitType != unitType)
    ensures var r := FindType(ts, unitType);
            r.Some? ==> exists i :: 0 <= i < |ts| && ts[i] == r.value && forall j :: 0 <= j < i ==> ts[j].unitType != unitType
    decreases |ts|
  {
    if ts != [] {
      FindTypeSpec(ts[1..], unitType);
      assert ts == [ts[0]] + ts[1..];
      var r := FindType(ts, unitType);
      if ts[0].unitType == unitType {
        assert ts[0] == r.value;
      } else if r.Some? {
        var i :| 0 <= i < |ts[1..]| && ts[1..][i] == r.value && forall j :: 0 <= j < i ==> ts[1..][j].unitType != unitType;
        assert ts[i + 1] == r.value;
        assert forall j :: 0 <= j < i + 1 ==> ts[j].unitType != unitType by {
          forall j | 0 <= j < i + 1 ensures ts[j].unitType != unitType {
            if j > 0 { assert ts[j] == ts[1..][j - 1]; }
          }
        }
      }
    }
  }

  /** The preference loop: the template of the first preferred type that is available.
      Its type is one of the preferences. */
  function Preferred(prefs: seq<string>, ts: seq<UnitTemplate>): (r: Option<UnitTemplate>)
    ensures r.Some? ==> r.value.unitType in prefs
    decreases |prefs|
  {
    if prefs == [] then None
    else
      var f := FindType(ts, prefs[0]);
      if f.Some? then f else Preferred(prefs[1..], ts)
  }

  /** Whatever the preference loop picks comes from the list it searched. */
  lemma {:induction false} PreferredIn(prefs: seq<string>, ts: seq<UnitTemplate>)
    ensures Preferred(prefs, ts).Some? ==> Preferred(prefs, ts).value in ts
    decreases |prefs|
  {
    if prefs != [] {
      FindTypeSpec(ts, prefs[0]);
      if FindType(ts, prefs[0]).None? {
        PreferredIn(prefs[1..], ts);
      }
    }
  }

  /** The loop stops at the first preference the list can serve, and finds nothing only
      when none of them can be served. */
  lemma {:induction false} PreferredSpec(prefs: seq<string>, ts: seq<UnitTemplate>)
    ensures var r := Preferred(prefs, ts);
            (r.None? <==> forall i :: 0 <= i < |prefs| ==> FindType(ts, prefs[i]).None?) &&
            (r.Some? ==> r.value in ts) &&
            (r.Some? ==> exists i :: 0 <= i < |prefs| && r == FindType(ts, prefs[i]) &&
                           forall j :: 0 <= j < i ==> FindType(ts, prefs[j]).None?)
    decreases |prefs|
  {
    if prefs != [] {
      FindTypeSpec(ts, prefs[0]);
      var f := FindType(ts, prefs[0]);
      if f.Some? {
        assert f == FindType(ts, prefs[0]);
      } else {
        PreferredSpec(prefs[1..], ts);
        var rest := Preferred(prefs[1..], ts);
        forall i | 0 < i < |prefs|
          ensures FindType(ts, prefs[i]) == FindType(ts, prefs[1..][i - 1])
        {
          assert prefs[i] == prefs[1..][i - 1];
        }
        if rest.Some? {
          var i :| 0 <= i < |prefs[1..]| && rest == FindType(ts, prefs[1..][i]) &&
                   forall j :: 0 <= j < i ==> FindType(ts, prefs[1..][j]).None?;
          assert rest == FindType(ts, prefs[i + 1]);
          assert forall j :: 0 <= j < i + 1 ==> FindType(ts, prefs[j]).None?;
        }
      }
    }
  }

  /** AI.UNIT_PREFERENCE[side], or the default order for a side the table lacks. */
  function PreferenceOf(side: int): seq<string> {
    match UnitPreference(side)
    case Some(p) => p
    case None => ["warrior", "archer", "mage", "healer"]
  }

  /** The base's choice: among the affordable templates, the first of the side's preferred
      types, else the one at floor(roll * count). Whatever it picks is one of the
      affordable templates, and nothing is picked when none is affordable. */
  function ChooseUnit(ts: seq<UnitTemplate>, gold: real, side: int, roll: real): (r: Option<UnitTemplate>)
    ensures Affordable(ts, gold) == [] ==> r.None?
    ensures r.Some? ==> r.value in Affordable(ts, gold)
  {
    var available := Affordable(ts, gold);
    if available == [] then None
    else
      var preferred := Preferred(PreferenceOf(side), available);
      if preferred.Some? then preferred
      else
        var k := (roll * |available| as real).Floor;
        if 0 <= k < |available| then Some(available[k]) else None
  }

  /** The base only queues what it can afford; it queues nothing exactly when nothing is
      affordable (given a roll in [0, 1)); and a preferred type, when one is affordable,
      beats the random fallback. */
  lemma ChooseUnitSpec(ts: seq<UnitTemplate>, gold: real, side: int, roll: real)
    ensures var r := ChooseUnit(ts, gold, side, roll);
            (r.Some? ==> r.value in ts && r.value.cost <= gold) &&
            (Affordable(ts, gold) == [] ==> r.None?) &&
            (0.0 <= roll < 1.0 && Affordable(ts, gold) != [] ==> r.Some?) &&
            (Preferred(PreferenceOf(side), Affordable(ts, gold)).Some? ==>
               r == Preferred(PreferenceOf(side), Affordable(ts, gold)))
  {
    var available := Affordable(ts, gold);
    var r := ChooseUnit(ts, gold, side, roll);
    if r.Some? {
      AffordableSpec(ts, gold);
      assert r.value in available;
    }
    if available != [] && Preferred(PreferenceOf(side), available).None? && 0.0 <= roll < 1.0 {
      ScaledRollBounds(roll, |available|);
    }
  }


  /** With the starting 500 gold and the initial base's warrior and archer, both sides
      queue an archer first: it heads the preference order. */
  lemma BaseQueuesArcherFirst(warrior: UnitTemplate, archer: UnitTemplate, side: int, roll: real)
    requires warrior.unitType == "warrior" && warrior.cost == 100.0
    requires archer.unitType == "archer" && archer.cost == 120.0
    requires side == 0 || side == 1
    ensures ChooseUnit([warrior, archer], StartingGold, side, roll) == Some(archer)
  {
    var available := Affordable([warrior, archer], StartingGold);
    assert [warrior, archer][1..] == [archer];
    assert Affordable([archer], StartingGold) == [archer] by {
      assert [archer][1..] == [];
    }
    assert available == [warrior, archer];
    assert available[1..] == [archer];
    assert FindType(available, "archer") == Some(archer);
    assert Preferred(PreferenceOf(side), available) == Some(archer);
    ChooseUnitSpec([warrior, archer], StartingGold, side, roll);
  }

  /** getEntityById(targetId)?.alive is not true: no target, none with that id, or dead.
      A target that is not lost is a living entity of the list. */
  predicate TargetLost(es: seq<Entity>, id: Option<Id>): (b: bool)
    reads es`alive
    ensures !b ==> id.Some? && exists e :: e in es && e.id == id.value && e.alive
  {
    id.None? || FindById(es, id.value).None? || !FindById(es, id.value).value.alive
  }

  /** The tower branch of runBuildingAutopilot: an armed tower whose target is lost takes
      the nearest enemy, if any. */
  method RetargetTower(b: Entity, entities: seq<Entity>)
    modifies b`targetId, b`targetPosition
    ensures b.State() == TowerStep(old(b.State()), b.buildingType == "tower" && b.attackDamage > 0.0 && b.attackRange > 0.0,
                                   old(TargetLost(entities, b.targetId)), old(NearestOf(Enemies, b.side, b.pos, entities)))
  {
    NearestOfViews(Enemies, b.side, b.pos, entities);
    if b.buildingType == "tower" && b.attackDamage > 0.0 && b.attackRange > 0.0 {
      var lost := true;
      if b.targetId.Some? {
        var t := FindById(entities, b.targetId.value);
        lost := t.None? || !t.value.alive;
      }
      if lost {
        var nearest := b.FindNearestEnemy(entities);
        if nearest.Some? {
          b.SetTarget(nearest.value.id);
        }
      }
    }
  }

  /** The base branch of runBuildingAutopilot. */
  method AutoQueue(b: Entity, ledger: Ledger, env: Env)
    modifies b`productionQueue, ledger
    ensures var c := ChooseUnit(b.unitTypes, old(ledger.GetGold(b.side)), b.side, env.roll(b.id, FallbackUnit));
            if b.isBase && |old(b.productionQueue)| < 2 && c.Some?
            then b.productionQueue == old(b.productionQueue) + [c.value] &&
                 ledger.gold == Credit(old(ledger.gold), b.side, -c.value.cost)
            else b.productionQueue == old(b.productionQueue) && ledger.gold == old(ledger.gold)
    ensures var c := AutoPick(b.isBase, old(b.productionQueue), b.unitTypes, old(ledger.GetGold(b.side)), b.side, env.roll(b.id, FallbackUnit));
            ProductionOf(b) == Queued(old(ProductionOf(b)), c) && ledger.gold == Charged(old(ledger.gold), b.side, c)
    ensures old(ProductionValid(ProductionOf(b)) && PositiveCosts(b.productionQueue)) && PositiveCosts(b.unitTypes) ==>
              ProductionValid(ProductionOf(b)) && PositiveCosts(b.productionQueue)
  {
    if b.isBase && |b.productionQueue| < 2 {
      var gold := ledger.GetGold(b.side);
      var choice := ChooseUnit(b.unitTypes, gold, b.side, env.roll(b.id, FallbackUnit));
      ChooseUnitSpec(b.unitTypes, gold, b.side, env.roll(b.id, FallbackUnit));
      if choice.Some? {
        if ProductionValid(ProductionOf(b)) && PositiveCosts(b.productionQueue) && PositiveCosts(b.unitTypes) {
          EnqueueKeepsValid(ProductionOf(b), choice.value);
        }
        var _ := QueueProduction(b, choice.value, ledger);
      }
    }
  }

  /** runBuildingAutopilot(gameState): a base with fewer than two queued items queues the
      unit ChooseUnit picks (which it can always afford); then the tower branch. */
  method RunBuildingAutopilot(b: Entity, entities: seq<Entity>, ledger: Ledger, env: Env)
    modifies b`productionQueue, b`targetId, b`targetPosition, ledger
    ensures var c := AutoPick(b.isBase, old(b.productionQueue), b.unitTypes, old(ledger.GetGold(b.side)), b.side, env.roll(b.id, FallbackUnit));
            ProductionOf(b) == Queued(old(ProductionOf(b)), c) && ledger.gold == Charged(old(ledger.gold), b.side, c)
    ensures b.State() == TowerStep(old(b.State()), b.buildingType == "tower" && b.attackDamage > 0.0 && b.attackRange > 0.0,
                                   old(TargetLost(entities, b.targetId)), old(NearestOf(Enemies, b.side, b.pos, entities)))
    ensures old(ProductionValid(ProductionOf(b)) && PositiveCosts(b.productionQueue)) && PositiveCosts(b.unitTypes) ==>
              ProductionValid(ProductionOf(b)) && PositiveCosts(b.productionQueue)
  {
    ghost var v, lost, n := b.State(), TargetLost(entities, b.targetId), NearestOf(Enemies, b.side, b.pos, entities);
    AutoQueue(b, ledger, env);
    assert b.State() == v && TargetLost(entities, b.targetId) == lost && NearestOf(Enemies, b.side, b.pos, entities) == n;
    ghost var production, gold := ProductionOf(b), ledger.gold;
    RetargetTower(b, entities);
    assert ProductionOf(b) == production && ledger.gold == gold;
  }

  // ---------------------------------------------------------------------
  // Upgrades
  // ---------------------------------------------------------------------

  /** The fields an upgrade can change. */
  datatype Grade = Grade(
    level: int, maxHealth: real, health: real, defense: real, productionRate: real,
    goldGeneration: real, attackDamage: real, attackRange: real, attackSpeed: real,
    unitTypes: seq<UnitTemplate>)

  function GradeOf(b: Entity): Grade
    reads b
  {
    Grade(b.level, b.maxHealth, b.health, b.defense, b.productionRate, b.goldGeneration,
          b.attackDamage, b.attackRange, b.attackSpeed, b.unitTypes)
  }

  /** upgradeOptions[level - 1], absent outside the list. */
  function OptionAt(options: seq<UpgradeOption>, level: int): (r: Option<UpgradeOption>)
    ensures r.Some? <==> 1 <= level <= |options|
    ensures r.Some? ==> r.value == options[level - 1]
  {
    if 1 <= level <= |options| then Some(options[level - 1]) else None
  }

  /** A bonus the option leaves out (zero) leaves its field alone, which is the same as
      adding it. */
  function Bonus(x: real, bonus: real): (r: real)
    ensures r == x + bonus
  {
    if bonus != 0.0 then x + bonus else x
  }

  /** The effect of a paid upgrade: one more level, each bonus added to its field
      (healthBonus to both health and maxHealth), the new unit types appended. Skipping an
      absent bonus is the same as adding zero, so every field moves by exactly its bonus. */
  function Upgraded(g: Grade, o: UpgradeOption): (r: Grade)
    ensures r.level == g.level + 1
    ensures r.maxHealth == g.maxHealth + o.healthBonus && r.health == g.health + o.healthBonus
    ensures r.defense == g.defense + o.defenseBonus && r.productionRate == g.productionRate + o.productionRateBonus
    ensures r.goldGeneration == g.goldGeneration + o.goldGenerationBonus
    ensures r.attackDamage == g.attackDamage + o.attackDamageBonus && r.attackRange == g.attackRange + o.attackRangeBonus
    ensures r.attackSpeed == g.attackSpeed + o.attackSpeedBonus
    ensures r.unitTypes == g.unitTypes + o.newUnitTypes
  {
    Grade(g.level + 1, Bonus(g.maxHealth, o.healthBonus), Bonus(g.health, o.healthBonus),
          Bonus(g.defense, o.defenseBonus), Bonus(g.productionRate, o.productionRateBonus),
          Bonus(g.goldGeneration, o.goldGenerationBonus), Bonus(g.attackDamage, o.attackDamageBonus),
          Bonus(g.attackRange, o.attackRangeBonus), Bonus(g.attackSpeed, o.attackSpeedBonus),
          g.unitTypes + o.newUnitTypes)
  }

  /** The checks of upgrade(): below maxLevel, an option at index level - 1, and gold for it.
      The option to apply when they pass. */
  function UpgradeChoice(level: int, maxLevel: int, options: seq<UpgradeOption>, gold: real): (r: Option<UpgradeOption>)
    ensures r.Some? <==> level < maxLevel && OptionAt(options, level).Some? && gold >= OptionAt(options, level).value.cost
    ensures r.Some? ==> r == OptionAt(options, level)
  {
    if level >= maxLevel then None
    else
      var o := OptionAt(options, level);
      if o.None? then None
      else if gold < o.value.cost then None
      else o
  }

  /** The stat changes of a paid upgrade, each applied only when its bonus is present. */
  method ApplyUpgrade(b: Entity, o: UpgradeOption)
    modifies b`level, b`maxHealth, b`health, b`defense, b`productionRate, b`goldGeneration,
             b`attackDamage, b`attackRange, b`attackSpeed, b`unitTypes
    ensures GradeOf(b) == Upgraded(old(GradeOf(b)), o)
  {
    b.level := b.level + 1;
    b.maxHealth := Bonus(b.maxHealth, o.healthBonus);
    b.health := Bonus(b.health, o.healthBonus);
    b.defense := Bonus(b.defense, o.defenseBonus);
    b.productionRate := Bonus(b.productionRate, o.productionRateBonus);
    b.goldGeneration := Bonus(b.goldGeneration, o.goldGenerationBonus);
    b.attackDamage := Bonus(b.attackDamage, o.attackDamageBonus);
    b.attackRange := Bonus(b.attackRange, o.attackRangeBonus);
    b.attackSpeed := Bonus(b.attackSpeed, o.attackSpeedBonus);
    b.unitTypes := b.unitTypes + o.newUnitTypes;
  }

  /** upgrade(gameState) */
  method Upgrade(b: Entity, ledger: Ledger) returns (ok: bool)
    modifies b`level, b`maxHealth, b`health, b`defense, b`productionRate, b`goldGeneration,
             b`attackDamage, b`attackRange, b`attackSpeed, b`unitTypes, ledger
    ensures var c := UpgradeChoice(old(b.level), b.maxLevel, b.upgradeOptions, old(ledger.GetGold(b.side)));
            (ok <==> c.Some?) &&
            (ok ==> GradeOf(b) == Upgraded(old(GradeOf(b)), c.value) &&
                    ledger.gold == Credit(old(ledger.gold), b.side, -c.value.cost)) &&
            (!ok ==> GradeOf(b) == old(GradeOf(b)) && ledger.gold == old(ledger.gold))
  {
    if b.level >= b.maxLevel {
      return false;
    }
    if !(1 <= b.level <= |b.upgradeOptions|) {
      return false;
    }
    var o := b.upgradeOptions[b.level - 1];
    if ledger.GetGold(b.side) < o.cost {
      return false;
    }
    var _ := ledger.AddGold(b.side, -o.cost);
    ApplyUpgrade(b, o);
    return true;
  }

  /** `n` upgrade attempts in a row on one side's gold: the final grade and balance. */
  function UpgradeMany(g: Grade, maxLevel: int, options: seq<UpgradeOption>, gold: real, n: nat): (r: (Grade, real))
    decreases n
  {
    if n == 0 then (g, gold)
    else match UpgradeChoice(g.level, maxLevel, options, gold)
      case None => (g, gold)
      case Some(o) => UpgradeMany(Upgraded(g, o), maxLevel, options, gold - o.cost, n - 1)
  }

  /** However many times upgrade is called, the level never passes maxLevel, never passes
      one beyond the last listed option, and the balance stays non-negative. */
  lemma {:induction false} UpgradesAreBounded(g: Grade, maxLevel: int, options: seq<UpgradeOption>, gold: real, n: nat)
    requires g.level <= maxLevel && gold >= 0.0
    ensures var r := UpgradeMany(g, maxLevel, options, gold, n);
            g.level <= r.0.level <= maxLevel && r.0.level <= Max(g.level as real, (|options| + 1) as real).Floor &&
            r.0.level - g.level <= n && r.1 >= 0.0
    decreases n
  {
    if n > 0 {
      var c := UpgradeChoice(g.level, maxLevel, options, gold);
      if c.Some? {
        var o := c.value;
        var g' := Upgraded(g, o);
        UpgradesAreBounded(g', maxLevel, options, gold - o.cost, n - 1);
        var r := UpgradeMany(g', maxLevel, options, gold - o.cost, n - 1);
        assert g'.level <= |options| + 1;
        assert r.0.level <= Max(g'.level as real, (|options| + 1) as real).Floor;
      }
    }
  }

  /** A fresh base with 300 gold upgrades once to level 2 and spends it all; the level-3
      upgrade (500) is then out of reach. */
  lemma BaseUpgradeFrom300(g: Grade, options: seq<UpgradeOption>)
    requires g.level == 1 && |options| == 2 && options[0].cost == 300.0 && options[1].cost == 500.0
    ensures var r := UpgradeMany(g, 3, options, 300.0, 2); r.0.level == 2 && r.1 == 0.0
  {
    var g' := Upgraded(g, options[0]);
    assert UpgradeChoice(g.level, 3, options, 300.0) == Some(options[0]);
    assert UpgradeChoice(g'.level, 3, options, 0.0).None?;
  }

  // ---------------------------------------------------------------------
  // The building's tick
  // ---------------------------------------------------------------------

  /** What the base autopilot queues after the production step: ChooseUnit's pick, while
      fewer than two items wait. */
  function AutoPick(isBase: bool, queue: seq<UnitTemplate>, ts: seq<UnitTemplate>, gold: real, side: int, roll: real): Option<UnitTemplate> {
    if isBase && |queue| < 2 then ChooseUnit(ts, gold, side, roll) else None
  }

  /** A queued pick joins the back of the queue. */
  function Queued(p: Production, c: Option<UnitTemplate>): Production {
    if c.Some? then p.(queue := p.queue + [c.value]) else p
  }

  /** A queued pick is paid for by the side that queues it. */
  function Charged(gold: map<int, real>, side: int, c: Option<UnitTemplate>): map<int, real> {
    if c.Some? then Credit(gold, side, -c.value.cost) else gold
  }

  /** The ledger after the gold step of update(). */
  function Paid(gold: map<int, real>, side: int, goldGeneration: real, last: real, now: real): map<int, real> {
    if PaysOut(goldGeneration, last, now) then Credit(gold, side, Payout(goldGeneration, last, now)) else gold
  }

  /** lastGoldTime after the gold step of update(). */
  function PaidAt(goldGeneration: real, last: real, now: real): real {
    if PaysOut(goldGeneration, last, now) then now else last
  }

  /** The queue, the ledger and the finished item after one production step. */
  datatype Works = Works(production: Production, gold: map<int, real>, done: Option<UnitTemplate>)

  /** The production step and the base autopilot of update(), on values: the queue
      advances, and then a base on autopilot with fewer than two items left queues
      ChooseUnit's pick from the side's balance and pays for it. */
  function Tick(p: Production, gold: map<int, real>, rate: real, dt: real, autopilot: bool, isBase: bool,
                ts: seq<UnitTemplate>, side: int, roll: real): Works {
    var s := Produce(p, rate, dt, autopilot);
    var c := if autopilot then AutoPick(isBase, s.next.queue, ts, Balance(gold, side), side, roll) else None;
    Works(Queued(s.next, c), Charged(gold, side, c), s.done)
  }

  /** Queueing at most one pick after a production step: the finished item and the new
      queue are the old queue followed by the pick, if there is one. */
  lemma QueuedFifo(p: Production, s: Step, c: Option<UnitTemplate>)
    requires (if s.done.Some? then [s.done.value] else []) + s.next.queue == p.queue
    ensures var q := Queued(s.next, c).queue;
            var added := |q| + (if s.done.Some? then 1 else 0) - |p.queue|;
            added == (if c.Some? then 1 else 0) &&
            (if s.done.Some? then [s.done.value] else []) + q == p.queue + q[|q| - added..] &&
            (c.Some? ==> q[|q| - 1] == c.value)
  {
    var q := Queued(s.next, c).queue;
    var finished := if s.done.Some? then [s.done.value] else [];
    if c.Some? {
      assert q == s.next.queue + [c.value] && q[|q| - 1..] == [c.value];
      assert finished + q == p.queue + [c.value];
    } else {
      assert q == s.next.queue && q[|q|..] == [];
    }
  }

  /** FIFO within one tick: the item finished, followed by what is queued afterwards, is
      the old queue followed by at most one new pick, and that pick is one of the
      building's unit types (only bases queue). */
  lemma TickIsFifo(p: Production, gold: map<int, real>, rate: real, dt: real, autopilot: bool, isBase: bool,
                   ts: seq<UnitTemplate>, side: int, roll: real)
    ensures var w := Tick(p, gold, rate, dt, autopilot, isBase, ts, side, roll);
            var added := |w.production.queue| + (if w.done.Some? then 1 else 0) - |p.queue|;
            (0 <= added <= 1) &&
            (if w.done.Some? then [w.done.value] else []) + w.production.queue == p.queue + w.production.queue[|w.production.queue| - added..] &&
            (added == 1 ==> isBase && autopilot && w.production.queue[|w.production.queue| - 1] in ts)
  {
    var s := Produce(p, rate, dt, autopilot);
    var c := if autopilot then AutoPick(isBase, s.next.queue, ts, Balance(gold, side), side, roll) else None;
    assert (if s.done.Some? then [s.done.value] else []) + s.next.queue == p.queue;
    QueuedFifo(p, s, c);
    if c.Some? {
      ChooseUnitSpec(ts, Balance(gold, side), side, roll);
    }
  }

  /** A tick never overdraws a side: the autopilot only queues what the balance covers. */
  lemma TickNeverOverdraws(p: Production, gold: map<int, real>, rate: real, dt: real, autopilot: bool, isBase: bool,
                           ts: seq<UnitTemplate>, side: int, roll: real)
    requires Balance(gold, side) >= 0.0
    ensures var w := Tick(p, gold, rate, dt, autopilot, isBase, ts, side, roll);
            Balance(w.gold, side) >= 0.0 && w.gold.Keys == gold.Keys
  {
    var s := Produce(p, rate, dt, autopilot);
    ChooseUnitSpec(ts, Balance(gold, side), side, roll);
  }

  /** The tower branch of runBuildingAutopilot on values: an armed tower on autopilot whose
      target is lost takes the nearest enemy, if there is one. */
  function TowerStep(v: Vitals, guarding: bool, lost: bool, nearest: Option<Id>): Vitals {
    if guarding && lost && nearest.Some? then Targeted(v, nearest.value) else v
  }

  /** Whether the tower branch runs: an armed tower on autopilot. */
  predicate Guarding(b: Entity)
    reads b`autopilot, b`attackDamage, b`attackRange
  {
    b.autopilot && b.buildingType == "tower" && b.attackDamage > 0.0 && b.attackRange > 0.0
  }

  /** The production half of update(): the queue advances, and on autopilot the building
      retargets and may queue a unit. */
  method ProductionTick(b: Entity, dt: real, entities: seq<Entity>, ledger: Ledger, id: Id, env: Env)
    returns (spawned: Option<Entity>)
    modifies b`targetId, b`targetPosition, b`productionQueue, b`productionProgress, ledger
    ensures spawned.Some? ==> fresh(spawned.value) && spawned.value.side == b.side && spawned.value.id == id
    ensures old(ProductionValid(ProductionOf(b)) && PositiveCosts(b.productionQueue)) && PositiveCosts(b.unitTypes) &&
            b.productionRate >= 0.0 && dt >= 0.0 ==>
              ProductionValid(ProductionOf(b)) && PositiveCosts(b.productionQueue)
    ensures var w := Tick(old(ProductionOf(b)), old(ledger.gold), b.productionRate, dt, b.autopilot, b.isBase,
                          b.unitTypes, b.side, env.roll(b.id, FallbackUnit));
            ProductionOf(b) == w.production && ledger.gold == w.gold && Delivers(spawned, w.done)
    ensures b.State() == TowerStep(old(b.State()), Guarding(b), old(TargetLost(entities, b.targetId)),
                                   old(NearestOf(Enemies, b.side, b.pos, entities)))
  {
    spawned := AdvanceProduction(b, dt, id, env);
    Autopilot(b, entities, ledger, env);
  }

  /** The autopilot step of update(): runBuildingAutopilot on a building on autopilot. */
  method Autopilot(b: Entity, entities: seq<Entity>, ledger: Ledger, env: Env)
    modifies b`productionQueue, b`targetId, b`targetPosition, ledger
    ensures var c := if b.autopilot then AutoPick(b.isBase, old(b.productionQueue), b.unitTypes, old(ledger.GetGold(b.side)), b.side, env.roll(b.id, FallbackUnit)) else None;
            ProductionOf(b) == Queued(old(ProductionOf(b)), c) && ledger.gold == Charged(old(ledger.gold), b.side, c)
    ensures b.State() == TowerStep(old(b.State()), Guarding(b), old(TargetLost(entities, b.targetId)),
                                   old(NearestOf(Enemies, b.side, b.pos, entities)))
    ensures old(ProductionValid(ProductionOf(b)) && PositiveCosts(b.productionQueue)) && PositiveCosts(b.unitTypes) ==>
              ProductionValid(ProductionOf(b)) && PositiveCosts(b.productionQueue)
  {
    if b.autopilot {
      RunBuildingAutopilot(b, entities, ledger, env);
    }
  }

  /** update(deltaTime, gameState): the entity step, the gold payout, the production step,
      then the building autopilot. Returns the projectile fired and the unit finished, if any;
      `id` is the fresh id a finished unit gets. */
  method Update(b: Entity, dt: real, now: real, entities: seq<Entity>, ledger: Ledger, id: Id, env: Env)
    returns (shot: Option<Projectile>, spawned: Option<Entity>)
    modifies b`mana, b`targetId, b`targetPosition, b`lastAttackTime, b`lastGoldTime,
             b`productionQueue, b`productionProgress, ledger
    ensures shot == Fired(old(b.AsShooter()), old(TargetView(entities, b.targetId)), now, env)
    ensures shot.Some? ==> shot.value.healing == 0.0 && shot.value.sourceId == b.id && b.lastAttackTime == now
    ensures shot.None? ==> b.lastAttackTime == old(b.lastAttackTime)
    ensures b.mana == Regenerated(old(b.mana), b.maxMana, dt)
    ensures b.health == old(b.health) && b.alive == old(b.alive)
    ensures spawned.Some? ==> fresh(spawned.value) && spawned.value.side == b.side && spawned.value.id == id
    ensures old(ProductionValid(ProductionOf(b)) && PositiveCosts(b.productionQueue)) && PositiveCosts(b.unitTypes) &&
            b.productionRate >= 0.0 && dt >= 0.0 ==>
              ProductionValid(ProductionOf(b)) && PositiveCosts(b.productionQueue)
    ensures b.lastGoldTime == PaidAt(b.goldGeneration, old(b.lastGoldTime), now)
    ensures var w := Tick(old(ProductionOf(b)), Paid(old(ledger.gold), b.side, b.goldGeneration, old(b.lastGoldTime), now),
                          b.productionRate, dt, b.autopilot, b.isBase, b.unitTypes, b.side, env.roll(b.id, FallbackUnit));
            ProductionOf(b) == w.production && ledger.gold == w.gold && Delivers(spawned, w.done)
    ensures var n := old(NearestOf(Enemies, b.side, b.pos, entities));
            var v := UpdatedTargets(old(b.State()), old(b.AsShooter()), old(TargetView(entities, b.targetId)), n, now, env);
            b.State() == TowerStep(v, Guarding(b), old(TargetLost(entities, v.targetId)), n)
  {
    ghost var p0, g0, t0 := ProductionOf(b), ledger.gold, b.lastGoldTime;
    ghost var n := NearestOf(Enemies, b.side, b.pos, entities);
    shot := b.Update(dt, now, entities, env);
    ghost var v := b.State();
    assert ProductionOf(b) == p0 && ledger.gold == g0 && b.lastGoldTime == t0;
    assert TargetLost(entities, v.targetId) == old(TargetLost(entities, v.targetId)) && NearestOf(Enemies, b.side, b.pos, entities) == n;
    spawned := Economy(b, dt, now, entities, ledger, id, env);
  }

  /** What update() does after the entity step: the gold payout, then the production and
      autopilot step. */
  method Economy(b: Entity, dt: real, now: real, entities: seq<Entity>, ledger: Ledger, id: Id, env: Env)
    returns (spawned: Option<Entity>)
    modifies b`targetId, b`targetPosition, b`lastGoldTime, b`productionQueue, b`productionProgress, ledger
    ensures b.mana == old(b.mana) && b.lastAttackTime == old(b.lastAttackTime) && b.health == old(b.health) && b.alive == old(b.alive)
    ensures spawned.Some? ==> fresh(spawned.value) && spawned.value.side == b.side && spawned.value.id == id
    ensures old(ProductionValid(ProductionOf(b)) && PositiveCosts(b.productionQueue)) && PositiveCosts(b.unitTypes) &&
            b.productionRate >= 0.0 && dt >= 0.0 ==>
              ProductionValid(ProductionOf(b)) && PositiveCosts(b.productionQueue)
    ensures b.lastGoldTime == PaidAt(b.goldGeneration, old(b.lastGoldTime), now)
    ensures var w := Tick(old(ProductionOf(b)), Paid(old(ledger.gold), b.side, b.goldGeneration, old(b.lastGoldTime), now),
                          b.productionRate, dt, b.autopilot, b.isBase, b.unitTypes, b.side, env.roll(b.id, FallbackUnit));
            ProductionOf(b) == w.production && ledger.gold == w.gold && Delivers(spawned, w.done)
    ensures b.State() == TowerStep(old(b.State()), Guarding(b), old(TargetLost(entities, b.targetId)),
                                   old(NearestOf(Enemies, b.side, b.pos, entities)))
  {
    ghost var p0, v0 := ProductionOf(b), b.State();
    GenerateGold(b, ledger, now);
    assert ProductionOf(b) == p0 && b.State() == v0;
    spawned := ProductionTick(b, dt, entities, ledger, id, env);
  }
}
