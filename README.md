# Colonists auto-battler: a verified model of the simulation core

This project models the deterministic core of a two-sided real-time auto-battler. Green is
side 0 and red is side 1. Each side has a base, a gold mine and a tower, and the buildings
produce units that fight on their own. The model covers:

- the per-tick update of entities, units and buildings;
- projectile flight bookkeeping and the collision scan;
- the gold ledger, the production queue and upgrades;
- effect decay;
- the game-over rule.

It is written in Dafny 4.11. Each source object that changes its fields in place is a
Dafny `class` whose methods carry `modifies` clauses:

- the game, `World.Game`;
- every entity, unit and building, `Entities.Entity`;
- the gold ledger, `Resources.Ledger`.

Each class method is proved against pure functions on value records. Lemmas prove
what the source promises about those functions.

Modules, one file each:

| module | file | source |
|---|---|---|
| `Utils` | utils.dfy | js/utils.js |
| `Constants` | constants.dfy | the constant tables of js/constants.js |
| `Resources` | resources.dfy | the `resources` list of js/game.js |
| `Entities` | entity.dfy | js/entity.js |
| `Units` | unit.dfy | js/unit.js |
| `Buildings` | building.dfy | js/building.js |
| `Catalog` | catalog.dfy | the unit/building tables and starting layout of js/game.js |
| `World` | game.dfy | js/game.js |

## How the model is put together

- **One entity class.** JavaScript's `Unit` and `Building` extend `Entity`. Here one class
  `Entities.Entity` carries all their fields plus a `kind` tag.
  - The `Unit` and `Building` constructors are named constructors of that class.
  - Unit behaviour lives in module `Units` and building behaviour in module `Buildings`.
    Both are methods that take the entity as an argument.
- **Positions are fixed.** Movement is not modelled, so `id`, position, `radius` and
  `side` never change.
- **Geometry and randomness are parameters.** Trigonometry, `sqrt` and `Math.random` are
  an `Env` value. It holds total functions for headings and offsets, and a roll function
  keyed by entity id and purpose. Distances are compared squared.
- **Ids are tokens.** They are natural numbers handed out by the game, not random strings.
  Every entity the game holds has a distinct id, which is the invariant `UniqueIds`.
- **The shot is a function of the old state.** `Entities.Fired` is the projectile an
  update fires: `attack(target)` when the attack gate's verdict is Fire, nothing
  otherwise. `Entity.Engage`, `Entity.Steer`, `Entity.Update`, `Units.Update`,
  `Buildings.Update` and the game's building step each return exactly that shot, reckoned
  on the state before the call, and move `lastAttackTime` to now exactly when it fires.
- **Timers are explicit steps.** The two `setTimeout` callbacks are modelled as follows:
  - Death removal: `die` records `removalDue = now + 1000`. `World.Game.FireRemovalTimer`
    is the removal step.
  - Buff reversal: `useAbility` returns a `BuffTimer` record. `Units.RevertBuff` undoes
    the buff.

Behaviours of the code that the model reproduces as written:

- **Collisions hit several entities.** One collision check can hit up to `penetration + 1`
  entities. The scan goes on after a hit as long as penetration is left, and
  `World.SweepCount` proves the exact count.
- **A double splice drops a neighbour.** A projectile can be spent by a collision and
  also be out of bounds. Then `splice(i, 1)` runs twice at the same index, and the second
  call removes the projectile after it (`World.DoubleSplice`).
- **The dodge roll.** The code gives up when `random() > intelligence`. So a unit tries
  to dodge with probability equal to its intelligence: 0.7 on autopilot, 1 under manual
  control (`Units.AttemptChanceIsIntelligence`). These are the rates the comment
  describes, so nothing is inverted.
- **A killed manual unit retargets.** A manual-control entity killed by an attacker ends
  dead but targeting the attacker (`Entities.DeadEntityRetargets`).
- **A dodge can leave both targets set.** When a dodge ends, the saved target comes back
  and the dodge point is not cleared (`Units.DodgeRestoresTarget`).
- **A chase leaves both targets set.** When an armed entity is out of range, the attack
  gate keeps its target and sets a stop point beside it (`Entities.ChaseSetsBothTargets`).
  So "at most one target" (`Entities.Exclusive`) is not an invariant of the code.
- **A healer can pick itself.** `findNearestInjuredAlly` can return the unit itself
  (`Units.InjuredSelfIsPicked`).
- **The first gold payout is huge.** `lastGoldTime` starts at 0, so the first payout
  counts every second since 1970 (`Buildings.FirstPayoutIsEnormous`).
- **A zero x restarts a projectile.** A projectile whose current x is exactly 0 falls
  back to its launch point, because the test is `!currentX` (`World.ZeroXRestarts`).
- **Any nonzero side is red.** `checkGameOver` counts every side other than 0 as red.
- **Reset keeps projectiles.** `resetGame` restores 500 gold per side and keeps the
  projectile list.
- **The loop never stops.** `gameLoop` keeps updating after the game is over; only the
  pause flag stops it. `gameOver` is set only by `checkGameOver` and cleared only by
  `resetGame`.
- **Upgrade bonuses add zero when absent.** A bonus an upgrade leaves out counts as 0
  (`v || 0`), so adding it changes nothing.
- **Empty values count as absent.** Multipliers use `v || d`, so a zero value falls back
  to the default. The healer has no damage multiplier, so it uses 1.0.

## Model

| member | source | states |
|---|---|---|
| Utils.Dist2 | js/utils.js:9-11 | the squared distance is never negative |
| Utils.Clamp | js/utils.js:46-48 | with lo <= hi the result lies in [lo, hi], and it is v itself when v is already in range |
| Utils.PointInRect | js/utils.js:14-17 | a point inside the rectangle implies a non-negative size and coordinates that clamping into it leaves unchanged |
| Utils.ClampIdempotent | js/utils.js:46-48 | clamping twice is clamping once |
| Utils.PointInRectIsClampFixpoint | js/utils.js:14-17 | a point is in the rectangle iff clamping both coordinates into it leaves it unchanged |
| Utils.PointInRectCorners | js/utils.js:14-17 | with a non-negative size, all four corners are inside (edges inclusive) |
| Utils.RandomInt | js/utils.js:20-22 | for min <= max and a roll in [0, 1), the result is an integer in [min, max] |
| Utils.ScaledRollBounds | js/utils.js:20-22 | the floor of roll * (max - min + 1) lies in [0, max - min] |
| Utils.RandomPosition | js/utils.js:25-30 | both coordinates lie within the padding margins of the bounds |
| Utils.Decimal | js/utils.js:41-43 | the decimal string of a natural number is all digits, at least one, and a single digit exactly for numbers below 10 |
| Utils.DecimalShort | js/utils.js:41-43 | numbers below 1000 have at most three digits |
| Utils.DecimalLong | js/utils.js:41-43 | numbers of 1000 or more have at least four digits |
| Utils.CommaAtDigits | js/utils.js:41-43 | the lookahead `\B(?=(\d{3})+(?!\d))` matches exactly where a multiple of three digits follows and a digit precedes |
| Utils.CommasEqualGroup | js/utils.js:41-43 | the global regex replacement equals inserting a comma before every full group of three digits from the right |
| Utils.FormatNumberIsGrouping | js/utils.js:41-43 | formatNumber of an integer is its sign plus the grouped digits |
| Utils.StripGroup | js/utils.js:41-43 | deleting the commas from grouped digits gives back the digits |
| Utils.GroupShape | js/utils.js:41-43 | in grouped digits the leading group has 1 to 3 digits and every later group exactly 3 |
| Utils.FormatNumber | js/utils.js:41-43 | the formatted string is at least as long as toString, starts with the same character, and starts with a minus sign exactly for negative numbers |
| Utils.FormatNumberStripsToString | js/utils.js:41-43 | deleting the commas from formatNumber(n) gives back n.toString(), sign included |
| Utils.FormatNumberGroups | js/utils.js:41-43 | formatNumber(n) of a natural number is well grouped, unchanged below 1000 and holds a comma from 1000 on |
| Utils.SideColor | js/utils.js:76-82 | side 1 gets red and every other side, including unknown ones, gets green |
| Resources.CreditFrame | js/game.js:806-813 | crediting one side changes no other side's balance |
| Resources.CreditBalance | js/game.js:806-818 | after crediting a known side its balance rises by exactly the amount; an unknown side gets nothing |
| Resources.CreditInverse | js/game.js:806-813 | crediting an amount and then its negation restores the ledger |
| Resources.Balance | js/game.js:815-818 | the side's gold when the side is listed, 0 otherwise |
| Resources.Credit | js/game.js:806-813 | the same sides stay listed, and the side's balance rises by the amount exactly when it is listed |
| Resources.Ledger.constructor | js/game.js:10-13 | both sides start with 500 gold |
| Resources.Ledger.GetGold | js/game.js:815-818 | the balance of a known side, 0 for an unknown one |
| Resources.Ledger.AddGold | js/game.js:806-813 | true and the credited ledger for a known side; false and no change for an unknown one |
| Resources.Ledger.Reset | js/game.js:744-747 | both sides back to 500 gold |
| Entities.Defaults | js/entity.js:3-32 | radius 16, maxHealth 100 and attackSpeed 1 unless given; health starts at maxHealth and mana at maxMana unless given |
| Entities.Targeted | js/entity.js:253-256 | setTarget sets the target id and clears the target position |
| Entities.Moving | js/entity.js:258-261 | setTargetPosition sets the position and clears the target id |
| Entities.LastCommandWins | js/entity.js:253-261 | in either order the last command decides and the other target is cleared |
| Entities.Toggled | js/entity.js:263-270 | the flag flips; switching on clears both targets, switching off keeps them |
| Entities.ToggleTwice | js/entity.js:263-270 | toggling twice restores the flag |
| Entities.Died | js/entity.js:207-224 | dead, both targets cleared, removal due one second later |
| Entities.Damaged | js/entity.js:184-205 | amount >= health gives health 0 and death; a smaller amount lowers health by exactly that; a manual-control survivor or victim targets the attacker |
| Entities.Healed | js/game.js:445 | health becomes min(maxHealth, health + amount) |
| Entities.DamageKeepsConsistent | js/entity.js:184-205 | non-negative damage keeps health in [0, maxHealth] and alive in step with health |
| Entities.HealKeepsConsistent | js/game.js:445 | non-negative healing of a living entity keeps it consistent |
| Entities.DeadEntityRetargets | js/entity.js:196-204 | a manual-control entity killed by an attacker is dead yet targets that attacker |
| Entities.Regenerated | js/entity.js:36-38 | with maxMana > 0 the result never exceeds maxMana and, for dt >= 0, never falls below the old mana; without maxMana mana stays |
| Entities.AttackReady | js/entity.js:96-97 | a ready attack has a non-zero attackSpeed, and with a positive attackSpeed the clock has moved on since the last attack |
| Entities.JsRound | js/entity.js:132-133 | Math.round: the integer within half of x, halves rounded up |
| Entities.Damage | js/entity.js:132-133 | the nearest integer to max(1, attack - defense) * multiplier, and at least 1 when the multiplier is at least 0.5 |
| Entities.Attack | js/entity.js:121-182 | a projectile iff the target is alive, aimed at it, from the shooter's side and kind, not yet moved; a healer shooting a same-side target makes one healing round(attackDamage) with no damage, every other shot does Damage (at least 1) and heals nothing |
| Entities.GateOf | js/entity.js:89-113 | an absent, dead or same-side target is cleared; in range and off cooldown it fires; in range on cooldown it holds; out of range it chases |
| Entities.GateFireNeverHeals | js/entity.js:90-112 | a shot through the gate is never a healing projectile |
| Entities.FiredExactlyOnFire | js/entity.js:89-113 | update() fires a projectile exactly when the gate verdict is Fire, and then it is attack(target) |
| Entities.FiredOnlyWhenReady | js/entity.js:89-113 | a shot is fired only at a living enemy within attack range once the cooldown has passed; it heals nothing, does at least 1 damage and is aimed at that target from this entity |
| Entities.AttackSees | js/entity.js:121-182 | attack() reads of its target only the id, side, position, defense and liveness |
| Entities.IndexOf | js/game.js:760 | the index of the first entity with the id, or none when no entity has it |
| Entities.FindById | js/game.js:773-775 | the first entity with the id, or none exactly when no entity has it |
| Entities.TargetView | js/entity.js:91 | the view of the entity the id names, when there is one |
| Entities.Views | js/game.js:777-787 | one view per entity, in list order |
| Entities.ViewsPointwise | js/game.js:777-787 | lists whose members have the same views have the same view lists |
| Entities.InRadius | js/game.js:777-781 | exactly the living entities within r of the point, in list order |
| Entities.AtPoint | js/game.js:783-786 | exactly the living entities whose circle contains the point, in list order |
| Entities.Nearest | js/entity.js:236-251 | an index it returns is in range and names a candidate |
| Entities.NearestSpec | js/entity.js:236-251 | the chosen candidate is at least as close as every candidate, and strictly closer than every earlier one (first on ties) |
| Entities.NearestUnique | js/entity.js:236-251 | any index that meets the three conditions is the one chosen |
| Entities.FindNearest | js/entity.js:236-251 | the scan loop returns Nearest |
| Entities.NearestAgrees | js/entity.js:236-251 | two lists that agree on candidacy, positions and ids give the same scan result |
| Entities.NearestOfViews | js/entity.js:236-251 | the scan over what a step can change (health and life) gives the same id as the scan over the full views |
| Entities.UpdateMovesOnlyTargets | js/entity.js:84-118 | the targets are all update() moves: health, life, autopilot and a pending removal stay, and consistency is kept |
| Entities.UpdateDropsLostTarget | js/entity.js:90-118 | an armed entity with an absent, dead or same-side target loses it: under manual control it has none; on autopilot it takes the nearest enemy, with no target point |
| Entities.UpdateKeepsLiveTarget | js/entity.js:89-118 | a living enemy target is kept through the gate and the autopilot |
| Entities.ChaseSetsBothTargets | js/entity.js:100-108 | a chase keeps the target id and sets the stop point, so both targets are set |
| Entities.AutopilotAlwaysTargets | js/entity.js:115-118 | on autopilot an armed entity without a target, with an enemy in sight, ends the tick targeting the nearest enemy |
| Entities.GateSees | js/entity.js:89-113 | the gate reads only whether the target exists, whether it lives, its side and its position |
| Entities.InitialCooldowns | js/unit.js:27-30 | one entry per ability id, every one 0 |
| Entities.UnitRange | js/unit.js:22-25 | the ATTACK_RANGES entry for a listed unit type, the template's range otherwise |
| Entities.BuildingRange | js/building.js:25-28 | 300 for a tower, the template's range otherwise |
| Entities.Entity.constructor | js/entity.js:3-32 | an alive, untargeted, unselected entity whose stats are Defaults of its configuration |
| Entities.Entity.Unit | js/unit.js:3-62 | a unit with the template's stats, the range override, zero cooldowns and no dodge |
| Entities.Entity.Building | js/building.js:3-43 | a building at level 1 of 3 with the building defaults, the tower range, an empty queue, production rate 1 unless given, lastGoldTime 0 and the template's tables |
| Entities.Entity.SetTarget | js/entity.js:253-256 | the vitals become Targeted |
| Entities.Entity.SetTargetPosition | js/entity.js:258-261 | the vitals become Moving |
| Entities.Entity.ToggleAutopilot | js/entity.js:263-270 | the vitals become Toggled |
| Entities.Entity.Die | js/entity.js:207-224 | the vitals become Died |
| Entities.Entity.TakeDamage | js/entity.js:184-205 | the vitals become Damaged |
| Entities.Entity.RegenerateMana | js/entity.js:36-38 | mana becomes Regenerated |
| Entities.Entity.Arrive | js/entity.js:84-86 | a moving entity's target position within MIN_DISTANCE is dropped; otherwise it stays |
| Entities.Entity.AttackStep | js/entity.js:89-113 | the GateOf verdict is carried out: cleared target, a shot with the clock restarted, or no change |
| Entities.Entity.FindNearestEnemy | js/entity.js:236-251 | the entity at the Nearest index of the enemy scan |
| Entities.Entity.RunAutopilot | js/entity.js:226-234 | an armed entity without a target takes the nearest enemy; otherwise nothing changes |
| Entities.Entity.Engage | js/entity.js:84-113 | the targets become the gate verdict applied after the arrival test; the shot is attack(target) exactly when the verdict is Fire and none otherwise (Fired); a shot heals nothing, does at least 1 damage and sets lastAttackTime to now; without one the clock stays |
| Entities.Entity.Steer | js/entity.js:84-118 | the targets become UpdatedTargets; the shot is Fired of the old state, and the attack clock moves to now exactly when there is one |
| Entities.Entity.Pursue | js/entity.js:115-118 | on autopilot an armed entity without a target takes the nearest enemy; otherwise the targets stay |
| Entities.Entity.Update | js/entity.js:34-119 | mana is Regenerated, health and alive unchanged; the targets become UpdatedTargets (arrival, the gate verdict, then the autopilot's nearest enemy); the shot is Fired of the old state: attack(target) exactly when the gate says Fire; a shot comes from this entity, heals nothing, does at least 1 damage and sets the attack clock to now; without a shot the clock stays |
| Units.Decayed | js/unit.js:66-72 | every cooldown c becomes max(0, c - dt): never negative, zero stays zero, same keys |
| Units.DecayedTwice | js/unit.js:68-72 | two decays by a and b are one decay by a + b |
| Units.DecayCooldowns | js/unit.js:66-72 | the cooldown loop leaves Decayed(cooldowns, dt) |
| Units.Started | js/unit.js:154-165 | the target is saved and cleared, the dodge point set, dodging for DODGE_DURATION |
| Units.Ticked | js/unit.js:79-91 | the clock falls by dt; at zero the dodge ends, the clock is 0 and a saved target is restored |
| Units.DodgeRestoresTarget | js/unit.js:80-91 | a unit that dodges while attacking gets its target back with the dodge point still set |
| Units.NotDodgingStays | js/unit.js:79-91 | ticks change nothing outside a dodge |
| Units.DodgeEnds | js/unit.js:79-91 | once the ticks add up to the time left, the dodge is over |
| Units.StartDodge | js/unit.js:154-165 | the unit's dodge state becomes Started |
| Units.UpdateDodge | js/unit.js:79-91 | the unit's dodge state becomes Ticked |
| Units.Threat | js/unit.js:112-150 | a threat has a current point other than the unit's position, so the dodge has a direction |
| Units.FindThreat | js/unit.js:112-150 | the first projectile in list order that is hostile, non-healing, aimed at the unit or at no one, and due within the reaction window |
| Units.Attempts | js/unit.js:106-109 | a unit tries to dodge iff the roll does not exceed its intelligence |
| Units.AttemptChanceIsIntelligence | js/unit.js:106-109 | on autopilot the tries are exactly the rolls <= 0.7; under manual control every roll tries |
| Units.CheckForIncomingProjectiles | js/unit.js:104-152 | a dodge starts iff the unit tries and FirstThreat finds a projectile; otherwise nothing changes |
| Units.FirstThreat | js/unit.js:112-150 | none iff no projectile is a threat, else the first threat's index |
| Units.FirstThreatIs | js/unit.js:112-150 | the first-threat conditions single out one index |
| Units.FindNearestInjuredAlly | js/unit.js:187-202 | the entity at the Nearest index of the scan for living allies below 80% health, the unit itself included |
| Units.InjuredSelfIsPicked | js/unit.js:191-192 | an injured unit alone on its side picks itself |
| Units.RunSupportBehavior | js/unit.js:167-176 | with no target, the nearest injured ally becomes the target when there is one |
| Units.RunUtilityBehavior | js/unit.js:178-185 | with no target of either kind, a 1% roll sends the unit to a random point; otherwise nothing changes |
| Units.Stop | js/unit.js:317-320 | both targets cleared |
| Units.FindAbility | js/unit.js:205-206 | the first ability with the id, or none exactly when no ability has it |
| Units.Usable | js/unit.js:204-212 | an ability is usable iff it exists, its cooldown is not running and the mana covers its cost |
| Units.Takes | js/unit.js:217-298 | heal and buff need a living same-side target, damage a living enemy, an area ability a position; an unknown kind never takes effect |
| Units.AoeEffect | js/unit.js:273-285 | enemies take the damage, allies get the healing (capped), others are unchanged |
| Units.AoeKeepsConsistent | js/unit.js:273-285 | non-negative area amounts keep a living entity consistent |
| Units.InRadiusDistinct | js/game.js:777-781 | the entities caught in a radius are distinct when the list is |
| Units.ApplyAoe | js/unit.js:273-285 | every caught entity gets AoeEffect, no other entity changes |
| Units.ApplyAbility | js/unit.js:214-298 | the effect by kind, and whether it took effect is exactly Takes; a buff adds its value to the stat (Buffed) and schedules its reversal exactly when it has a duration (BuffTimerOf); heal, damage and area abilities leave the target's stats alone, and only an area ability touches entities other than the target |
| Units.ApplyAoeAt | js/unit.js:267-287 | the area effect over InRadius of the point |
| Units.UseAbility | js/unit.js:204-311 | unusable or not taking effect: false and no change; otherwise true, mana down by the cost and the cooldown set to the ability's; a buff changes the stat by Buffed with the reversal timer BuffTimerOf, any other kind leaves the target's stats alone, and a non-area ability leaves every other entity unchanged |
| Units.Pay | js/unit.js:300-308 | a successful use pays the mana cost, when there is one, and sets the ability's cooldown |
| Units.RevertBuff | js/unit.js:246-253 | the buffed stat loses the buff's value again |
| Units.BuffThenRevert | js/unit.js:246-253 | a buff followed by its reversal leaves a present stat where it was |
| Units.Update | js/unit.js:64-102 | mana Regenerated and cooldowns Decayed; health and alive unchanged; the targets go through UpdatedTargets, then DodgeStep (dodge state included), then RoleStep with the nearest injured ally; the shot is Fired of the old state, comes from this unit, heals nothing and sets the attack clock to now; without a shot the clock stays; the dodge invariant is kept |
| Units.RunRoleBehavior | js/unit.js:93-101 | the targets become RoleStep: a support unit on autopilot takes the nearest injured ally, a utility unit may wander; off autopilot, or with another role, they stay as they are |
| Units.DodgeStep | js/unit.js:74-91 | the dodge check and the dodge clock keep the dodge invariant |
| Units.DodgingIgnoresThreats | js/unit.js:74-77 | a unit already dodging only runs its clock |
| Units.ThreatStartsDodge | js/unit.js:74-91 | a mobile unit that tries and sees a threat saves its target and heads for the dodge point, still dodging after a tick shorter than the dodge |
| Units.NoThreatNoDodge | js/unit.js:74-91 | without a threat, or when the roll says no, the dodge state of a unit not dodging stays |
| Units.RoleStep | js/unit.js:93-101 | only the targets change; off autopilot, or with a role other than support and utility, nothing changes |
| Units.SupportFindsInjured | js/unit.js:167-176 | an untargeted support unit on autopilot with an injured ally in sight ends aiming at the nearest one, with no target point |
| Units.WanderStaysInField | js/unit.js:178-185 | a wandering utility unit walks only to a point inside the padded field |
| Units.React | js/unit.js:66-101 | cooldowns Decayed, the dodge state DodgeStep and the targets RoleStep after the dodge |
| Units.Evade | js/unit.js:74-91 | the dodge state becomes DodgeStep and nothing but the targets and the dodge state changes |
| Buildings.PayoutBounds | js/building.js:49-58 | the payout is at least g and at most g times the elapsed seconds, and short of that by less than g |
| Buildings.WholeSecondsBounds | js/building.js:51-56 | g times the floor of the seconds is at least g, at most g times the seconds, and short of that by less than g |
| Buildings.ScaleMonotone | js/building.js:53-55 | more whole seconds never pay less |
| Buildings.FractionDiscarded | js/building.js:49-58 | two 1.5 s payouts pay 2g, one 3 s payout pays 3g: the fraction is lost |
| Buildings.FirstPayoutIsEnormous | js/building.js:19 | with lastGoldTime 0, the first payout counts every second since the epoch |
| Buildings.PaysOut | js/building.js:49-53 | a payout is due iff goldGeneration > 0 and at least 1000 ms have passed |
| Buildings.Payout | js/building.js:54 | the payout is at least goldGeneration and a whole multiple of it |
| Buildings.GenerateGold | js/building.js:49-58 | with goldGeneration g > 0 and a whole second elapsed, the side is credited Payout (g times the whole seconds) and lastGoldTime becomes now; otherwise no change (the ledger is Paid, the clock PaidAt) |
| Buildings.Produce | js/building.js:61-70 | at most one item per tick: the head is popped and progress reset to 0 once progress reaches its cost |
| Buildings.ProduceKeepsValid | js/building.js:61-70 | production keeps progress non-negative and below the head cost |
| Buildings.ProductionProgress | js/building.js:237-244 | 0 for an empty queue, else progress over the head cost, which lies in [0, 1) while valid |
| Buildings.ProductionIsFifo | js/building.js:61-70 | the finished items followed by the queue left give the original queue |
| Buildings.CompleteProduction | js/building.js:141-168 | a fresh unit of the template on the building's side at the spawn ring |
| Buildings.AdvanceProduction | js/building.js:60-70 | the production state becomes Produce's next state; a unit is spawned exactly when an item finished, and it has the finished template's type ("generic" when it names none); validity is kept |
| Buildings.Enqueue | js/building.js:125-139 | none iff gold < cost, else the balance minus the cost |
| Buildings.SuccessesAreAffordable | js/building.js:127-133 | successes never exceed attempts and never drive gold below 0 |
| Buildings.FourFromStartingGold | js/building.js:127-133 | from 500 gold at cost 120, exactly four enqueues succeed |
| Buildings.QueueProduction | js/building.js:125-139 | false and no change when gold is short; otherwise true, gold down by the cost and the template appended |
| Buildings.EnqueueKeepsValid | js/building.js:125-139 | queueing a positive-cost template keeps production valid |
| Buildings.AffordableSpec | js/building.js:85-86 | exactly the templates whose cost the gold covers |
| Buildings.Affordable | js/building.js:85-86 | the filter keeps at most the templates it is given |
| Buildings.FindType | js/building.js:95 | a found template is in the list and of the named type |
| Buildings.Preferred | js/building.js:94-100 | a pick is of one of the preferred types |
| Buildings.ChooseUnit | js/building.js:88-106 | nothing when nothing is affordable, and any pick is an affordable template |
| Buildings.FindTypeSpec | js/building.js:95 | the first template of the named type, or none exactly when there is none |
| Buildings.PreferredIn | js/building.js:94-100 | the pick comes from the searched list |
| Buildings.PreferredSpec | js/building.js:94-100 | the pick is the first preference the list can serve, and none only when none can be served |
| Buildings.ChooseUnitSpec | js/building.js:80-110 | nothing when nothing is affordable; else the preferred affordable type, else the rolled affordable one |
| Buildings.BaseQueuesArcherFirst | js/building.js:80-110 | with the base's two types and 500 gold, an archer is chosen |
| Buildings.TargetLost | js/building.js:116 | a target that is not lost is a living entity of the list with that id |
| Buildings.RetargetTower | js/building.js:114-122 | the targets become TowerStep: an armed tower whose target is gone or dead takes the nearest enemy; otherwise nothing changes |
| Buildings.AutoQueue | js/building.js:80-112 | a base with fewer than 2 queued items appends ChooseUnit's pick to the queue and the side pays its cost; otherwise queue and ledger stay; validity is kept |
| Buildings.RunBuildingAutopilot | js/building.js:78-123 | the queue and ledger are Queued and Charged with AutoPick, the targets TowerStep; validity is kept |
| Buildings.OptionAt | js/building.js:175-178 | the option for the current level, or none |
| Buildings.Upgraded | js/building.js:189-224 | level + 1, every bonus added to its field (health bonus to both health and maxHealth), new unit types appended |
| Buildings.UpgradeChoice | js/building.js:171-183 | the option for the level exactly when below maxLevel, an option exists and the gold covers it |
| Buildings.Bonus | js/building.js:192-221 | skipping an absent (zero) bonus is adding it |
| Buildings.ApplyUpgrade | js/building.js:189-224 | the building's grade becomes Upgraded |
| Buildings.Upgrade | js/building.js:170-235 | false with no change when UpgradeChoice refuses; otherwise true, gold down by the cost and the grade Upgraded |
| Buildings.UpgradesAreBounded | js/building.js:171-189 | repeated upgrades never take the level past maxLevel |
| Buildings.BaseUpgradeFrom300 | js/building.js:170-235 | 300 gold buys a base its level-2 upgrade and spends all of it |
| Buildings.ProductionTick | js/building.js:60-75 | queue, ledger and finished item are Tick of the old queue and ledger (Produce, then on autopilot the base pick appended and paid for); a unit is spawned iff an item finished, fresh, on the building's side, with the given id and the finished template's type; the targets are TowerStep; validity is kept |
| Buildings.Update | js/building.js:45-76 | mana Regenerated, health and alive unchanged; the shot is Fired of the old state, heals nothing and sets the attack clock to now, and without one the clock stays; lastGoldTime PaidAt; queue, ledger and finished item are Tick of the queue and the Paid ledger; a unit spawned iff an item finished, fresh, of the finished template's type; the targets TowerStep of UpdatedTargets; validity kept |
| Buildings.QueuedFifo | js/building.js:60-70 | the finished item and the new queue are the old queue followed by the one pick, if any |
| Buildings.TickIsFifo | js/building.js:60-75 | within a tick at most one item joins the back of the queue, and only a base on autopilot adds one of its own unit types |
| Buildings.TickNeverOverdraws | js/building.js:60-75 | a tick never takes a non-negative balance below zero and keeps the listed sides |
| Buildings.Autopilot | js/building.js:72-75 | on autopilot the base pick is appended and charged and the tower retargets; off autopilot nothing changes |
| Buildings.Economy | js/building.js:48-75 | mana, the attack clock, health and alive stay; lastGoldTime PaidAt; queue, ledger and finished item are Tick of the queue and the Paid ledger; a unit is spawned iff an item finished, of its type; the targets TowerStep |
| Catalog.InitialLayout | js/game.js:234-288 | six buildings alternating green and red, the first two the bases |
| Catalog.CatalogCostsPositive | js/game.js:27-210 | every producible unit, including upgrade additions, has a positive cost |
| Catalog.StartingBaseQueuesArcher | js/game.js:111-127 | a fresh base of either side with 500 gold queues an archer first |
| World.SpliceFrame | js/game.js:330 | Splice, the model of splice(i, 1), keeps the prefix, shifts the rest down by one and drops one element; past the end it removes nothing |
| World.DecayEffectsLive | js/game.js:325-332 | DecayEffects, the effect step, leaves no more effects than before, and every one left has time left |
| World.DecayEffectsFrom | js/game.js:325-332 | every effect left is an old one with its duration lowered by dt, in order |
| World.DecayEffectsKeeps | js/game.js:325-332 | every effect with time left after dt stays |
| World.DecayTwice | js/game.js:325-332 | decaying by d1 and then d2 >= 0 equals decaying by d1 + d2 |
| World.DecayAppend | js/game.js:325-332 | decay distributes over concatenation |
| World.DecayLoop | js/game.js:325-332 | the reverse splice loop leaves DecayEffects |
| World.BaseCount | js/game.js:717-725 | a count never exceeds the number of entities |
| World.Judge | js/game.js:727-737 | over iff it already was or a count is zero; both zero a draw, else the side with bases wins; both positive leaves the outcome |
| World.BaseCountZero | js/game.js:717-725 | the count of a side's living bases is 0 iff it has none |
| World.BaseCountOne | js/game.js:717-725 | a single living base counts as one |
| World.JudgeRule | js/game.js:727-737 | game over iff it already was or some side lacks a base; both lacking is a draw, else the side with a base wins; with both sides holding bases nothing changes |
| World.StartingBases | js/game.js:234-288 | the starting layout gives each side one base, so judging it changes nothing |
| World.InBoundsIsInRect | js/game.js:468-470 | IsOutOfBounds is false iff the point lies in the canvas rectangle, edges included |
| World.Expired | js/game.js:353-356 | expired iff more than lifetime * 1000 ms have passed since creation |
| World.CheckDue | js/game.js:340-342 | a check is due iff 50 ms have passed since the last one |
| World.AimPoint | js/game.js:361-372 | a living target's position, else the recorded target point |
| World.Moved | js/game.js:375-396 | a flight step changes only the current point, which is then present |
| World.ZeroXRestarts | js/game.js:390-393 | with no current point, or current x 0, the step starts from the launch point |
| World.SpliceIgnores | js/game.js:356 | splicing at i does not depend on the element at i |
| World.RetireFlying | js/game.js:343-407 | one reverse-loop iteration keeps the prefix and leaves every projectile from i on in flight |
| World.DoubleSplice | js/game.js:399-406 | a spent out-of-bounds projectile takes its neighbour with it |
| World.Hits | js/game.js:414-427 | a hit falls on a living entity, an ally exactly when the projectile heals |
| World.Struck | js/game.js:431-446 | damage lowers health by its amount, to 0 when it covers the health; else healing raises health, capped at maxHealth; else nothing changes; maxHealth and autopilot stay |
| World.Marker | js/game.js:436-454 | at most one marker, there iff the projectile damages or heals, at the entity lasting DAMAGE_EFFECT_DURATION with a positive amount |
| World.AttackerOf | js/game.js:432-433 | the source id exactly when an entity has it |
| World.SweepOf | js/game.js:413-465 | one vitals record per entity |
| World.SweepSnoc | js/game.js:413-465 | one more entity: struck if hit while the projectile is not spent, marker added, penetration or the projectile used up |
| World.SweepCount | js/game.js:455-462 | hits equal min(HitCount, penetration + 1); spent iff there were that many; the penetration left |
| World.SweepPointwise | js/game.js:416-452 | entity k is Struck iff the scan of the entities before it left the projectile unspent and the hit test accepts it; otherwise it is untouched |
| World.SweepAt | js/game.js:416-452 | the entities after k do not change what happens to entity k |
| World.SweepKeepsConsistent | js/game.js:436-446 | the scan keeps every consistent entity consistent |
| World.Strike | js/game.js:434-452 | one hit: damage through takeDamage or capped healing, and its marker |
| World.CollideOne | js/game.js:413-465 | one entity of the scan carried out as SweepSnoc says |
| World.Collide | js/game.js:410-466 | the scan loop leaves the vitals, markers and penetration of SweepOf |
| World.CollideStep | js/game.js:413-465 | one entity carried out: the entities before k hold the scan of the first k and afterwards the first k + 1 hold the scan of k + 1, later entities are untouched, and the marker joins the scan's effects |
| World.FrameDeltaBounds | js/game.js:292-300 | the scaled delta is at most 0.1, and non-negative when the clock does not go back and the speed is non-negative |
| World.FrameDelta | js/game.js:292-300 | the elapsed seconds times the speed, or the cap 0.1, whichever is smaller |
| World.UniqueIdsDistinct | js/game.js:754-775 | distinct ids mean distinct entities |
| World.UniqueIdsFind | js/game.js:773-775 | with distinct ids each entity is found by its own id |
| World.WithoutSpec | js/game.js:759-771 | removal drops exactly the first entity with the id, keeps the others in order and keeps ids distinct |
| World.Without | js/game.js:759-771 | splice at the index of the first entity with the id; the list itself when no entity has it |
| World.Game.constructor | js/game.js:3-224 | six fresh entities, a fresh ledger with 500 gold per side, no effects, projectiles or selection, speed 1, the clock at now, not paused, not over, ids distinct |
| World.Game.CreateInitialBuildings | js/game.js:234-288 | the six buildings of the layout appended with fresh ids, one base per side |
| World.Game.PlacePair | js/game.js:234-288 | the green and red building of one layout pair |
| World.Game.AddEntity | js/game.js:754-757 | the entity is appended, and ids stay distinct when its id is new |
| World.Game.NewId | js/utils.js:4-6 | an id no entity has |
| World.Game.RemoveEntity | js/game.js:759-771 | true iff an entity had the id; the list loses exactly that one; a selection of it is cleared |
| World.Game.FireRemovalTimer | js/entity.js:221-223 | once the removal time of a death has come, no entity with that id is left; before, nothing changes |
| World.Game.SelectEntity | js/game.js:789-804 | the old selection is unflagged, the new one flagged and held |
| World.Game.AddEffect | js/game.js:820-822 | the effect is appended |
| World.Game.SetGameSpeed | js/game.js:824-826 | the speed is clamped into [1, 20] |
| World.Game.TogglePause | js/game.js:828-830 | the pause flag flips |
| World.Game.ResetGame | js/game.js:740-752 | the starting layout again, no effects, no selection, 500 gold each, not over; projectiles kept |
| World.Game.UpdateEffects | js/game.js:325-332 | the effects become DecayEffects |
| World.Game.CheckGameOver | js/game.js:712-738 | the outcome becomes Judge of the living base counts and the old outcome |
| World.Game.CheckProjectileCollisions | js/game.js:410-466 | the entities and effects change as SweepOf says, and the projectile is spent exactly as it says |
| World.Game.FlyOne | js/game.js:343-407 | one iteration: the list before i is kept, everything from i on is in flight, effects are only appended, consistency is kept, and without a check no entity changes |
| World.Game.Advance | js/game.js:383-406 | the projectile list becomes Retire of the moved projectile |
| World.Game.HitAt | js/game.js:401-403 | the scan's outcome is written back, or spliced out when spent; consistency kept |
| World.Game.UpdateProjectiles | js/game.js:338-408 | the check clock moves exactly when a check is due; no projectile is added, every one left is in flight, effects are only appended, consistency is kept |
| World.Game.TickEntity | js/game.js:314-319 | mana Regenerated; at most one new entity (fresh, same side, the next id, only from a building) and at most one new projectile (from this entity, healing nothing) are appended |
| World.Game.UpdateBuilding | js/game.js:314-319 | the building's update against the game: mana Regenerated, the shot is Fired of the old state and heals nothing, the attack clock moves to now exactly when there is a shot, a spawned unit is fresh with the next id |
| World.Game.TickBuilding | js/game.js:314-319 | the shot is Fired of the old state, and the attack clock moves to now exactly when there is one; a completed unit is appended fresh, on the building's side, with the next id; ids stay distinct |
| World.Game.UpdateEntities | js/game.js:313-319 | entities are only appended, fresh and with the next ids; new projectiles heal nothing; each original entity's mana is Regenerated when alive and unchanged when dead |
| World.Game.Update | js/game.js:312-336 | ids stay distinct, entities are only appended, every projectile left is in flight, every effect has time left, the outcome is Judge of the living base counts, consistency is kept |
| World.Game.Move | js/game.js:313-322 | entities are only appended, every projectile left is in flight, consistency is kept |
| World.Game.Settle | js/game.js:324-335 | the effects become DecayEffects of the old ones, every one with time left, and the outcome is Judge of the living base counts |
| World.Game.Frame | js/game.js:290-310 | the clock is set to now; paused, entities, projectiles, effects and outcome are unchanged; otherwise every projectile is in flight and the outcome is Judge |

## Left out

- Movement: local avoidance steering, the 90% stop point and the dodge move itself
  (js/entity.js:41-87, 102-107) are left out, because they are floating-point geometry.
  Positions never change in the model.
- Trigonometry and `sqrt`: headings, perpendiculars and the spawn ring are functions of
  `Env`. The model proves nothing about their values.
- Projectile trajectory values: the flight step is `Env` geometry. GRAVITY is 0, so the
  gravity arc adds nothing.
- Effects emitted by entity methods are left out, because they are cosmetic markers that
  no rule reads. These are the attack, damage, death, dodge, buff, area, spawn and upgrade
  effects. The collision markers and the game's effect list are modelled.
- Rendering is left out: `render`, every `draw*` method and the canvas.
- js/ui.js and js/main.js are not part of this model.
- `gameLoop` scheduling, `Date.now`, `requestAnimationFrame` and resizing are left out.
  The clock and the bounds are inputs. `World.Game.Frame` models only the delta
  computation and the pause test.
- Randomness: `generateId` is replaced by fresh natural-number ids. Every `Math.random`
  call is an `Env` roll parameter.
- `setTimeout` has no wall clock; both timers are explicit steps:
  - death removal is `World.Game.FireRemovalTimer`;
  - buff reversal is `Units.RevertBuff`.
- `debounce`, `throttle`, `deepClone`, `lerp`, the angle helpers, `circlesOverlap` and
  `randomPositionInArea` are left out. They are timers, JSON or unused geometry.
- Display fields are not carried: names, colours, attack types, widths and heights,
  `getStats`, `getCommands`.
- js/constants.js is not modelled as code. It is used only as constant tables.
- `addProjectile` is left out: the projectile list is a field the updates append to.
- Units.Takes: an area ability with no position throws in JavaScript. The model treats it
  as not taking effect, so the exception path is not modelled.
- World.Game.UpdateProjectiles: it states the bookkeeping (in flight, check clock), not a
  closed form of the whole list, because the loop interleaves collision scans with entity
  state.
- Arithmetic is on unbounded reals and integers. No IEEE rounding is modelled.
- Utils.FormatNumber: the model formats integers only. JavaScript's toString also shows
  fractions, whose integer part the regex groups as well, and prints magnitudes of 1e21
  or more in exponent form; neither is covered.
- Buildings.ProductionProgress: it requires a non-zero head cost. JavaScript divides by a
  zero cost too and returns Infinity or NaN; the model does not cover that case. It cannot
  arise from the catalog, whose costs are all positive (Catalog.CatalogCostsPositive), and
  queueing keeps the queued costs positive.
