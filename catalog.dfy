/** The unit and building tables of the Game constructor (`this.unitTypes`,
    `this.buildingTypes`) and the starting layout of createInitialBuildings.
    Fields the tables leave out are 0.0; `name`, `attackType`, `width` and `height`
    are display data and are not carried. */
module Catalog {
  import opened Utils
  import opened Constants
  import opened Entities
  import opened Buildings

  const Fireball := Ability("fireball", DamageAbility, 40.0, 30.0, 5.0, "", 0.0, 0.0, false, false, 0.0, 0.0)
  const HealSpell := Ability("heal", HealAbility, 30.0, 25.0, 3.0, "", 0.0, 0.0, false, false, 0.0, 0.0)

  const Warrior := UnitTemplate("warrior", "offensive", 150.0, 0.0, 15.0, 20.0, 1.0, 5.0, 60.0, 15.0, 100.0, [])
  const Archer := UnitTemplate("archer", "offensive", 80.0, 0.0, 20.0, 150.0, 0.8, 2.0, 70.0, 14.0, 120.0, [])
  const Mage := UnitTemplate("mage", "offensive", 70.0, 100.0, 25.0, 120.0, 0.7, 1.0, 60.0, 14.0, 150.0, [Fireball])
  const Healer := UnitTemplate("healer", "support", 60.0, 120.0, 5.0, 80.0, 0.5, 1.0, 55.0, 14.0, 130.0, [HealSpell])

  const Base := BuildingTemplate(
    "base", true, 500.0, 10.0, 0.0, 0.0, 0.0, 5.0, 1.0, 40.0, [Warrior, Archer],
    [UpgradeOption(300.0, 200.0, 5.0, 0.5, 3.0, 0.0, 0.0, 0.0, [Mage]),
     UpgradeOption(500.0, 300.0, 10.0, 0.5, 5.0, 0.0, 0.0, 0.0, [Healer])])

  const GoldMine := BuildingTemplate(
    "goldMine", false, 200.0, 5.0, 0.0, 0.0, 0.0, 10.0, 0.0, 30.0, [],
    [UpgradeOption(150.0, 50.0, 0.0, 0.0, 5.0, 0.0, 0.0, 0.0, []),
     UpgradeOption(300.0, 100.0, 0.0, 0.0, 10.0, 0.0, 0.0, 0.0, [])])

  const Tower := BuildingTemplate(
    "tower", false, 250.0, 8.0, 20.0, 180.0, 1.0, 0.0, 0.0, 25.0, [],
    [UpgradeOption(200.0, 100.0, 4.0, 0.0, 0.0, 10.0, 20.0, 0.0, []),
     UpgradeOption(350.0, 150.0, 6.0, 0.0, 0.0, 15.0, 30.0, 0.2, [])])

  /** One building of the starting layout. */
  datatype Placement = Placement(template: BuildingTemplate, pos: Point, side: int)

  /** createInitialBuildings: a base, a gold mine and a tower per side, mirrored across
      the field, green (0) on the left and red (1) on the right, in this order. */
  function InitialLayout(width: real, height: real): (ps: seq<Placement>)
    ensures |ps| == 6
    ensures forall i :: 0 <= i < 6 ==> ps[i].side == i % 2
    ensures forall i :: 0 <= i < 6 ==> (ps[i].template.isBase <==> i < 2)
  {
    [Placement(Base, Point(150.0, height / 2.0), 0),
     Placement(Base, Point(width - 150.0, height / 2.0), 1),
     Placement(GoldMine, Point(300.0, height / 2.0 - 150.0), 0),
     Placement(GoldMine, Point(width - 300.0, height / 2.0 - 150.0), 1),
     Placement(Tower, Point(300.0, height / 2.0 + 150.0), 0),
     Placement(Tower, Point(width - 300.0, height / 2.0 + 150.0), 1)]
  }

  /** Every cost in the tables is positive, so the production bookkeeping stays valid for
      the starting bases and whatever their upgrades add. */
  lemma CatalogCostsPositive()
    ensures PositiveCosts(Base.unitTypes)
    ensures forall o :: o in Base.upgradeOptions ==> PositiveCosts(o.newUnitTypes)
    ensures PositiveCosts(Base.unitTypes + Base.upgradeOptions[0].newUnitTypes + Base.upgradeOptions[1].newUnitTypes)
  {
    var all := Base.unitTypes + Base.upgradeOptions[0].newUnitTypes + Base.upgradeOptions[1].newUnitTypes;
    assert all == [Warrior, Archer, Mage, Healer];
  }

  /** With the starting 500 gold, a fresh base of either side queues an archer first. */
  lemma StartingBaseQueuesArcher(side: int, roll: real)
    requires side == 0 || side == 1
    ensures ChooseUnit(Base.unitTypes, StartingGold, side, roll) == Some(Archer)
  {
    BaseQueuesArcherFirst(Warrior, Archer, side, roll);
  }
}
