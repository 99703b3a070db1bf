/**
 * Classification of a dying entity by its short prefab name. The rules are
 * tried in order (barrel, then Bradley APC, then patrol helicopter) and the
 * first that matches decides.
 */
module Prefabs {
  import opened Wrappers
  import opened Text

  /** The kill categories the plugin rewards. */
  datatype Category = Barrel | Bradley | Heli

  /** The barrel rule, stated by the reference definitions. */
  ghost predicate BarrelRule(name: string) {
    IsPrefix("loot-barrel", name) || IsPrefix("loot_barrel", name) || name == "oil_barrel"
  }

  /** The APC rule: mentions `bradleyapc` and is not a wreck (`gibs`). */
  ghost predicate BradleyRule(name: string) {
    IsSubstring("bradleyapc", name) && !IsSubstring("gibs", name)
  }

  /** The helicopter rule: mentions `patrolhelicopter` and is not a wreck. */
  ghost predicate HeliRule(name: string) {
    IsSubstring("patrolhelicopter", name) && !IsSubstring("gibs", name)
  }

  /**
   * The category of an entity, or None when no rule matches. An empty name
   * matches nothing. A name that satisfies the barrel rule is a barrel
   * whatever else it contains, and a wreck (`gibs`) is never a vehicle.
   */
  function Classify(name: string): (c: Option<Category>)
    ensures name == "" ==> c == None
    ensures c == Some(Barrel) <==> BarrelRule(name)
    ensures c == Some(Bradley) <==> !BarrelRule(name) && BradleyRule(name)
    ensures c == Some(Heli) <==> !BarrelRule(name) && !BradleyRule(name) && HeliRule(name)
    ensures c == None <==> !BarrelRule(name) && !BradleyRule(name) && !HeliRule(name)
    ensures IsSubstring("gibs", name) ==> c != Some(Bradley) && c != Some(Heli)
  {
    if StartsWith(name, "loot-barrel") || StartsWith(name, "loot_barrel") || name == "oil_barrel" then
      Some(Barrel)
    else if Contains(name, "bradleyapc") && !Contains(name, "gibs") then
      Some(Bradley)
    else if Contains(name, "patrolhelicopter") && !Contains(name, "gibs") then
      Some(Heli)
    else
      None
  }

  /** Barrel prefab names as the game spells them. */
  lemma BarrelExamples()
    ensures Classify("loot_barrel_1") == Some(Barrel)
    ensures Classify("loot-barrel-2") == Some(Barrel)
    ensures Classify("oil_barrel") == Some(Barrel)
  {
    assert IsPrefix("loot_barrel", "loot_barrel_1");
    assert IsPrefix("loot-barrel", "loot-barrel-2");
  }

  /** The two vehicles, and a name that mentions neither. */
  lemma VehicleExamples()
    ensures Classify("bradleyapc") == Some(Bradley)
    ensures Classify("patrolhelicopter") == Some(Heli)
    ensures Classify("servergibs_bradley") == None
  {
    assert OccursAt("bradleyapc", "bradleyapc", 0);
    FirstCharAbsent("gibs", "bradleyapc");
    assert OccursAt("patrolhelicopter", "patrolhelicopter", 0);
    FirstCharAbsent("gibs", "patrolhelicopter");
    FirstCharAbsent("bradleyapc", "patrolhelicopter");
    assert OccursAt("gibs", "servergibs_bradley", 6);
    assert !IsPrefix("loot-barrel", "servergibs_bradley");
    assert !IsPrefix("loot_barrel", "servergibs_bradley");
  }

  /** Wrecks: a vehicle name that also mentions `gibs` is not a vehicle. */
  lemma WreckExamples()
    ensures Classify("bradleyapc_gibs") == None
    ensures Classify("patrolhelicopter_gibs") == None
  {
    assert OccursAt("gibs", "bradleyapc_gibs", 11);
    assert OccursAt("gibs", "patrolhelicopter_gibs", 17);
    FirstCharDiffers("loot-barrel", "bradleyapc_gibs");
    FirstCharDiffers("loot_barrel", "bradleyapc_gibs");
    FirstCharDiffers("loot-barrel", "patrolhelicopter_gibs");
    FirstCharDiffers("loot_barrel", "patrolhelicopter_gibs");
  }
}
