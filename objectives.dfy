/**
 * The static objective table: mission type id to the inclusive range an
 * objective value is drawn from. The generation service and the generate
 * route carry identical copies; it is defined once here and shared.
 */
module Objectives {
  import opened Wrappers

  /** An inclusive range [lo, hi], the PHP pair [min, max]. */
  datatype Range = Range(lo: int, hi: int)

  /** One `'type_id' => [min, max]` line of the table. */
  datatype Entry = Entry(typeId: string, range: Range)

  /** Range used for a type that is not in the table. */
  const DefaultRange := Range(5, 15)

  /*
   * The table in the order the PHP array literal lists it: the accumulative
   * and killing types first, then the one-time types. It is written in parts
   * of at most 21 entries so that the verifier can look into each literal.
   */
  const Accumulative1: seq<Entry> := [
    Entry("type_collect_wood", Range(5, 15)),
    Entry("type_defeat_goblins", Range(3, 8)),
    Entry("type_hunt_wolves", Range(2, 6)),
    Entry("type_mine_stone", Range(10, 20)),
    Entry("type_fish", Range(5, 10)),
    Entry("type_collect_herbs", Range(8, 12)),
    Entry("type_kill_bears", Range(1, 3)),
    Entry("type_mine_coal", Range(5, 15)),
    Entry("type_gather_apples", Range(10, 30)),
    Entry("type_slay_orcs", Range(2, 5)),
    Entry("type_hunt_boars", Range(3, 7)),
    Entry("type_mine_iron", Range(4, 10)),
    Entry("type_farm_wheat", Range(20, 50)),
    Entry("type_collect_flowers", Range(15, 25)),
    Entry("type_kill_dragons", Range(1, 1)),
    Entry("type_mine_gold", Range(2, 6)),
    Entry("type_gather_mushrooms", Range(12, 18)),
    Entry("type_slay_undead", Range(5, 15)),
    Entry("type_hunt_deer", Range(4, 8)),
    Entry("type_mine_diamonds", Range(1, 2))
  ]

  const Accumulative2: seq<Entry> := [
    Entry("type_collect_berries", Range(20, 40)),
    Entry("type_kill_spiders", Range(6, 12)),
    Entry("type_mine_copper", Range(8, 16)),
    Entry("type_farm_carrots", Range(15, 35)),
    Entry("type_gather_logs", Range(5, 15)),
    Entry("type_kill_slimes", Range(10, 20)),
    Entry("type_mine_tin", Range(6, 12)),
    Entry("type_farm_potatoes", Range(18, 32)),
    Entry("type_collect_feathers", Range(25, 35)),
    Entry("type_kill_bats", Range(8, 16)),
    Entry("type_mine_silver", Range(3, 7)),
    Entry("type_farm_cabbage", Range(14, 28)),
    Entry("type_gather_branches", Range(15, 25)),
    Entry("type_kill_skeletons", Range(5, 12)),
    Entry("type_mine_lead", Range(7, 14)),
    Entry("type_farm_onions", Range(16, 24)),
    Entry("type_collect_leaves", Range(30, 50)),
    Entry("type_kill_zombies", Range(6, 14)),
    Entry("type_mine_nickel", Range(4, 9)),
    Entry("type_farm_turnips", Range(12, 22))
  ]

  const OneTime1: seq<Entry> := [
    Entry("type_find_treasure", Range(1, 1)),
    Entry("type_deliver_message", Range(1, 1)),
    Entry("type_craft_potion", Range(1, 1)),
    Entry("type_rescue_npc", Range(1, 1)),
    Entry("type_solve_puzzle", Range(1, 1)),
    Entry("type_talk_to_npc", Range(1, 1)),
    Entry("type_visit_location", Range(1, 1)),
    Entry("type_learn_spell", Range(1, 1)),
    Entry("type_train_skill", Range(1, 1)),
    Entry("type_donate_item", Range(1, 1)),
    Entry("type_read_book", Range(1, 1)),
    Entry("type_plant_tree", Range(1, 1)),
    Entry("type_clean_up", Range(1, 1)),
    Entry("type_protect_npc", Range(1, 1)),
    Entry("type_negotiate_deal", Range(1, 1)),
    Entry("type_investigate_crime", Range(1, 1)),
    Entry("type_perform_show", Range(1, 1)),
    Entry("type_compete_in_race", Range(1, 1)),
    Entry("type_win_tournament", Range(1, 1))
  ]

  const OneTime2: seq<Entry> := [
    Entry("type_make_peace", Range(1, 1)),
    Entry("type_find_secret_room", Range(1, 1)),
    Entry("type_deliver_gift", Range(1, 1)),
    Entry("type_craft_tool", Range(1, 1)),
    Entry("type_rescue_animal", Range(1, 1)),
    Entry("type_solve_mystery", Range(1, 1)),
    Entry("type_teach_child", Range(1, 1)),
    Entry("type_explore_ruins", Range(1, 1)),
    Entry("type_learn_recipe", Range(1, 1)),
    Entry("type_practice_magic", Range(1, 1)),
    Entry("type_donate_money", Range(1, 1)),
    Entry("type_write_poem", Range(1, 1)),
    Entry("type_build_shelter", Range(1, 1)),
    Entry("type_clean_river", Range(1, 1)),
    Entry("type_protect_village", Range(1, 1)),
    Entry("type_negotiate_trade", Range(1, 1)),
    Entry("type_investigate_murder", Range(1, 1)),
    Entry("type_perform_concert", Range(1, 1)),
    Entry("type_compete_in_contest", Range(1, 1))
  ]

  const OneTime3: seq<Entry> := [
    Entry("type_win_competition", Range(1, 1)),
    Entry("type_make_alliance", Range(1, 1)),
    Entry("type_find_peace", Range(1, 1)),
    Entry("type_count_corpses", Range(1, 1)),
    Entry("type_feed_giants", Range(1, 1)),
    Entry("type_clean_graveyard", Range(1, 1)),
    Entry("type_rescue_drowning_man", Range(1, 1)),
    Entry("type_buy_horse", Range(1, 1)),
    Entry("type_find_true_love", Range(1, 1)),
    Entry("type_steal_from_poor", Range(1, 1)),
    Entry("type_help_beggar", Range(1, 1)),
    Entry("type_build_wall", Range(5, 10)),
    Entry("type_dance_with_deaths", Range(1, 1)),
    Entry("type_heal_the_dead", Range(1, 1)),
    Entry("type_count_stars", Range(1, 1)),
    Entry("type_drink_poison", Range(1, 1)),
    Entry("type_survive_nightmare", Range(1, 1)),
    Entry("type_talk_to_gravestone", Range(1, 1)),
    Entry("type_find_happiness", Range(1, 1))
  ]

  const OneTime4: seq<Entry> := [
    Entry("type_eat_soup", Range(1, 1)),
    Entry("type_watch_sunrise", Range(1, 1)),
    Entry("type_hug_a_bear", Range(1, 1)),
    Entry("type_kiss_a_skull", Range(1, 1)),
    Entry("type_dig_own_grave", Range(1, 1)),
    Entry("type_burn_books", Range(10, 20)),
    Entry("type_plant_corpses", Range(5, 10)),
    Entry("type_listen_to_silence", Range(1, 1)),
    Entry("type_count_deaths", Range(1, 1)),
    Entry("type_cure_loneliness", Range(1, 1)),
    Entry("type_drown_in_tears", Range(1, 1)),
    Entry("type_eat_ashes", Range(1, 1)),
    Entry("type_kiss_death", Range(1, 1)),
    Entry("type_hunt_yourself", Range(1, 1)),
    Entry("type_dream_of_peace", Range(1, 1)),
    Entry("type_cry_for_no_reason", Range(1, 1)),
    Entry("type_burn_memories", Range(1, 1)),
    Entry("type_laugh_at_funeral", Range(1, 1)),
    Entry("type_feed_cats_corpses", Range(5, 10))
  ]

  const OneTime5: seq<Entry> := [
    Entry("type_find_light", Range(1, 1)),
    Entry("type_bury_your_past", Range(1, 1)),
    Entry("type_sing_to_the_dead", Range(1, 1)),
    Entry("type_drink_blood", Range(1, 1)),
    Entry("type_sleep_in_graveyard", Range(1, 1)),
    Entry("type_hug_a_zombie", Range(1, 1)),
    Entry("type_count_graves", Range(1, 1)),
    Entry("type_dance_on_graves", Range(1, 1)),
    Entry("type_cook_human_flesh", Range(1, 1)),
    Entry("type_watch_world_burn", Range(1, 1)),
    Entry("type_pray_to_void", Range(1, 1)),
    Entry("type_eat_heart", Range(1, 1)),
    Entry("type_find_meaning", Range(1, 1)),
    Entry("type_kiss_grave", Range(1, 1)),
    Entry("type_burn_hopes", Range(1, 1))
  ]

  const ObjectiveTable: seq<Entry> := Accumulative1 + Accumulative2 + OneTime1 + OneTime2 + OneTime3 + OneTime4 + OneTime5

  predicate WellFormed(r: Range) {
    1 <= r.lo <= r.hi
  }

  /**
   * The range listed for typeId, if any. A PHP array literal keeps the last
   * of two equal keys, so the search runs from the end.
   */
  function Lookup(table: seq<Entry>, typeId: string): (r: Option<Range>)
    ensures r.Some? ==> exists i :: 0 <= i < |table| && table[i] == Entry(typeId, r.value)
                                   && forall j :: i < j < |table| ==> table[j].typeId != typeId
    ensures r.None? ==> forall i :: 0 <= i < |table| ==> table[i].typeId != typeId
  {
    if table == [] then None
    else if table[|table| - 1].typeId == typeId then Some(table[|table| - 1].range)
    else Lookup(table[..|table| - 1], typeId)
  }

  predicate AllWellFormed(table: seq<Entry>) {
    forall i :: 0 <= i < |table| ==> WellFormed(table[i].range)
  }

  lemma AppendWellFormed(a: seq<Entry>, b: seq<Entry>)
    requires AllWellFormed(a) && AllWellFormed(b)
    ensures AllWellFormed(a + b)
  {
    forall i | 0 <= i < |a + b|
      ensures WellFormed((a + b)[i].range)
    {
      if i >= |a| {
        assert (a + b)[i] == b[i - |a|];
      }
    }
  }

  lemma Accumulative1WellFormed()
    ensures AllWellFormed(Accumulative1)
  {
  }

  lemma Accumulative2WellFormed()
    ensures AllWellFormed(Accumulative2)
  {
  }

  lemma OneTime1WellFormed()
    ensures AllWellFormed(OneTime1)
  {
  }

  lemma OneTime2WellFormed()
    ensures AllWellFormed(OneTime2)
  {
  }

  lemma OneTime3WellFormed()
    ensures AllWellFormed(OneTime3)
  {
  }

  lemma OneTime4WellFormed()
    ensures AllWellFormed(OneTime4)
  {
  }

  lemma OneTime5WellFormed()
    ensures AllWellFormed(OneTime5)
  {
  }

  /** Every range listed in the table is non-empty and starts at 1 or above. */
  lemma TableWellFormed()
    ensures AllWellFormed(ObjectiveTable)
  {
    Accumulative1WellFormed();
    Accumulative2WellFormed();
    OneTime1WellFormed();
    OneTime2WellFormed();
    OneTime3WellFormed();
    OneTime4WellFormed();
    OneTime5WellFormed();
    AppendWellFormed(Accumulative1, Accumulative2);
    AppendWellFormed(Accumulative1 + Accumulative2, OneTime1);
    AppendWellFormed(Accumulative1 + Accumulative2 + OneTime1, OneTime2);
    AppendWellFormed(Accumulative1 + Accumulative2 + OneTime1 + OneTime2, OneTime3);
    AppendWellFormed(Accumulative1 + Accumulative2 + OneTime1 + OneTime2 + OneTime3, OneTime4);
    AppendWellFormed(Accumulative1 + Accumulative2 + OneTime1 + OneTime2 + OneTime3 + OneTime4, OneTime5);
  }

  /** `$missionObjectives[$typeId] ?? [5, 15]`. */
  function ObjectiveRange(typeId: string): (r: Range)
    ensures WellFormed(r)
    ensures Lookup(ObjectiveTable, typeId).None? ==> r == DefaultRange
    ensures (exists i :: 0 <= i < |ObjectiveTable| && ObjectiveTable[i].typeId == typeId) ==>
              exists i :: 0 <= i < |ObjectiveTable| && ObjectiveTable[i] == Entry(typeId, r)
                          && forall j :: i < j < |ObjectiveTable| ==> ObjectiveTable[j].typeId != typeId
  {
    TableWellFormed();
    match Lookup(ObjectiveTable, typeId)
    case Some(range) => range
    case None => DefaultRange
  }

  /**
   * `rand($range[0], $range[1])` for the type's range: any value of the
   * inclusive range may come out; the distribution is not modelled.
   */
  method DrawObjective(typeId: string) returns (v: int)
    ensures ObjectiveRange(typeId).lo <= v <= ObjectiveRange(typeId).hi
    ensures v >= 1
  {
    var r := ObjectiveRange(typeId);
    assert r.lo <= r.lo <= r.hi;
    v :| r.lo <= v <= r.hi;
  }
}
