/**
 * Damage application and the death sweep (`explore2/src/combat/damage.rs`):
 * every entity with combat stats loses the sum of its pending damage, the
 * pending damage is dropped, and `delete_the_dead` removes every non-player
 * entity left with fewer than one hit point.
 */
module Damage {
  import opened Ecs
  import opened Explore2World
  import Melee

  /** `stats` after losing the whole pending list. */
  function Hurt(stats: CombatStats, pending: SufferDamage): CombatStats
  {
    stats.(hp := stats.hp - Sum(pending.amount))
  }

  /** The combat stats after `DamageSystem::run`. */
  function Damaged(stats: map<Entity, CombatStats>, pending: map<Entity, SufferDamage>): map<Entity, CombatStats>
  {
    map e | e in stats :: if e in pending then Hurt(stats[e], pending[e]) else stats[e]
  }

  /** `DamageSystem::run`. */
  method DamageSystem(w: World)
    requires w.Valid() && w.Tracks(w.combatStats.Keys * w.sufferDamage.Keys)
    modifies w`combatStats, w`sufferDamage
    ensures w.combatStats == Damaged(old(w.combatStats), old(w.sufferDamage))
    ensures w.sufferDamage == map[]
  {
    var i := 0;
    while i < |w.entities|
      invariant 0 <= i <= |w.entities| && w.sufferDamage == old(w.sufferDamage)
      invariant w.combatStats.Keys == old(w.combatStats).Keys
      invariant forall e :: e in w.combatStats ==>
        w.combatStats[e] == if e in w.sufferDamage && e in w.entities[..i] then Hurt(old(w.combatStats)[e], w.sufferDamage[e]) else old(w.combatStats)[e]
    {
      var e := w.entities[i];
      if e in w.combatStats && e in w.sufferDamage {
        var stats := w.combatStats[e];
        w.combatStats := w.combatStats[e := stats.(hp := stats.hp - Sum(w.sufferDamage[e].amount))];
      }
      i := i + 1;
    }
    assert w.entities[..i] == w.entities;
    w.sufferDamage := map[];
  }

  lemma {:induction false} SumPositive(s: seq<int>)
    requires forall k :: 0 <= k < |s| ==> s[k] > 0
    ensures s == [] ==> Sum(s) == 0
    ensures s != [] ==> Sum(s) >= |s|
  {
    if s != [] {
      SumPositive(s[..|s| - 1]);
    }
  }

  /**
   * With only positive amounts pending (all melee ever records), an entity
   * loses hit points exactly when it has some pending damage, and nothing
   * else about its stats changes; entities with no pending damage keep
   * their hit points.
   */
  lemma DamageOnlyLowers(stats: map<Entity, CombatStats>, pending: map<Entity, SufferDamage>, e: Entity)
    requires Melee.AllPositive(pending) && e in stats
    ensures e in Damaged(stats, pending)
    ensures var after := Damaged(stats, pending)[e];
      after.maxHp == stats[e].maxHp && after.defense == stats[e].defense && after.power == stats[e].power &&
      after.hp <= stats[e].hp &&
      (after.hp < stats[e].hp <==> e in pending && pending[e].amount != [])
  {
    if e in pending {
      SumPositive(pending[e].amount);
    }
  }

  /**
   * Melee followed by damage: when the only pending damage this turn comes
   * from one living attacker striking a living target, the target ends the
   * turn exactly `max(0, power - defense)` hit points poorer.
   */
  lemma MeleeThenDamage(stats: map<Entity, CombatStats>, names: map<Entity, string>, intents: map<Entity, WantsToMelee>, log: seq<string>, attacker: Entity)
    requires Melee.CanResolve(stats, names, intents, attacker)
    requires Melee.Attacks(stats, names, intents, attacker) && stats[attacker].hp > 0
    requires stats[intents[attacker].target].hp > 0
    ensures var target := intents[attacker].target;
      var o := Melee.Resolve(stats, names, intents, Melee.Outcome(map[], log), attacker);
      Damaged(stats, o.pending)[target].hp == stats[target].hp - Melee.BlowDamage(stats[attacker], stats[target])
  {
    var target := intents[attacker].target;
    Melee.ResolveCases(stats, names, intents, Melee.Outcome(map[], log), attacker);
    var o := Melee.Resolve(stats, names, intents, Melee.Outcome(map[], log), attacker);
    if Melee.BlowDamage(stats[attacker], stats[target]) > 0 {
      assert o.pending[target].amount == [Melee.BlowDamage(stats[attacker], stats[target])];
      assert Sum([Melee.BlowDamage(stats[attacker], stats[target])]) == Melee.BlowDamage(stats[attacker], stats[target]) by {
        SumAppend([], Melee.BlowDamage(stats[attacker], stats[target]));
      }
    }
  }

  /** What the death sweep finds: the victims to delete, in join order, and the log lines it writes. */
  datatype Sweep = Sweep(dead: seq<Entity>, log: seq<string>)

  /** One entity of the scan over entities with combat stats. */
  function SweepStep(stats: map<Entity, CombatStats>, names: map<Entity, string>, players: set<Entity>, s: Sweep, e: Entity): Sweep
  {
    if e in stats && stats[e].hp < 1 then
      if e in players then Sweep(s.dead, s.log + ["You are dead"])
      else Sweep(s.dead + [e], if e in names then s.log + [names[e] + " is dead"] else s.log)
    else s
  }

  /** The scan of `delete_the_dead` over `es`. */
  function SweepAll(stats: map<Entity, CombatStats>, names: map<Entity, string>, players: set<Entity>, s: Sweep, es: seq<Entity>): (r: Sweep)
    ensures forall e :: e in r.dead <==> e in s.dead || (e in es && e in stats && stats[e].hp < 1 && e !in players)
    ensures s.log <= r.log
  {
    if es == [] then s
    else SweepStep(stats, names, players, SweepAll(stats, names, players, s, es[..|es| - 1]), es[|es| - 1])
  }

  /** A player at fewer than one hit point is reported dead and is never among the victims. */
  lemma {:induction false} PlayerNeverSwept(stats: map<Entity, CombatStats>, names: map<Entity, string>, players: set<Entity>, es: seq<Entity>, p: Entity)
    requires p in es && p in players && p in stats && stats[p].hp < 1
    ensures p !in SweepAll(stats, names, players, Sweep([], []), es).dead
    ensures "You are dead" in SweepAll(stats, names, players, Sweep([], []), es).log
  {
    var prefix := es[..|es| - 1];
    if es[|es| - 1] != p {
      assert p in prefix by { assert es == prefix + [es[|es| - 1]]; }
      PlayerNeverSwept(stats, names, players, prefix, p);
    }
  }

  /**
   * `delete_the_dead`: the scan logs "<name> is dead" for each named victim
   * and "You are dead" for a dead player; only afterwards are the victims,
   * the non-player entities with fewer than one hit point, deleted.
   */
  method DeleteTheDead(w: World)
    requires w.Valid()
    modifies w`log
    modifies w`entities, w`positions, w`players, w`viewsheds, w`monsters
    modifies w`names, w`blocksTile, w`combatStats, w`wantsMelee, w`sufferDamage, w`items, w`consumables, w`ranged
    modifies w`inflictsDamage, w`areaOfEffect, w`confusion, w`providesHealing, w`inBackpack, w`wantsPickup, w`wantsUse, w`wantsDrop
    ensures w.Valid()
    ensures var sweep := SweepAll(old(w.combatStats), old(w.names), old(w.players), Sweep([], old(w.log)), old(w.entities));
      w.log == sweep.log && w.Deleted(set e | e in sweep.dead)
  {
    var dead := FindTheDead(w);
    w.DeleteEntities(set e | e in dead);
  }

  /** The scan of `delete_the_dead`: it collects the victims and writes the log. */
  method FindTheDead(w: World) returns (dead: seq<Entity>)
    modifies w`log
    ensures Sweep(dead, w.log) == SweepAll(w.combatStats, w.names, w.players, Sweep([], old(w.log)), w.entities)
  {
    dead := [];
    var i := 0;
    while i < |w.entities|
      invariant 0 <= i <= |w.entities|
      invariant Sweep(dead, w.log) == SweepAll(w.combatStats, w.names, w.players, Sweep([], old(w.log)), w.entities[..i])
    {
      var e := w.entities[i];
      ghost var before := Sweep(dead, w.log);
      if e in w.combatStats && w.combatStats[e].hp < 1 {
        if e !in w.players {
          if e in w.names {
            w.log := w.log + [w.names[e] + " is dead"];
          }
          dead := dead + [e];
        } else {
          w.log := w.log + ["You are dead"];
        }
      }
      assert Sweep(dead, w.log) == SweepStep(w.combatStats, w.names, w.players, before, e);
      assert w.entities[..i + 1][..i] == w.entities[..i];
      i := i + 1;
    }
    assert w.entities[..i] == w.entities;
  }
}
