/**
 * Melee resolution (`explore2/src/combat/melee.rs`): every living attacker
 * with a melee intent, a name and combat stats strikes its target once; a
 * living target is charged `max(0, power - defense)` as pending damage, and
 * every intent is dropped afterwards.
 */
module Melee {
  import opened Ecs
  import opened Explore2World

  /** Damage of one blow: the attacker's power less the target's defence, floored at zero. */
  function BlowDamage(attacker: CombatStats, target: CombatStats): (d: int)
    ensures d >= 0 && d >= attacker.power - target.defense
    ensures d == 0 || d == attacker.power - target.defense
  {
    if attacker.power - target.defense > 0 then attacker.power - target.defense else 0
  }

  function MissMessage(attacker: string, target: string): string
  {
    attacker + " is unable to hurt " + target
  }

  function HitMessage(attacker: string, target: string, damage: int): string
  {
    attacker + " hits " + target + ", for " + IntToString(damage) + " hp."
  }

  /** The pending damage and the log, the two things melee writes besides clearing intents. */
  datatype Outcome = Outcome(pending: map<Entity, SufferDamage>, log: seq<string>)

  /** `e` takes part in the join over intents, names and combat stats. */
  predicate Attacks(stats: map<Entity, CombatStats>, names: map<Entity, string>, intents: map<Entity, WantsToMelee>, e: Entity)
  {
    e in intents && e in names && e in stats
  }

  /**
   * The unwraps of `e`'s turn succeed: a living attacker's target has combat
   * stats, and a living target also has a name.
   */
  predicate CanResolve(stats: map<Entity, CombatStats>, names: map<Entity, string>, intents: map<Entity, WantsToMelee>, e: Entity)
  {
    Attacks(stats, names, intents, e) && stats[e].hp > 0 ==>
      intents[e].target in stats && (stats[intents[e].target].hp > 0 ==> intents[e].target in names)
  }

  /** One attacker's turn. */
  function Resolve(stats: map<Entity, CombatStats>, names: map<Entity, string>, intents: map<Entity, WantsToMelee>, o: Outcome, e: Entity): Outcome
    requires CanResolve(stats, names, intents, e)
  {
    if Attacks(stats, names, intents, e) && stats[e].hp > 0 then
      var target := intents[e].target;
      if stats[target].hp > 0 then
        var damage := BlowDamage(stats[e], stats[target]);
        if damage == 0 then Outcome(o.pending, o.log + [MissMessage(names[e], names[target])])
        else Outcome(NewDamage(o.pending, target, damage), o.log + [HitMessage(names[e], names[target], damage)])
      else o
    else o
  }

  /** The turns of the attackers among `es`, in order. */
  function ResolveAll(stats: map<Entity, CombatStats>, names: map<Entity, string>, intents: map<Entity, WantsToMelee>, o: Outcome, es: seq<Entity>): Outcome
    requires forall e :: CanResolve(stats, names, intents, e)
  {
    if es == [] then o
    else Resolve(stats, names, intents, ResolveAll(stats, names, intents, o, es[..|es| - 1]), es[|es| - 1])
  }

  /**
   * What one turn does: nothing for a dead attacker or a dead target; a
   * blow of zero logs a miss and charges nothing; any other blow logs a hit
   * and charges exactly `max(0, power - defense)` to the target alone.
   */
  lemma ResolveCases(stats: map<Entity, CombatStats>, names: map<Entity, string>, intents: map<Entity, WantsToMelee>, o: Outcome, e: Entity)
    requires CanResolve(stats, names, intents, e)
    ensures var r := Resolve(stats, names, intents, o, e);
      if !Attacks(stats, names, intents, e) || stats[e].hp <= 0 || stats[intents[e].target].hp <= 0 then r == o
      else
        var target := intents[e].target;
        var damage := stats[e].power - stats[target].defense;
        if damage <= 0 then
          r.pending == o.pending && r.log == o.log + [names[e] + " is unable to hurt " + names[target]]
        else
          r.log == o.log + [names[e] + " hits " + names[target] + ", for " + IntToString(damage) + " hp."] &&
          r.pending.Keys == o.pending.Keys + {target} &&
          r.pending[target].amount == (if target in o.pending then o.pending[target].amount else []) + [damage] &&
          forall v :: v in o.pending && v != target ==> r.pending[v] == o.pending[v]
  {
  }

  /** Every pending amount is a positive number of hit points. */
  predicate AllPositive(pending: map<Entity, SufferDamage>)
  {
    forall v :: v in pending ==> forall k :: 0 <= k < |pending[v].amount| ==> pending[v].amount[k] > 0
  }

  /**
   * Melee only ever adds damage: amounts already pending stay, in order, at
   * the front of each list, every added amount is positive, and the log only
   * grows.
   */
  lemma {:induction false} ResolveAllAdds(stats: map<Entity, CombatStats>, names: map<Entity, string>, intents: map<Entity, WantsToMelee>, o: Outcome, es: seq<Entity>)
    requires forall e :: CanResolve(stats, names, intents, e)
    requires AllPositive(o.pending)
    ensures var r := ResolveAll(stats, names, intents, o, es);
      AllPositive(r.pending) && o.pending.Keys <= r.pending.Keys && o.log <= r.log &&
      forall v :: v in o.pending ==> o.pending[v].amount <= r.pending[v].amount
  {
    if es != [] {
      var prefix := es[..|es| - 1];
      ResolveAllAdds(stats, names, intents, o, prefix);
      var mid := ResolveAll(stats, names, intents, o, prefix);
      ResolveCases(stats, names, intents, mid, es[|es| - 1]);
    }
  }

  /**
   * Only targets of living attackers among `es` that are themselves alive
   * gain pending damage; everyone else's list is left as it was.
   */
  lemma {:induction false} ResolveAllOnlyTargets(stats: map<Entity, CombatStats>, names: map<Entity, string>, intents: map<Entity, WantsToMelee>, o: Outcome, es: seq<Entity>, v: Entity)
    requires forall e :: CanResolve(stats, names, intents, e)
    requires forall e :: e in es && Attacks(stats, names, intents, e) && stats[e].hp > 0 ==> intents[e].target != v
    ensures var r := ResolveAll(stats, names, intents, o, es);
      (v in r.pending <==> v in o.pending) && (v in o.pending ==> r.pending[v] == o.pending[v])
  {
    if es != [] {
      var prefix := es[..|es| - 1];
      ResolveAllOnlyTargets(stats, names, intents, o, prefix, v);
      var mid := ResolveAll(stats, names, intents, o, prefix);
      ResolveCases(stats, names, intents, mid, es[|es| - 1]);
    }
  }

  /** `MeleeSystem::run`. */
  method MeleeSystem(w: World)
    requires forall e :: CanResolve(w.combatStats, w.names, w.wantsMelee, e)
    modifies w`sufferDamage, w`log, w`wantsMelee
    ensures Outcome(w.sufferDamage, w.log) ==
      ResolveAll(old(w.combatStats), old(w.names), old(w.wantsMelee), Outcome(old(w.sufferDamage), old(w.log)), old(w.entities))
    ensures w.wantsMelee == map[]
  {
    var i := 0;
    while i < |w.entities|
      invariant 0 <= i <= |w.entities| && w.wantsMelee == old(w.wantsMelee)
      invariant Outcome(w.sufferDamage, w.log) ==
        ResolveAll(w.combatStats, w.names, w.wantsMelee, Outcome(old(w.sufferDamage), old(w.log)), w.entities[..i])
    {
      var e := w.entities[i];
      assert w.entities[..i + 1][..i] == w.entities[..i];
      assert CanResolve(w.combatStats, w.names, w.wantsMelee, e);
      if e in w.wantsMelee && e in w.names && e in w.combatStats {
        var stats := w.combatStats[e];
        if stats.hp > 0 {
          var target := w.wantsMelee[e].target;
          var targetStats := w.combatStats[target];
          if targetStats.hp > 0 {
            var targetName := w.names[target];
            var damage := BlowDamage(stats, targetStats);
            if damage == 0 {
              w.log := w.log + [MissMessage(w.names[e], targetName)];
            } else {
              w.log := w.log + [HitMessage(w.names[e], targetName, damage)];
              w.sufferDamage := NewDamage(w.sufferDamage, target, damage);
            }
          }
        }
      }
      i := i + 1;
    }
    assert w.entities[..i] == w.entities;
    w.wantsMelee := map[];
  }
}
