/**
 * The well-fed effect of the current game (`src/effects/hunger.rs`).
 */
module Hunger {
  import opened Ecs
  import opened GameWorld

  /** How long a fresh meal keeps its eater well fed. */
  const WellFedTurns := 20

  /** The hunger clocks once `target` has eaten: only its own clock, if it has one, is reset. */
  function Fed(clocks: map<Entity, HungerClock>, target: Entity): (r: map<Entity, HungerClock>)
    ensures r.Keys == clocks.Keys
    ensures target in clocks ==> r[target].state == WellFed && r[target].duration == WellFedTurns
    ensures forall e :: e in clocks && e != target ==> r[e] == clocks[e]
  {
    if target in clocks then clocks[target := HungerClock(WellFed, WellFedTurns)] else clocks
  }

  /** Eating twice in a row is the same as eating once. */
  lemma FedIdempotent(clocks: map<Entity, HungerClock>, target: Entity)
    ensures Fed(Fed(clocks, target), target) == Fed(clocks, target)
  {
  }

  /** Feeding two entities gives the same clocks in either order. */
  lemma FedCommutes(clocks: map<Entity, HungerClock>, a: Entity, b: Entity)
    ensures Fed(Fed(clocks, a), b) == Fed(Fed(clocks, b), a)
  {
  }

  /**
   * `well_fed`: the target's clock, when it has one, becomes well fed for
   * twenty turns.  The spawner is ignored and nothing else is touched.
   */
  method WellFedEffect(w: World, spawner: EffectSpawner, target: Entity)
    modifies w`hungerClocks
    ensures w.hungerClocks == Fed(old(w.hungerClocks), target)
  {
    if target in w.hungerClocks {
      var hc := w.hungerClocks[target];
      hc := hc.(state := WellFed);
      hc := hc.(duration := WellFedTurns);
      w.hungerClocks := w.hungerClocks[target := hc];
    }
  }
}
