/**
 * The selection logic of the item menus of the second exploration snapshot
 * (`explore2/src/gui/menus/item.rs`): `show_inventory` and `drop` list the
 * player's named backpack items and turn a key into a choice.  The drawing is
 * not modelled; the two menus select identically, so one method stands for
 * both.
 */
module ItemMenu {
  import opened Ecs
  import opened Explore2World

  /** The menus' own result. */
  datatype MenuResult = Cancel | NoResponse | Selected

  /** The entities of `es` that are in the player's backpack and have a name, in join order. */
  function Carried(es: seq<Entity>, backpack: map<Entity, InBackpack>, names: map<Entity, string>, player: Entity): seq<Entity>
  {
    if es == [] then []
    else
      var rest := Carried(es[..|es| - 1], backpack, names, player);
      var e := es[|es| - 1];
      if e in backpack && e in names && backpack[e].owner == player then rest + [e] else rest
  }

  /**
   * The listing holds exactly the player's named backpack items, each once
   * when the entities are distinct, and no more of them than there are
   * entities.
   */
  lemma {:induction false} CarriedMeans(es: seq<Entity>, backpack: map<Entity, InBackpack>, names: map<Entity, string>, player: Entity)
    ensures var r := Carried(es, backpack, names, player);
      |r| <= |es| &&
      (forall e :: e in r <==> e in es && e in backpack && e in names && backpack[e].owner == player) &&
      (Distinct(es) ==> Distinct(r))
  {
    if es != [] {
      var prefix, e := es[..|es| - 1], es[|es| - 1];
      assert es == prefix + [e];
      CarriedMeans(prefix, backpack, names, player);
      if Distinct(es) {
        assert Distinct(prefix) by {
          forall i, j | 0 <= i < j < |prefix| ensures prefix[i] != prefix[j] { assert prefix[i] == es[i] && prefix[j] == es[j]; }
        }
        if e in backpack && e in names && backpack[e].owner == player {
          DistinctAppend(Carried(prefix, backpack, names, player), e);
        }
      }
    }
  }

  /**
   * The menu's answer to `key` over the rows `listed`: nothing without a key,
   * a cancel on Escape, and for any other key the row whose letter it is
   * (`letterToOption` stands for rltk's `letter_to_option`), or nothing when
   * that is not a row of the listing.
   */
  function Pick(listed: seq<Entity>, key: Option<Key>, letterToOption: Key -> int): (r: (MenuResult, Option<Entity>))
    ensures r.0 == Selected <==> r.1.Some?
    ensures r.1.Some? ==> r.1.value in listed && key.Some? && key.value != Escape &&
                          0 <= letterToOption(key.value) < |listed| && r.1.value == listed[letterToOption(key.value)]
    ensures r.0 == Cancel <==> key == Some(Escape)
    ensures r.0 == NoResponse <==> key.None? || (key.value != Escape && !(0 <= letterToOption(key.value) < |listed|))
  {
    match key
    case None => (NoResponse, None)
    case Some(k) =>
      if k == Escape then (Cancel, None)
      else
        var selection := letterToOption(k);
        if selection > -1 && selection < |listed| then (Selected, Some(listed[selection])) else (NoResponse, None)
  }

  /** `show_inventory` (and `drop`): lists the player's items, then answers the key as `Pick` does. */
  method SelectItem(w: World, key: Option<Key>, letterToOption: Key -> int) returns (result: MenuResult, choice: Option<Entity>)
    ensures (result, choice) == Pick(Carried(w.entities, w.inBackpack, w.names, w.playerEntity), key, letterToOption)
  {
    var equippable: seq<Entity> := [];
    var i := 0;
    while i < |w.entities|
      invariant 0 <= i <= |w.entities|
      invariant equippable == Carried(w.entities[..i], w.inBackpack, w.names, w.playerEntity)
    {
      var entity := w.entities[i];
      assert w.entities[..i + 1][..i] == w.entities[..i];
      if entity in w.inBackpack && entity in w.names && w.inBackpack[entity].owner == w.playerEntity {
        equippable := equippable + [entity];
      }
      i := i + 1;
    }
    assert w.entities[..i] == w.entities;
    var count := |equippable|;
    match key {
      case None => return NoResponse, None;
      case Some(k) =>
        if k == Escape {
          return Cancel, None;
        }
        var selection := letterToOption(k);
        if selection > -1 && selection < count {
          return Selected, Some(equippable[selection]);
        }
        return NoResponse, None;
    }
  }
}
