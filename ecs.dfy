/**
 * Vocabulary shared by every snapshot of the game: entity identifiers,
 * coordinates, the viewshed component, and small sequence helpers used by the
 * component joins and the game log.
 *
 * A specs `World` stores each component type in its own storage keyed by
 * entity.  In this model every storage is a field of a `World` class (one class
 * per snapshot of the game, since each snapshot registers its own components):
 * a `map` from entity to the component's data, or a `set` for marker
 * components that carry no data.  A join walks `entities`, the live entities
 * in the order specs visits them, and keeps those present in every joined
 * storage.
 */
module Ecs {

  /** An entity is an opaque identifier; all of its state lives in components. */
  type Entity = nat

  datatype Option<T> = None | Some(value: T)

  /** Integer tile coordinate: the Position component and rltk's Point alike. */
  datatype Point = Point(x: int, y: int)

  /**
   * A map tile.  The tile module is not part of this model: `Wall` and
   * `Floor` are the kinds the modelled code names, `Other` stands for the rest.
   */
  datatype TileType = Wall | Floor | Other(kind: nat)

  /**
   * The keys the input handlers match on (rltk's `VirtualKeyCode`); every
   * other key is `OtherKey`.
   */
  datatype Key =
    | Left | Right | Up | Down
    | Key1 | Key2 | Key3 | Key4 | Key6 | Key7 | Key8 | Key9
    | A | C | D | E | I | L | P | Q | S | W | Z
    | Escape | Space | Return
    | OtherKey(code: nat)

  /** What an entity can currently see, how far, and whether it must be recomputed. */
  datatype Viewshed = Viewshed(visibleTiles: seq<Point>, range: int, dirty: bool)

  /** Sum of a list of amounts, as `iter().sum()` computes it. */
  function Sum(s: seq<int>): int
  {
    if s == [] then 0 else Sum(s[..|s| - 1]) + s[|s| - 1]
  }

  lemma {:induction false} SumAppend(s: seq<int>, x: int)
    ensures Sum(s + [x]) == Sum(s) + x
  {
    assert (s + [x])[..|s + [x]| - 1] == s;
  }

  /** The entity's name, or the empty string when it has none. */
  function NameOf(names: map<Entity, string>, e: Entity): string
  {
    if e in names then names[e] else ""
  }

  /** Concatenation regroups freely. */
  lemma AppendAssoc<T>(a: seq<T>, b: seq<T>, c: seq<T>)
    ensures (a + b) + c == a + (b + c)
  {
  }

  /** No entity occurs twice. */
  predicate Distinct(es: seq<Entity>)
  {
    forall i, j :: 0 <= i < j < |es| ==> es[i] != es[j]
  }

  /** Appending an entity not yet listed keeps the list free of repeats. */
  lemma DistinctAppend(es: seq<Entity>, e: Entity)
    requires Distinct(es) && e !in es
    ensures Distinct(es + [e])
  {
    forall i, j | 0 <= i < j < |es + [e]|
      ensures (es + [e])[i] != (es + [e])[j]
    {
      if j == |es| {
        assert (es + [e])[i] == es[i];
      }
    }
  }

  /** `es` with every entity of `dead` taken out, order kept. */
  function Without(es: seq<Entity>, dead: set<Entity>): (r: seq<Entity>)
    ensures forall e :: e in r <==> e in es && e !in dead
    ensures |r| <= |es|
    ensures Distinct(es) ==> Distinct(r)
  {
    if es == [] then []
    else
      var rest := Without(es[..|es| - 1], dead);
      var last := es[|es| - 1];
      assert es == es[..|es| - 1] + [last];
      if last in dead then rest
      else
        assert Distinct(es) ==> Distinct(rest + [last]) by {
          if Distinct(es) { DistinctAppend(rest, last); }
        }
        rest + [last]
  }

  /** Decimal digits of a natural number, as Rust's `{}` formatting writes it. */
  function NatToString(n: nat): (s: string)
    ensures |s| >= 1
    ensures forall i :: 0 <= i < |s| ==> '0' <= s[i] <= '9'
    ensures s[0] == '0' ==> n == 0 && |s| == 1
    decreases n
  {
    var digit := ['0' + (n % 10) as char];
    if n < 10 then digit else NatToString(n / 10) + digit
  }

  /** The number a string of decimal digits denotes, most significant digit first. */
  function DigitsValue(s: string): nat
    requires forall i :: 0 <= i < |s| ==> '0' <= s[i] <= '9'
  {
    if s == [] then 0 else DigitsValue(s[..|s| - 1]) * 10 + (s[|s| - 1] as int - '0' as int)
  }

  /** `NatToString` writes `n` in decimal: its digits denote `n` again. */
  lemma {:induction false} NatToStringValue(n: nat)
    ensures DigitsValue(NatToString(n)) == n
    decreases n
  {
    var s := NatToString(n);
    if n >= 10 {
      NatToStringValue(n / 10);
      assert s[..|s| - 1] == NatToString(n / 10);
    }
  }

  /** An `i32` printed with `{}`: a leading minus sign for negative values. */
  function IntToString(n: int): string
  {
    if n < 0 then "-" + NatToString(-n) else NatToString(n)
  }
}
