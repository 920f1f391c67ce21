/** The sketch's selection tables and the two choices made from them (src/config.js):
    a table maps a name to whether it is enabled; only the names whose flag is exactly `true`
    take part in the draw, in the table's own key order. */
module Config {
  import opened Js
  import opened FxRand

  const Name: string := "fluid"

  /** An object literal of flags, as its entries in `Object.keys` order. */
  type Table = seq<(string, bool)>

  const Compositions: Table :=
    [("cells", true), ("regenerate", false), ("reset", false), ("addnew", false), ("box", false)]

  const Palettes: Table :=
    [("Black&White", true), ("Mono", true), ("Analogous", true), ("Complementary", true)]

  /** The keys of a table, in order. */
  function KeysOf(t: Table): (keys: seq<string>)
    ensures |keys| == |t|
    ensures forall j :: 0 <= j < |t| ==> keys[j] == t[j].0
  {
    if t == [] then [] else [t[0].0] + KeysOf(t[1..])
  }

  /** `a` is `b` with some elements dropped and the rest left in order. */
  predicate Subsequence(a: seq<string>, b: seq<string>)
    decreases |b|
  {
    if a == [] then true
    else if b == [] then false
    else if a[0] == b[0] then Subsequence(a[1..], b[1..])
    else Subsequence(a, b[1..])
  }

  /** `Object.keys(t).filter(k => t[k] === true)`: exactly the enabled keys, in table order. */
  function Included(t: Table): (keys: seq<string>)
    ensures forall k :: k in keys <==> (k, true) in t
    ensures Subsequence(keys, KeysOf(t))
  {
    if t == [] then []
    else
      var rest := Included(t[1..]);
      assert KeysOf(t)[1..] == KeysOf(t[1..]);
      if t[0].1 then
        assert forall k :: (k, true) in t <==> k == t[0].0 || (k, true) in t[1..];
        [t[0].0] + rest
      else
        assert forall k :: (k, true) in t <==> (k, true) in t[1..];
        SkipHead(rest, KeysOf(t));
        rest
  }

  /** Dropping the first element of `b` keeps `a` a subsequence of `b` when it was one of the
      tail. */
  lemma {:induction false} SkipHead(a: seq<string>, b: seq<string>)
    requires b != [] && Subsequence(a, b[1..])
    ensures Subsequence(a, b)
    decreases |a| + |b|
  {
    if a != [] && a[0] == b[0] {
      SubsequenceTail(a, b[1..]);
    }
  }

  /** A subsequence loses nothing by dropping its own first element. */
  lemma {:induction false} SubsequenceTail(a: seq<string>, b: seq<string>)
    requires a != [] && Subsequence(a, b)
    ensures Subsequence(a[1..], b)
    decreases |a| + |b|
  {
    if b != [] {
      if a[0] == b[0] {
        if a[1..] != [] {
          SkipHead(a[1..], b);
        }
      } else {
        SubsequenceTail(a, b[1..]);
        SkipHead(a[1..], b);
      }
    }
  }

  /** `FXRand.choice` over the enabled keys: an enabled key, or `undefined` when none is. */
  function Chosen(t: Table, u: real): (r: Option<string>)
    requires 0.0 <= u < 1.0
    ensures r.Some? ==> (r.value, true) in t
    ensures r.None? ==> forall k :: (k, true) !in t
  {
    var keys := Included(t);
    if keys == [] then None else Choice(keys, u)
  }

  /** The name an artwork is saved under: `name + '_' + composition`, where an `undefined`
      composition is spelled out by string concatenation. */
  function SaveName(comp: Option<string>): (r: string)
    ensures |r| > |Name| && r[..|Name| + 1] == Name + "_"
    ensures comp.Some? ==> r[|Name| + 1..] == comp.value
  {
    Name + "_" + (if comp.Some? then comp.value else "undefined")
  }

  /** With the shipped table every draw yields `cells`. */
  lemma OnlyCells(u: real)
    requires 0.0 <= u < 1.0
    ensures Chosen(Compositions, u) == Some("cells")
  {
    var keys := Included(Compositions);
    assert ("cells", true) in Compositions;
    assert forall k :: k in keys ==> k == "cells";
    assert "cells" in keys;
    assert Choice(keys, u).value in keys;
  }

  /** The `settings` object: the composition choice records the name the output is saved as. */
  class Settings {
    var saveName: Option<string>

    constructor ()
      ensures saveName == None
    {
      saveName := None;
    }
  }

  /** `chooseComposition()`: one draw over the enabled compositions, recorded in
      `settings.saveName`. */
  method ChooseComposition(settings: Settings, rng: Rng) returns (comp: Option<string>)
    requires rng.Valid()
    modifies settings, rng
    ensures comp.Some? ==> (comp.value, true) in Compositions
    ensures comp == Some("cells")
    ensures settings.saveName == Some(SaveName(comp))
    ensures rng.cursor == old(rng.cursor) + 1
  {
    var u := rng.Next();
    comp := Chosen(Compositions, u);
    OnlyCells(u);
    settings.saveName := Some(SaveName(comp));
  }

  /** `choosePalette()`: one draw over the enabled palettes. */
  method ChoosePalette(rng: Rng) returns (palette: Option<string>)
    requires rng.Valid()
    modifies rng
    ensures palette.Some? && (palette.value, true) in Palettes
    ensures rng.cursor == old(rng.cursor) + 1
  {
    var u := rng.Next();
    palette := Chosen(Palettes, u);
    assert ("Mono", true) in Palettes;
  }
}
