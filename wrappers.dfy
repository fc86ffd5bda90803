/** The optional value used where the source returns `undefined` or `null`. */
module Wrappers {

  datatype Option<+T> = None | Some(value: T)

  /** The values of the `Some` entries, in order: what a loop that skips failures collects. */
  function Somes<T>(opts: seq<Option<T>>): (r: seq<T>)
    ensures |r| <= |opts|
  {
    if |opts| == 0 then []
    else
      var last := opts[|opts| - 1];
      Somes(opts[..|opts| - 1]) + (if last.Some? then [last.value] else [])
  }

  lemma {:induction false} SomesMember<T>(opts: seq<Option<T>>, x: T)
    ensures x in Somes(opts) <==> Some(x) in opts
  {
    if |opts| > 0 {
      var init := opts[..|opts| - 1];
      SomesMember(init, x);
      assert opts == init + [opts[|opts| - 1]];
    }
  }

  /** One more entry adds its value, if any, at the end. */
  lemma SomesStep<T>(opts: seq<Option<T>>, i: nat)
    requires i < |opts|
    ensures Somes(opts[..i + 1]) == Somes(opts[..i]) + (if opts[i].Some? then [opts[i].value] else [])
  {
    assert opts[..i + 1][..i] == opts[..i];
  }

  lemma {:induction false} SomesAll<T>(xs: seq<T>, opts: seq<Option<T>>)
    requires |opts| == |xs|
    requires forall i :: 0 <= i < |xs| ==> opts[i] == Some(xs[i])
    ensures Somes(opts) == xs
  {
    if |xs| > 0 {
      SomesAll(xs[..|xs| - 1], opts[..|opts| - 1]);
    }
  }

  /** The pieces one after the other: what a loop that appends each piece's items builds. */
  function Flatten<T>(pieces: seq<seq<T>>): seq<T> {
    if |pieces| == 0 then [] else Flatten(pieces[..|pieces| - 1]) + pieces[|pieces| - 1]
  }

  lemma FlattenStep<T>(pieces: seq<seq<T>>, i: nat)
    requires i < |pieces|
    ensures Flatten(pieces[..i + 1]) == Flatten(pieces[..i]) + pieces[i]
  {
    assert pieces[..i + 1][..i] == pieces[..i];
  }

  lemma {:induction false} FlattenEmpty<T>(pieces: seq<seq<T>>)
    ensures Flatten(pieces) == [] <==> forall j :: 0 <= j < |pieces| ==> pieces[j] == []
  {
    if |pieces| > 0 {
      FlattenEmpty(pieces[..|pieces| - 1]);
    }
  }

  lemma {:induction false} FlattenMember<T>(pieces: seq<seq<T>>, x: T)
    ensures x in Flatten(pieces) <==> exists j :: 0 <= j < |pieces| && x in pieces[j]
  {
    if |pieces| > 0 {
      var init := pieces[..|pieces| - 1];
      FlattenMember(init, x);
      if x in Flatten(init) {
        var j :| 0 <= j < |init| && x in init[j];
        assert pieces[j] == init[j];
      }
      if j :| 0 <= j < |pieces| && x in pieces[j] {
        if j < |init| {
          assert init[j] == pieces[j];
        }
      }
    }
  }

  /** When every item records the position of its piece, an item is in the flattening exactly when its own piece holds it. */
  lemma FlattenNumbered<T>(pieces: seq<seq<T>>, x: T, position: T -> int)
    requires forall j, y :: 0 <= j < |pieces| && y in pieces[j] ==> position(y) == j
    ensures x in Flatten(pieces) <==> 0 <= position(x) < |pieces| && x in pieces[position(x)]
  {
    FlattenMember(pieces, x);
  }
}
