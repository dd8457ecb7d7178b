/**
 * The deduplicated, first-seen-order name lists that the parser collects
 * (states, events, entry/exit hooks, guards, actions).
 */
module NameLists {

  /** An identifier of the definition language, as lexed. */
  type Name = string

  /** No name occurs twice. */
  predicate NoDup(xs: seq<Name>) {
    forall i, j :: 0 <= i < j < |xs| ==> xs[i] != xs[j]
  }

  /** Appends `x` unless it is already present: the `iter().find(..).is_none()` then `push` step. */
  function AddNew(xs: seq<Name>, x: Name): (r: seq<Name>)
    ensures x in r
    ensures forall y :: y in r <==> y in xs || y == x
    ensures NoDup(xs) ==> NoDup(r)
    ensures xs <= r
  {
    if x in xs then xs else xs + [x]
  }

  /** The names of `xs`, each exactly once, in order of first appearance. */
  function Dedup(xs: seq<Name>): (r: seq<Name>)
    ensures NoDup(r)
    ensures forall y :: y in r <==> y in xs
  {
    if xs == [] then []
    else
      var init := xs[..|xs| - 1];
      assert xs == init + [xs[|xs| - 1]];
      AddNew(Dedup(init), xs[|xs| - 1])
  }

  /** The index of the first occurrence of `y` in `xs`. */
  function FirstIndex(xs: seq<Name>, y: Name): (k: nat)
    requires y in xs
    ensures k < |xs| && xs[k] == y
    ensures forall m :: 0 <= m < k ==> xs[m] != y
  {
    if xs[0] == y then 0 else 1 + FirstIndex(xs[1..], y)
  }

  lemma FirstIndexOfPrefix(xs: seq<Name>, x: Name, y: Name)
    requires y in xs
    ensures FirstIndex(xs + [x], y) == FirstIndex(xs, y)
  {
    var k := FirstIndex(xs, y);
    assert (xs + [x])[k] == y;
  }

  /**
   * Dedup keeps the order of first appearance: an earlier entry of the
   * deduplicated list first occurs earlier in the input.
   */
  lemma {:induction false} DedupFirstSeenOrder(xs: seq<Name>, i: nat, j: nat)
    requires i < j < |Dedup(xs)|
    ensures FirstIndex(xs, Dedup(xs)[i]) < FirstIndex(xs, Dedup(xs)[j])
  {
    var n := |xs|;
    var init, x := xs[..n - 1], xs[n - 1];
    assert xs == init + [x];
    var d := Dedup(init);
    assert Dedup(xs) == AddNew(d, x);
    assert Dedup(xs)[i] == d[i];
    FirstIndexOfPrefix(init, x, d[i]);
    if j < |d| {
      assert Dedup(xs)[j] == d[j];
      FirstIndexOfPrefix(init, x, d[j]);
      DedupFirstSeenOrder(init, i, j);
    } else {
      assert Dedup(xs)[j] == x && x !in init;
      assert FirstIndex(xs, x) == n - 1 by {
        assert xs[n - 1] == x;
        forall m | 0 <= m < n - 1 ensures xs[m] != x {
          assert xs[m] == init[m];
        }
      }
    }
  }
}
