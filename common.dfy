/** Helpers shared by the whole model: JavaScript's `Math.round`, `Math.max`
    and `Math.min` on the number types the model uses, the `Infinity` sentinel
    the bounded loops return, and the `find`/`findIndex`/`filter` operations the
    stores apply to lists of records. */
module Common {

  datatype Option<T> = None | Some(value: T) {
    /** The value, or `default` when absent (JavaScript's `??` and `||` fall-backs). */
    function GetOr(default: T): T {
      match this
      case Some(v) => v
      case None => default
    }
  }

  /** A whole number of months, or JavaScript's `Infinity` when a loop gives up. */
  datatype Months = Finite(n: nat) | Unbounded

  /** `Math.round`: the nearest integer, a half rounded towards +infinity. */
  function Round(x: real): (r: int)
    ensures r as real - 0.5 <= x < r as real + 0.5
  {
    (x + 0.5).Floor
  }

  lemma RoundMonotone(x: real, y: real)
    requires x <= y
    ensures Round(x) <= Round(y)
  {
  }

  lemma RoundOfWhole(n: int)
    ensures Round(n as real) == n
  {
  }

  /** The product of two non-negative integers is non-negative. */
  lemma IntMulNonnegative(x: int, y: int)
    requires 0 <= x && 0 <= y
    ensures 0 <= x * y
  {
  }

  function Max(a: int, b: int): int {
    if a >= b then a else b
  }

  function MaxReal(a: real, b: real): real {
    if a >= b then a else b
  }

  function MinReal(a: real, b: real): real {
    if a <= b then a else b
  }

  /** `xs.findIndex(x => key(x) === k)`: the first position whose key is `k`, or -1. */
  function FirstIndex<T>(xs: seq<T>, key: T -> string, k: string): (i: int)
    ensures -1 <= i < |xs|
    ensures 0 <= i ==> key(xs[i]) == k
    ensures forall j :: 0 <= j < |xs| && (i < 0 || j < i) ==> key(xs[j]) != k
  {
    if xs == [] then -1
    else if key(xs[0]) == k then 0
    else
      var i := FirstIndex(xs[1..], key, k);
      if i < 0 then -1 else i + 1
  }

  /** `xs.find(x => key(x) === k)`: the first element whose key is `k`. */
  function Find<T>(xs: seq<T>, key: T -> string, k: string): (r: Option<T>)
    ensures r.None? <==> forall j :: 0 <= j < |xs| ==> key(xs[j]) != k
    ensures r.Some? ==> r.value in xs && key(r.value) == k
  {
    var i := FirstIndex(xs, key, k);
    if i < 0 then None else Some(xs[i])
  }

  /** `xs.filter(x => key(x) !== k)`: every element whose key is not `k`, in order. */
  function Remove<T>(xs: seq<T>, key: T -> string, k: string): (r: seq<T>)
    ensures |r| <= |xs|
    ensures forall j :: 0 <= j < |r| ==> r[j] in xs && key(r[j]) != k
    ensures forall j :: 0 <= j < |xs| && key(xs[j]) != k ==> xs[j] in r
  {
    if xs == [] then []
    else (if key(xs[0]) == k then [] else [xs[0]]) + Remove(xs[1..], key, k)
  }

  /** Removing a key no element carries leaves the list as it was. */
  lemma {:induction false} RemoveAbsent<T>(xs: seq<T>, key: T -> string, k: string)
    requires forall j :: 0 <= j < |xs| ==> key(xs[j]) != k
    ensures Remove(xs, key, k) == xs
  {
    if xs != [] {
      RemoveAbsent(xs[1..], key, k);
      assert xs == [xs[0]] + xs[1..];
    }
  }

  /** Removal distributes over concatenation, so the survivors keep their order. */
  lemma {:induction false} RemoveAppend<T>(xs: seq<T>, ys: seq<T>, key: T -> string, k: string)
    ensures Remove(xs + ys, key, k) == Remove(xs, key, k) + Remove(ys, key, k)
  {
    if xs == [] {
      assert xs + ys == ys;
    } else {
      assert (xs + ys)[1..] == xs[1..] + ys;
      RemoveAppend(xs[1..], ys, key, k);
    }
  }

  /** Removing the key of an element appended under a fresh key gives the list back. */
  lemma RemoveAppended<T>(xs: seq<T>, x: T, key: T -> string)
    requires forall j :: 0 <= j < |xs| ==> key(xs[j]) != key(x)
    ensures Remove(xs + [x], key, key(x)) == xs
  {
    RemoveAppend(xs, [x], key, key(x));
    RemoveAbsent(xs, key, key(x));
    assert Remove([x], key, key(x)) == [];
  }

  /** A key that no earlier element carries is found at the element appended last. */
  lemma FindAppended<T>(xs: seq<T>, x: T, key: T -> string)
    requires forall j :: 0 <= j < |xs| ==> key(xs[j]) != key(x)
    ensures Find(xs + [x], key, key(x)) == Some(x)
  {
    assert (xs + [x])[|xs|] == x;
  }

  /** `xs.map(x => key(x) === k ? f(x) : x)`: the elements with key `k` replaced by
      their image under `f`, every other element kept, in order. */
  function MapWhere<T>(xs: seq<T>, key: T -> string, k: string, f: T -> T): (r: seq<T>)
    ensures |r| == |xs|
    ensures forall j :: 0 <= j < |xs| ==> r[j] == if key(xs[j]) == k then f(xs[j]) else xs[j]
  {
    if xs == [] then []
    else
      var x := xs[|xs| - 1];
      MapWhere(xs[..|xs| - 1], key, k, f) + [if key(x) == k then f(x) else x]
  }

  /** Mapping over a key no element carries leaves the list as it was. */
  lemma MapWhereAbsent<T>(xs: seq<T>, key: T -> string, k: string, f: T -> T)
    requires forall j :: 0 <= j < |xs| ==> key(xs[j]) != k
    ensures MapWhere(xs, key, k, f) == xs
  {
  }

  /** Under unique keys, mapping over the key of element `i` replaces that element alone. */
  lemma MapWhereAt<T>(xs: seq<T>, key: T -> string, i: nat, f: T -> T)
    requires i < |xs| && UniqueKeys(xs, key)
    ensures MapWhere(xs, key, key(xs[i]), f) == xs[i := f(xs[i])]
  {
    var r := MapWhere(xs, key, key(xs[i]), f);
    forall j | 0 <= j < |xs|
      ensures r[j] == xs[i := f(xs[i])][j]
    {
      if j != i {
        assert key(xs[j]) != key(xs[i]);
      }
    }
  }

  /** Every key occurs at most once. */
  ghost predicate UniqueKeys<T>(xs: seq<T>, key: T -> string) {
    forall i, j :: 0 <= i < j < |xs| ==> key(xs[i]) != key(xs[j])
  }
}
