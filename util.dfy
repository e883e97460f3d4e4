/** The generic helpers the generator imports: lookup by id, joining lines,
    and the generator of fresh constraint names. */
module Util {

  datatype Option<T> = None | Some(value: T)

  /** getData: the first element of `xs` whose id is `id`, or None. */
  function GetData<T>(xs: seq<T>, idOf: T -> string, id: string): (r: Option<T>)
    ensures r.None? <==> forall i :: 0 <= i < |xs| ==> idOf(xs[i]) != id
    ensures r.Some? ==> exists i :: 0 <= i < |xs| && xs[i] == r.value && idOf(xs[i]) == id &&
                                    forall j :: 0 <= j < i ==> idOf(xs[j]) != id
  {
    if xs == [] then None
    else if idOf(xs[0]) == id then Some(xs[0])
    else
      var r := GetData(xs[1..], idOf, id);
      assert r.Some? ==> exists i :: 0 <= i < |xs[1..]| && xs[1..][i] == r.value && idOf(xs[1..][i]) == id &&
                                     forall j :: 0 <= j < i ==> idOf(xs[1..][j]) != id;
      assert r.Some? ==> exists i :: 1 <= i < |xs| && xs[i] == r.value && idOf(xs[i]) == id &&
                                     forall j :: 0 <= j < i ==> idOf(xs[j]) != id by {
        if r.Some? {
          var i :| 0 <= i < |xs[1..]| && xs[1..][i] == r.value && idOf(xs[1..][i]) == id &&
                   forall j :: 0 <= j < i ==> idOf(xs[1..][j]) != id;
          assert forall j :: 1 <= j < i + 1 ==> idOf(xs[j]) == idOf(xs[1..][j - 1]);
        }
      }
      r
  }

  /** The lists `f(x)` for the elements `x` of `xs`, in order, run together. */
  function FlatMap<T>(xs: seq<T>, f: T -> seq<string>): seq<string>
  {
    if xs == [] then [] else FlatMap(xs[..|xs| - 1], f) + f(xs[|xs| - 1])
  }

  lemma {:induction false} FlatMapSnoc<T>(xs: seq<T>, i: nat, f: T -> seq<string>)
    requires i < |xs|
    ensures FlatMap(xs[..i + 1], f) == FlatMap(xs[..i], f) + f(xs[i])
  {
    assert xs[..i + 1][..i] == xs[..i];
  }

  /** FlatMap of a concatenation is the concatenation of the FlatMaps. */
  lemma {:induction false} FlatMapConcat<T>(xs: seq<T>, ys: seq<T>, f: T -> seq<string>)
    ensures FlatMap(xs + ys, f) == FlatMap(xs, f) + FlatMap(ys, f)
    decreases |ys|
  {
    if ys == [] {
      assert xs + ys == xs;
    } else {
      var init := ys[..|ys| - 1];
      assert (xs + ys)[..|xs + ys| - 1] == xs + init;
      FlatMapConcat(xs, init, f);
    }
  }

  /** Array.prototype.join: the parts separated by `sep`; the empty list gives "". */
  function Join(parts: seq<string>, sep: string): string
  {
    if |parts| == 0 then ""
    else if |parts| == 1 then parts[0]
    else parts[0] + sep + Join(parts[1..], sep)
  }

  lemma {:induction false} JoinAppend(parts: seq<string>, x: string, sep: string)
    requires |parts| > 0
    ensures Join(parts + [x], sep) == Join(parts, sep) + sep + x
  {
    if |parts| == 1 {
      assert (parts + [x])[1..] == [x];
    } else {
      assert (parts + [x])[1..] == parts[1..] + [x];
      JoinAppend(parts[1..], x, sep);
    }
  }

  /** Joining two non-empty line lists puts exactly one separator between them. */
  lemma {:induction false} JoinConcat(a: seq<string>, b: seq<string>, sep: string)
    requires |a| > 0 && |b| > 0
    ensures Join(a + b, sep) == Join(a, sep) + sep + Join(b, sep)
    decreases |a|
  {
    if |a| == 1 {
      assert (a + b)[1..] == b;
    } else {
      assert (a + b)[1..] == a[1..] + b;
      JoinConcat(a[1..], b, sep);
    }
  }

  function Digit(d: nat): char
    requires d < 10
  {
    "0123456789"[d]
  }

  /** The decimal numeral of `n`, without leading zeros. */
  function NatToString(n: nat): (r: string)
    ensures |r| >= 1
  {
    if n < 10 then [Digit(n)] else NatToString(n / 10) + [Digit(n % 10)]
  }

  function Pow10(k: nat): (r: nat)
    ensures r >= 1
  {
    if k == 0 then 1 else 10 * Pow10(k - 1)
  }

  /** A number at least 10^k has more than k decimal digits. */
  lemma {:induction false} NatToStringLength(n: nat, k: nat)
    requires n >= Pow10(k)
    ensures |NatToString(n)| > k
  {
    if k > 0 {
      NatToStringLength(n / 10, k - 1);
    }
  }

  /** An upper bound on the length of every name in `names`. */
  function LongestName(names: seq<string>): (m: nat)
    ensures forall s :: s in names ==> |s| <= m
  {
    if names == [] then 0
    else
      var rest := LongestName(names[1..]);
      assert forall s :: s in names ==> s == names[0] || s in names[1..];
      if |names[0]| > rest then |names[0]| else rest
  }

  /** autoName: `base` itself when no name in `names` equals it; otherwise a
      name not in `names`. The suffix form, `base` with the least `_k` (k >= 1)
      that is not taken, is an assumed format: only freshness is relied on. */
  function AutoName(names: seq<string>, base: string): (r: string)
    ensures r !in names
    ensures base !in names ==> r == base
  {
    if base !in names then base else Suffixed(names, base, 1)
  }

  /** The first of `base_k`, `base_(k+1)`, ... not in `names`. The search is
      bounded: a suffix with more digits than the longest name is always free. */
  function Suffixed(names: seq<string>, base: string, k: nat): (r: string)
    requires 1 <= k <= Pow10(LongestName(names))
    ensures r !in names
    ensures exists j: nat :: k <= j && r == base + "_" + NatToString(j)
    decreases Pow10(LongestName(names)) - k
  {
    var candidate := base + "_" + NatToString(k);
    if candidate !in names then candidate
    else
      assert k < Pow10(LongestName(names)) by {
        if k == Pow10(LongestName(names)) {
          NatToStringLength(k, LongestName(names));
        }
      }
      Suffixed(names, base, k + 1)
  }
}
