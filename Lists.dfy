/** `List<T>.Remove` as the model classes use it. Neither FoodItem nor Meal
    overrides `Equals`, so the default comparer is reference identity, which is
    what `==` on Dafny class references is. */
module Lists {

  /** `List<T>.IndexOf`: the position of the first occurrence of `x`. */
  function IndexOf<T(==)>(s: seq<T>, x: T): (k: nat)
    requires x in s
    ensures k < |s| && s[k] == x
    ensures forall j :: 0 <= j < k ==> s[j] != x
  {
    if s[0] == x then 0 else 1 + IndexOf(s[1..], x)
  }

  /** `List<T>.Remove`: drop the first occurrence of `x`, if any. */
  function RemoveFirst<T(==)>(s: seq<T>, x: T): (r: seq<T>)
    ensures |r| == if x in s then |s| - 1 else |s|
    ensures forall y :: y in r ==> y in s
  {
    if s == [] then []
    else if s[0] == x then s[1..]
    else [s[0]] + RemoveFirst(s[1..], x)
  }

  /** Removing an absent element changes nothing. */
  lemma {:induction false} RemoveFirstAbsent<T>(s: seq<T>, x: T)
    requires x !in s
    ensures RemoveFirst(s, x) == s
  {
    if s != [] {
      RemoveFirstAbsent(s[1..], x);
    }
  }

  /** Removing a present element cuts out exactly the first occurrence and
      keeps the order of everything else. */
  lemma {:induction false} RemoveFirstPresent<T>(s: seq<T>, x: T)
    requires x in s
    ensures RemoveFirst(s, x) == s[..IndexOf(s, x)] + s[IndexOf(s, x) + 1..]
    ensures |RemoveFirst(s, x)| == |s| - 1
  {
    if s[0] != x {
      RemoveFirstPresent(s[1..], x);
      assert s[1..][..IndexOf(s[1..], x)] == s[1..IndexOf(s, x)];
    }
  }

  /** Appending an element that was not there and then removing it gives
      back the original list. */
  lemma {:induction false} RemoveFirstAfterAppend<T>(s: seq<T>, x: T)
    requires x !in s
    ensures RemoveFirst(s + [x], x) == s
  {
    if s != [] {
      RemoveFirstAfterAppend(s[1..], x);
      assert (s + [x])[1..] == s[1..] + [x];
    }
  }

  /** Removal takes away exactly one copy of `x` and nothing else. */
  lemma {:induction false} RemoveFirstMultiset<T>(s: seq<T>, x: T)
    requires x in s
    ensures multiset(RemoveFirst(s, x)) == multiset(s) - multiset{x}
  {
    if s[0] != x {
      RemoveFirstMultiset(s[1..], x);
      assert s == [s[0]] + s[1..];
    } else {
      assert s == [s[0]] + s[1..];
    }
  }

  /** LINQ `Sum` over plain numbers, accumulated from the first to the last. */
  function Sum(xs: seq<real>): (r: real)
  {
    if xs == [] then 0.0 else Sum(xs[..|xs| - 1]) + xs[|xs| - 1]
  }

  /** How many times `x` occurs in `s`. */
  function Occurrences<T(==)>(s: seq<T>, x: T): (c: nat)
    ensures c == multiset(s)[x]
  {
    if s == [] then 0
    else
      var init := s[..|s| - 1];
      assert s == init + [s[|s| - 1]];
      Occurrences(init, x) + (if s[|s| - 1] == x then 1 else 0)
  }

  /** `d` added `k` times over. */
  function Times(k: nat, d: real): (r: real)
    ensures r == (k as real) * d
  {
    if k == 0 then 0.0
    else
      var r := Times(k - 1, d) + d;
      assert ((k - 1) as real + 1.0) * d == ((k - 1) as real) * d + d;
      r
  }

  /** If every entry of `after` equals the entry of `before` at the same
      position, plus `d` exactly where `xs` holds `x`, the sums differ by `d`
      once for each occurrence of `x`. */
  lemma {:induction false} SumShift<T>(before: seq<real>, after: seq<real>, xs: seq<T>, x: T, d: real)
    requires |before| == |after| == |xs|
    requires forall k :: 0 <= k < |xs| ==> after[k] == before[k] + (if xs[k] == x then d else 0.0)
    ensures Sum(after) == Sum(before) + Times(Occurrences(xs, x), d)
  {
    if xs != [] {
      var j := |xs| - 1;
      SumShift(before[..j], after[..j], xs[..j], x, d);
    }
  }
}
