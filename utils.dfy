/** `Helpers.Math.Contain` and `IsNotNull` (src/lib/Utils.ts). */
module Utils {
  import opened Wrappers

  /** `Math.max(min, Math.min(value, max))`: caps `value` into `[min, max]`. */
  function Contain(value: int, min: int, max: int): (r: int)
    ensures r >= min
    ensures min <= max ==> r <= max
    ensures min <= value <= max ==> r == value
    ensures value < min ==> r == min
    ensures min <= max < value ==> r == max
    ensures min > max ==> r == min
  {
    if value < max then (if min < value then value else min)
    else (if min < max then max else min)
  }

  /** Capping twice with the same bounds is capping once. */
  lemma ContainIdempotent(value: int, min: int, max: int)
    ensures Contain(Contain(value, min, max), min, max) == Contain(value, min, max)
  {
  }

  /**
   * `values.filter(IsNotNull)`: the present values, in order. `IsNotNull(v)` is `v != null`,
   * which holds for anything but `null` and `undefined`, both modelled by `None`.
   */
  function FilterNotNull<T>(values: seq<Option<T>>): (r: seq<T>)
    ensures |r| <= |values|
    ensures forall k :: 0 <= k < |r| ==> Some(r[k]) in values
    ensures forall k :: 0 <= k < |values| && values[k].Some? ==> values[k].value in r
    ensures |r| == |values| <==> forall k :: 0 <= k < |values| ==> values[k].Some?
  {
    if values == [] then []
    else
      var rest := FilterNotNull(values[1..]);
      assert values == [values[0]] + values[1..];
      match values[0]
      case None => rest
      case Some(v) => [v] + rest
  }

  /** Filtering distributes over concatenation, so the relative order of kept values is unchanged. */
  lemma {:induction false} FilterNotNullAppend<T>(a: seq<Option<T>>, b: seq<Option<T>>)
    ensures FilterNotNull(a + b) == FilterNotNull(a) + FilterNotNull(b)
  {
    if a != [] {
      AppendTail(a, b);
      FilterNotNullAppend(a[1..], b);
      if a[0].Some? {
        AppendAssoc([a[0].value], FilterNotNull(a[1..]), FilterNotNull(b));
      }
    } else {
      assert a + b == b;
    }
  }

  /** The values of a sequence with no `None` are kept one for one, in order. */
  lemma {:induction false} FilterNotNullAllPresent<T>(values: seq<Option<T>>)
    requires forall k :: 0 <= k < |values| ==> values[k].Some?
    ensures |FilterNotNull(values)| == |values|
    ensures forall k :: 0 <= k < |values| ==> FilterNotNull(values)[k] == values[k].value
  {
    if values != [] {
      FilterNotNullAllPresent(values[1..]);
    }
  }

  /** Concatenation regrouped. */
  lemma AppendAssoc<T>(x: seq<T>, y: seq<T>, z: seq<T>)
    ensures x + y + z == x + (y + z)
  {
  }

  /** The head and the tail of a concatenation whose first part is not empty. */
  lemma AppendTail<T>(a: seq<T>, b: seq<T>)
    requires a != []
    ensures (a + b)[0] == a[0] && (a + b)[1..] == a[1..] + b
  {
  }

  /** A non-empty sequence is the items before its last one, then the last one. */
  lemma PrefixAndLast<T>(s: seq<T>)
    requires s != []
    ensures s[..|s| - 1] + [s[|s| - 1]] == s
  {
  }

  /** A member of a sequence sits at some index. */
  lemma MemberAt<T>(v: T, s: seq<T>) returns (k: nat)
    requires v in s
    ensures k < |s| && s[k] == v
  {
    k :| 0 <= k < |s| && s[k] == v;
  }
}
