/**
 * String helpers with the semantics of the JavaScript built-ins the source relies on:
 * `Array.prototype.join`, `String.prototype.split` with a non-empty separator and no
 * limit, `String.prototype.includes`, and the decimal rendering of a non-negative
 * integer inside a template literal.
 */
module Text {
  import opened Wrappers

  /** `sep` occurs in `s` starting at position `i`. */
  predicate OccursAt(s: string, sep: string, i: int)
  {
    0 <= i && i + |sep| <= |s| && s[i..i + |sep|] == sep
  }

  /** `s.includes(sep)`. */
  predicate Contains(s: string, sep: string)
  {
    exists i :: 0 <= i <= |s| && OccursAt(s, sep, i)
  }

  /** Occurrences in `s[1..]` are the occurrences in `s` shifted left by one. */
  lemma OccursInTail(s: string, sep: string)
    requires |s| >= 1
    ensures forall i :: 1 <= i ==> (OccursAt(s, sep, i) <==> OccursAt(s[1..], sep, i - 1))
  {
    forall i | 1 <= i
      ensures OccursAt(s, sep, i) <==> OccursAt(s[1..], sep, i - 1)
    {
      if i + |sep| <= |s| {
        assert s[1..][i - 1..i - 1 + |sep|] == s[i..i + |sep|];
      }
    }
  }

  /** `s.indexOf(sep)`: the first position where `sep` occurs, or `None` (-1 in JavaScript). */
  function IndexOf(s: string, sep: string): (r: Option<nat>)
    requires |sep| > 0
    ensures r.Some? ==> OccursAt(s, sep, r.value)
    ensures forall i :: 0 <= i && (r.None? || i < r.value) ==> !OccursAt(s, sep, i)
    decreases |s|
  {
    if |s| < |sep| then None
    else if s[..|sep|] == sep then Some(0)
    else
      OccursInTail(s, sep);
      match IndexOf(s[1..], sep)
      case None => None
      case Some(i) => Some(i + 1)
  }

  /** An occurrence with none before it is the one `IndexOf` finds. */
  lemma IndexOfIsFirst(s: string, sep: string, k: nat)
    requires |sep| > 0
    requires OccursAt(s, sep, k)
    requires forall i :: 0 <= i < k ==> !OccursAt(s, sep, i)
    ensures IndexOf(s, sep) == Some(k)
  {
  }

  /** `s.split(sep)` for a non-empty separator and no limit. */
  function Split(s: string, sep: string): (r: seq<string>)
    requires |sep| > 0
    ensures |r| >= 1
    decreases |s|
  {
    match IndexOf(s, sep)
    case None => [s]
    case Some(i) => [s[..i]] + Split(s[i + |sep|..], sep)
  }

  /** `parts.join(sep)`. */
  function Join(parts: seq<string>, sep: string): string
  {
    if |parts| == 0 then ""
    else if |parts| == 1 then parts[0]
    else parts[0] + sep + Join(parts[1..], sep)
  }

  /** Joining a concatenation puts one separator between the two joined halves. */
  lemma {:induction false} JoinAppend(a: seq<string>, b: seq<string>, sep: string)
    requires |a| >= 1 && |b| >= 1
    ensures Join(a + b, sep) == Join(a, sep) + sep + Join(b, sep)
  {
    if |a| == 1 {
      assert (a + b)[1..] == b;
    } else {
      assert (a + b)[1..] == a[1..] + b;
      JoinAppend(a[1..], b, sep);
    }
  }

  /** Joining a first part before at least one more puts one separator after it. */
  lemma JoinCons(x: string, rest: seq<string>, sep: string)
    requires |rest| >= 1
    ensures Join([x] + rest, sep) == x + sep + Join(rest, sep)
  {
    assert ([x] + rest)[1..] == rest;
  }

  /** A string with `sep` at position `i` is the text before, `sep`, and the text after. */
  lemma AroundOccurrence(s: string, sep: string, i: int)
    requires OccursAt(s, sep, i)
    ensures s == s[..i] + sep + s[i + |sep|..]
  {
    assert s == s[..i] + s[i..i + |sep|] + s[i + |sep|..];
  }

  /** Splitting and re-joining with the same separator gives back the string. */
  lemma {:induction false} JoinSplit(s: string, sep: string)
    requires |sep| > 0
    ensures Join(Split(s, sep), sep) == s
    decreases |s|
  {
    match IndexOf(s, sep)
    case None =>
    case Some(i) =>
      var rest := s[i + |sep|..];
      JoinSplit(rest, sep);
      JoinCons(s[..i], Split(rest, sep), sep);
      AroundOccurrence(s, sep, i);
  }

  /**
   * The first piece of `s.split(sep)` is the whole string exactly when `sep` does not
   * occur; otherwise it is the text before the first occurrence.
   */
  lemma SplitHead(s: string, sep: string)
    requires |sep| > 0
    ensures Split(s, sep)[0] == s <==> !Contains(s, sep)
    ensures IndexOf(s, sep).Some? ==> Split(s, sep)[0] == s[..IndexOf(s, sep).value]
    ensures IndexOf(s, sep).None? <==> !Contains(s, sep)
  {
    match IndexOf(s, sep)
    case None =>
    case Some(i) =>
      assert OccursAt(s, sep, i);
      assert |Split(s, sep)[0]| == i < |s|;
  }

  /** A string without the character `c` holds no occurrence of `[c]`. */
  lemma NoCharNoOccurrence(s: string, c: char)
    requires c !in s
    ensures forall i :: !OccursAt(s, [c], i)
  {
    forall i
      ensures !OccursAt(s, [c], i)
    {
      if 0 <= i < |s| {
        assert s[i..i + 1] == [s[i]];
      }
    }
  }

  /**
   * Joining parts that do not contain a one-character separator and splitting the
   * result on it gives back the parts.
   */
  lemma {:induction false} SplitJoin(parts: seq<string>, c: char)
    requires |parts| >= 1
    requires forall k :: 0 <= k < |parts| ==> c !in parts[k]
    ensures Split(Join(parts, [c]), [c]) == parts
  {
    NoCharNoOccurrence(parts[0], c);
    if |parts| > 1 {
      var head := parts[0];
      var rest := Join(parts[1..], [c]);
      var s := Join(parts, [c]);
      assert s == head + [c] + rest;
      forall i | 0 <= i < |head|
        ensures !OccursAt(s, [c], i)
      {
        assert s[i..i + 1][0] == head[i];
      }
      assert s[|head|..|head| + 1] == [c];
      IndexOfIsFirst(s, [c], |head|);
      assert s[..|head|] == head;
      assert s[|head| + 1..] == rest;
      SplitJoin(parts[1..], c);
    }
  }

  /** A decimal digit. */
  predicate IsDigit(ch: char)
  {
    '0' <= ch <= '9'
  }

  /** The digit character for `d < 10`. */
  function DigitChar(d: nat): (ch: char)
    requires d < 10
    ensures IsDigit(ch) && ch as int - '0' as int == d
  {
    ('0' as int + d) as char
  }

  /** The decimal text of `n`, as a template literal renders a non-negative integer. */
  function NatToDecimal(n: nat): (r: string)
    ensures |r| >= 1
    ensures forall k :: 0 <= k < |r| ==> IsDigit(r[k])
    ensures r[0] == '0' ==> n == 0
    decreases n
  {
    if n < 10 then [DigitChar(n)] else NatToDecimal(n / 10) + [DigitChar(n % 10)]
  }

  /** The number a string of decimal digits denotes. */
  function DecimalValue(s: string): nat
    requires forall k :: 0 <= k < |s| ==> IsDigit(s[k])
  {
    if s == [] then 0
    else
      assert IsDigit(s[|s| - 1]);
      DecimalValue(s[..|s| - 1]) * 10 + (s[|s| - 1] as int - '0' as int)
  }

  /** Reading back the decimal text of `n` gives `n`. */
  lemma {:induction false} DecimalRoundTrip(n: nat)
    ensures DecimalValue(NatToDecimal(n)) == n
    decreases n
  {
    var r := NatToDecimal(n);
    if n >= 10 {
      DecimalRoundTrip(n / 10);
      assert r[..|r| - 1] == NatToDecimal(n / 10);
    }
  }

  /** Lower-casing of one ASCII letter; every other character is kept. */
  function LowerChar(c: char): char
  {
    if 'A' <= c <= 'Z' then (c as int + 32) as char else c
  }

  /** `s` with its ASCII letters lower-cased. */
  function LowerAscii(s: string): (r: string)
    ensures |r| == |s|
    ensures forall k :: 0 <= k < |s| ==> r[k] == LowerChar(s[k])
  {
    seq(|s|, k requires 0 <= k < |s| => LowerChar(s[k]))
  }
}
