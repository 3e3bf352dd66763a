// Shared vocabulary of the model: optional values, results of Java calls that
// may throw, Java's 32-bit `int`, and the handful of `java.lang.String`
// operations the SDK relies on (lower-casing, substring search, literal
// replacement, `replaceAll("/$", "")` and `split(":")`).

module Common {

  datatype Option<+T> = None | Some(value: T)

  /** The Java exception a failing step throws; the argument checks keep
      their message. */
  datatype Exception =
    | NullPointer
    | NumberFormat
    | DateTimeParse
    | Arithmetic
    | ArrayIndexOutOfBounds
    | IllegalArgument(message: string)
    | IllegalState(message: string)

  /** The outcome of a Java computation that either returns or throws. */
  datatype Result<+T> = Ok(value: T) | Fail(reason: Exception)

  // ---------------------------------------------------------------------
  // Java `int`
  // ---------------------------------------------------------------------

  const INT32_MIN: int := -0x8000_0000
  const INT32_MAX: int := 0x7fff_ffff

  predicate IsInt32(x: int) { INT32_MIN <= x <= INT32_MAX }

  type Int32 = x: int | IsInt32(x)

  /** Two's-complement truncation to 32 bits, as Java's `int` arithmetic does. */
  function WrapInt32(x: int): (r: Int32)
    ensures IsInt32(x) ==> r == x
    ensures (r - x) % 0x1_0000_0000 == 0
  {
    (x + 0x8000_0000) % 0x1_0000_0000 - 0x8000_0000
  }

  /** Java's `a + b` on two `int`s. */
  function AddInt32(a: Int32, b: Int32): Int32 { WrapInt32(a + b) }

  lemma AddInt32Wraps(a: Int32, b: Int32)
    requires a + b > INT32_MAX
    ensures AddInt32(a, b) == a + b - 0x1_0000_0000
    ensures AddInt32(a, b) < 0
  {
    assert IsInt32(a) && IsInt32(b);
    var x := a + b + 0x8000_0000;
    assert 0x1_0000_0000 <= x < 2 * 0x1_0000_0000;
    assert x % 0x1_0000_0000 == x - 0x1_0000_0000;
  }

  // ---------------------------------------------------------------------
  // Strings
  // ---------------------------------------------------------------------

  /** `String.valueOf` of a possibly-null string: Java prints null as "null". */
  function OrNull(s: Option<string>): string
  {
    if s.Some? then s.value else "null"
  }

  /** `s != null ? s : dflt` */
  function OrElse(s: Option<string>, dflt: string): string
  {
    if s.Some? then s.value else dflt
  }

  /** Lower-casing of one character; only ASCII letters are folded. */
  function LowerChar(c: char): char
  {
    if 'A' <= c <= 'Z' then (c as int + 32) as char else c
  }

  function Lower(s: string): (r: string)
    ensures |r| == |s|
    ensures forall i :: 0 <= i < |s| ==> r[i] == LowerChar(s[i])
  {
    seq(|s|, i requires 0 <= i < |s| => LowerChar(s[i]))
  }

  function EqualsIgnoreCase(a: string, b: string): (r: bool)
    ensures r <==> |a| == |b| && forall i :: 0 <= i < |a| ==> LowerChar(a[i]) == LowerChar(b[i])
  {
    Lower(a) == Lower(b)
  }

  predicate StartsWith(s: string, prefix: string) { prefix <= s }

  predicate EndsWith(s: string, suffix: string)
  {
    |suffix| <= |s| && s[|s| - |suffix|..] == suffix
  }

  /** `s.contains(sub)`, by searching each start position from the left. */
  predicate Contains(s: string, sub: string)
    decreases |s|
  {
    sub <= s || (|s| > 0 && Contains(s[1..], sub))
  }

  lemma {:induction false} ContainsAt(s: string, sub: string, i: nat)
    requires i + |sub| <= |s| && s[i..i + |sub|] == sub
    ensures Contains(s, sub)
    decreases i
  {
    if i == 0 {
      assert sub <= s;
    } else {
      assert s[1..][i - 1..i - 1 + |sub|] == s[i..i + |sub|];
      ContainsAt(s[1..], sub, i - 1);
    }
  }

  lemma ContainsOwnSuffix(a: string, b: string)
    ensures Contains(a + b, b)
  {
    assert (a + b)[|a|..|a| + |b|] == b;
    ContainsAt(a + b, b, |a|);
  }

  lemma EndsWithOwnSuffix(a: string, b: string)
    ensures EndsWith(a + b, b)
  {
    assert (a + b)[|a + b| - |b|..] == b;
  }

  /** `s.replace(target, replacement)` for a non-empty literal target:
      every non-overlapping occurrence, scanning from the left. */
  function ReplaceAll(s: string, target: string, replacement: string): (r: string)
    requires |target| > 0
    ensures replacement == target ==> r == s
    decreases |s|
  {
    if |s| == 0 then []
    else if target <= s then replacement + ReplaceAll(s[|target|..], target, replacement)
    else [s[0]] + ReplaceAll(s[1..], target, replacement)
  }

  lemma {:induction false} ReplaceAllRemoves(s: string, target: string, replacement: string)
    requires |target| == 1 && |replacement| == 1 && replacement != target
    ensures |ReplaceAll(s, target, replacement)| == |s|
    ensures target[0] !in ReplaceAll(s, target, replacement)
    decreases |s|
  {
    if |s| > 0 {
      assert target <= s <==> s[0] == target[0];
      ReplaceAllRemoves(s[1..], target, replacement);
      assert s[|target|..] == s[1..];
    }
  }

  /** Replacing one character by one character rewrites each position on
      its own: an occurrence of the target becomes the replacement and every
      other character stays. */
  lemma {:induction false} ReplaceAllPointwise(s: string, target: string, replacement: string)
    requires |target| == 1 && |replacement| == 1
    ensures |ReplaceAll(s, target, replacement)| == |s|
    ensures forall i :: 0 <= i < |s| ==>
      ReplaceAll(s, target, replacement)[i] == (if s[i] == target[0] then replacement[0] else s[i])
    decreases |s|
  {
    if |s| > 0 {
      assert target <= s <==> s[0] == target[0];
      assert s[|target|..] == s[1..];
      ReplaceAllPointwise(s[1..], target, replacement);
      var out := ReplaceAll(s, target, replacement);
      var rest := ReplaceAll(s[1..], target, replacement);
      assert out == (if s[0] == target[0] then replacement else [s[0]]) + rest;
      forall i | 1 <= i < |s|
        ensures out[i] == (if s[i] == target[0] then replacement[0] else s[i])
      {
        assert out[i] == rest[i - 1] && s[1..][i - 1] == s[i];
      }
    }
  }

  /** A character that neither the text nor the replacement holds does not
      appear after replacing. */
  lemma {:induction false} ReplaceAllKeepsAbsent(s: string, target: string, replacement: string, c: char)
    requires |target| > 0 && c !in s && c !in replacement
    ensures c !in ReplaceAll(s, target, replacement)
    decreases |s|
  {
    if |s| > 0 {
      if target <= s {
        ReplaceAllKeepsAbsent(s[|target|..], target, replacement, c);
      } else {
        ReplaceAllKeepsAbsent(s[1..], target, replacement, c);
      }
    }
  }

  /** Java line terminators as recognised by `$` in `java.util.regex`. */
  predicate IsLineTerminator(c: char)
  {
    c == '\n' || c == '\r' || c == '\U{0085}' || c == '\U{2028}' || c == '\U{2029}'
  }

  /** `s.replaceAll("/$", "")`: `$` matches at the very end or just before a
      final line terminator, so at most one '/' is removed. */
  function StripTrailingSlash(s: string): (r: string)
    ensures |r| == |s| || |r| + 1 == |s|
    ensures EndsWith(s, "/") ==> r == s[..|s| - 1]
  {
    if |s| >= 1 && s[|s| - 1] == '/' then s[..|s| - 1]
    else if |s| >= 3 && s[|s| - 2..] == "\r\n" && s[|s| - 3] == '/' then s[..|s| - 3] + "\r\n"
    else if |s| >= 2 && IsLineTerminator(s[|s| - 1]) && s[|s| - 2] == '/' then s[..|s| - 2] + [s[|s| - 1]]
    else s
  }

  lemma StripTrailingSlashKeeps(s: string)
    requires !EndsWith(s, "/") && (|s| == 0 || !IsLineTerminator(s[|s| - 1]))
    ensures StripTrailingSlash(s) == s
  {
  }

  // ---------------------------------------------------------------------
  // `String.split` on a single literal character
  // ---------------------------------------------------------------------

  function IndexOfChar(s: string, c: char): (r: Option<nat>)
    ensures r.None? <==> c !in s
    ensures r.Some? ==> r.value < |s| && s[r.value] == c && c !in s[..r.value]
  {
    if |s| == 0 then None
    else if s[0] == c then Some(0)
    else
      var rest := IndexOfChar(s[1..], c);
      if rest.None? then None else
      assert s[..rest.value + 1] == [s[0]] + s[1..][..rest.value];
      Some(rest.value + 1)
  }

  /** Every field between separators, empty ones included. */
  function SplitAll(s: string, sep: char): (parts: seq<string>)
    ensures |parts| >= 1
    ensures forall i :: 0 <= i < |parts| ==> sep !in parts[i]
    decreases |s|
  {
    match IndexOfChar(s, sep)
    case None => [s]
    case Some(i) => [s[..i]] + SplitAll(s[i + 1..], sep)
  }

  function DropTrailingEmpty(parts: seq<string>): (r: seq<string>)
    ensures r <= parts
    ensures |r| > 0 ==> r[|r| - 1] != ""
    ensures forall k :: |r| <= k < |parts| ==> parts[k] == ""
  {
    if |parts| == 0 then []
    else if parts[|parts| - 1] == "" then DropTrailingEmpty(parts[..|parts| - 1])
    else parts
  }

  /** `s.split(String.valueOf(sep))` with limit 0: without a match the whole
      string is the single part; otherwise trailing empty parts are removed. */
  function JavaSplit(s: string, sep: char): (parts: seq<string>)
    ensures sep !in s ==> parts == [s]
    ensures forall i :: 0 <= i < |parts| ==> sep !in parts[i]
    ensures sep in s && |parts| > 0 ==> parts[|parts| - 1] != ""
  {
    if sep !in s then [s] else DropTrailingEmpty(SplitAll(s, sep))
  }

  lemma SplitAllCons(a: string, sep: char, rest: string)
    requires sep !in a
    ensures SplitAll(a + [sep] + rest, sep) == [a] + SplitAll(rest, sep)
  {
    var s := a + [sep] + rest;
    assert s[|a|] == sep;
    assert s[..|a|] == a;
    var i := IndexOfChar(s, sep);
    assert forall k :: 0 <= k < |a| ==> s[k] == a[k] && s[k] != sep;
    assert i.value == |a|;
    assert s[|a| + 1..] == rest;
  }

  lemma SplitAllNoSep(a: string, sep: char)
    requires sep !in a
    ensures SplitAll(a, sep) == [a]
  {
  }

  // ---------------------------------------------------------------------
  // Decimal rendering (`String.valueOf(int)` / `Integer.toString`)
  // ---------------------------------------------------------------------

  function DigitChar(d: nat): char
    requires d < 10
  {
    "0123456789"[d]
  }

  predicate IsDecimal(s: string)
  {
    forall i :: 0 <= i < |s| ==> '0' <= s[i] <= '9'
  }

  function NatToString(n: nat): (r: string)
    ensures |r| >= 1
    ensures IsDecimal(r)
    decreases n
  {
    if n < 10 then [DigitChar(n)] else NatToString(n / 10) + [DigitChar(n % 10)]
  }

  function IntToString(i: int): (r: string)
    ensures |r| >= 1
    ensures i < 0 <==> r[0] == '-'
  {
    if i < 0 then "-" + NatToString(-i) else NatToString(i)
  }

  /** The value denoted by a string of decimal digits. */
  function DecimalValue(s: string): nat
    requires IsDecimal(s)
  {
    if |s| == 0 then 0 else 10 * DecimalValue(s[..|s| - 1]) + (s[|s| - 1] as int - '0' as int)
  }

  lemma {:induction false} NatToStringRoundTrip(n: nat)
    ensures DecimalValue(NatToString(n)) == n
    decreases n
  {
    var r := NatToString(n);
    if n >= 10 {
      NatToStringRoundTrip(n / 10);
      assert r[..|r| - 1] == NatToString(n / 10);
    }
  }

  /** A negative number prints as '-' and the numeral of its magnitude; any
      other number prints as its own numeral. Either way the digits read back
      as the magnitude. */
  lemma IntToStringValue(i: int)
    ensures i < 0 ==> IntToString(i) == "-" + NatToString(-i) && DecimalValue(NatToString(-i)) == -i
    ensures i >= 0 ==> IntToString(i) == NatToString(i) && DecimalValue(NatToString(i)) == i
  {
    NatToStringRoundTrip(if i < 0 then -i else i);
  }

  // ---------------------------------------------------------------------
  // Conversions that can fail
  // ---------------------------------------------------------------------

  /** Sequence concatenation regroups freely. */
  lemma AppendAssoc<T>(a: seq<T>, b: seq<T>, c: seq<T>)
    ensures (a + b) + c == a + (b + c)
  {
  }

  /** `xs.stream().map(f).toList()` where `f` may throw: the first element
      whose conversion fails aborts the whole list with that failure. */
  function Traverse<A, B>(xs: seq<A>, f: A -> Result<B>): (r: Result<seq<B>>)
    ensures r.Ok? <==> forall i :: 0 <= i < |xs| ==> f(xs[i]).Ok?
    ensures r.Ok? ==> |r.value| == |xs| && forall i :: 0 <= i < |xs| ==> f(xs[i]) == Ok(r.value[i])
    ensures r.Fail? ==> exists i :: 0 <= i < |xs| && f(xs[i]) == Fail(r.reason) && forall j :: 0 <= j < i ==> f(xs[j]).Ok?
  {
    if |xs| == 0 then Ok([])
    else
      match f(xs[0])
      case Fail(e) => Fail(e)
      case Ok(first) =>
        var rest := Traverse(xs[1..], f);
        assert forall i :: 1 <= i < |xs| ==> xs[i] == xs[1..][i - 1];
        if rest.Fail? then
          var j :| 0 <= j < |xs| - 1 && f(xs[1..][j]) == Fail(rest.reason) && forall k :: 0 <= k < j ==> f(xs[1..][k]).Ok?;
          assert f(xs[j + 1]) == Fail(rest.reason);
          Fail(rest.reason)
        else
          Ok([first] + rest.value)
  }

  /** `ys` holds the successful results of `f` on the first `|ys|` elements of `xs`. */
  ghost predicate AllMapped<A, B>(xs: seq<A>, f: A -> Result<B>, ys: seq<B>)
  {
    |ys| <= |xs| && forall j :: 0 <= j < |ys| ==> f(xs[j]) == Ok(ys[j])
  }

  /** Appending the result for the next element keeps `AllMapped`. */
  lemma AllMappedGrows<A, B>(xs: seq<A>, f: A -> Result<B>, ys: seq<B>, y: B)
    requires AllMapped(xs, f, ys) && |ys| < |xs| && f(xs[|ys|]) == Ok(y)
    ensures AllMapped(xs, f, ys + [y])
  {
    var grown := ys + [y];
    forall j | 0 <= j < |grown|
      ensures f(xs[j]) == Ok(grown[j])
    {
      if j < |ys| {
        assert grown[j] == ys[j];
      }
    }
  }

  /** Traversal fails with the failure of the first element that fails. */
  lemma FirstFailure<A, B>(xs: seq<A>, f: A -> Result<B>, i: nat)
    requires i < |xs| && f(xs[i]).Fail?
    requires forall j :: 0 <= j < i ==> f(xs[j]).Ok?
    ensures Traverse(xs, f) == Fail(f(xs[i]).reason)
  {
    var t := Traverse(xs, f);
    var i' :| 0 <= i' < |xs| && f(xs[i']) == Fail(t.reason) && forall j :: 0 <= j < i' ==> f(xs[j]).Ok?;
    assert i' == i;
  }
}
