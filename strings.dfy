/**
 * The subset of Python's string semantics that the assistant's code relies on:
 * `in` (substring search), `str.split`, `str.strip`, ASCII `upper`/`lower`,
 * `str.replace(c, "")`, negative slicing, `str(int)`, and the `int(...)` and
 * `float(...)` conversions restricted to plain decimal text.
 */
module Strings {
  import opened Wrappers

  /** `t` occurs in `s` starting at index `i`. */
  predicate OccursAt(s: string, t: string, i: nat)
  {
    i + |t| <= |s| && s[i..i + |t|] == t
  }

  lemma OccursAtTail(s: string, t: string, j: nat)
    requires s != []
    ensures OccursAt(s, t, j + 1) <==> OccursAt(s[1..], t, j)
  {
    if j + 1 + |t| <= |s| {
      assert s[1..][j..j + |t|] == s[j + 1..j + 1 + |t|];
    }
  }

  /** The index of the first occurrence of `t` in `s` (Python's `s.find(t)`, None for -1). */
  function IndexOf(s: string, t: string): (r: Option<nat>)
    ensures r.Some? ==> r.value + |t| <= |s|
    decreases |s|
  {
    if |t| <= |s| && s[..|t|] == t then Some(0)
    else if s == [] then None
    else match IndexOf(s[1..], t)
      case None => None
      case Some(i) => Some(i + 1)
  }

  /** `IndexOf` finds an occurrence, the first one, and reports none only when there is none. */
  lemma {:induction false} IndexOfFirst(s: string, t: string)
    ensures IndexOf(s, t).Some? ==> OccursAt(s, t, IndexOf(s, t).value)
    ensures IndexOf(s, t).Some? ==> forall j: nat :: j < IndexOf(s, t).value ==> !OccursAt(s, t, j)
    ensures IndexOf(s, t).None? ==> forall j: nat :: !OccursAt(s, t, j)
    decreases |s|
  {
    if |t| <= |s| && s[..|t|] == t {
    } else if s == [] {
    } else {
      var rest := s[1..];
      IndexOfFirst(rest, t);
      assert !OccursAt(s, t, 0);
      match IndexOf(rest, t)
      case None =>
        assert IndexOf(s, t).None?;
        forall j: nat ensures !OccursAt(s, t, j) {
          if j > 0 {
            OccursAtTail(s, t, j - 1);
          }
        }
      case Some(i) =>
        assert IndexOf(s, t) == Some(i + 1);
        OccursAtTail(s, t, i);
        forall j: nat | j < i + 1 ensures !OccursAt(s, t, j) {
          if j > 0 {
            OccursAtTail(s, t, j - 1);
          }
        }
    }
  }

  /** Python's `t in s`. */
  predicate Contains(s: string, t: string)
  {
    IndexOf(s, t).Some?
  }

  lemma ContainsIff(s: string, t: string)
    ensures Contains(s, t) <==> exists j: nat :: OccursAt(s, t, j)
  {
    IndexOfFirst(s, t);
  }

  /** A witness occurrence proves containment. */
  lemma OccurrenceContains(s: string, t: string, j: nat)
    requires OccursAt(s, t, j)
    ensures Contains(s, t)
  {
    IndexOfFirst(s, t);
  }

  /** Text that holds `t` somewhere in the middle contains it. */
  lemma ContainsInMiddle(a: string, t: string, b: string)
    ensures Contains(a + t + b, t)
  {
    assert (a + t + b)[|a|..|a| + |t|] == t;
    OccurrenceContains(a + t + b, t, |a|);
  }

  /** Text added after an occurrence keeps it. */
  lemma ContainsExtended(s: string, t: string, u: string)
    requires Contains(s, t)
    ensures Contains(s + u, t)
  {
    var j := IndexOf(s, t).value;
    IndexOfFirst(s, t);
    assert (s + u)[j..j + |t|] == s[j..j + |t|];
    OccurrenceContains(s + u, t, j);
  }

  /** Every occurrence of a non-empty pattern starts on a copy of its first character. */
  lemma OccurrenceStartsWithHead(s: string, t: string, j: nat)
    requires t != [] && OccursAt(s, t, j)
    ensures j < |s| && s[j] == t[0]
  {
    assert s[j..j + |t|][0] == s[j];
  }

  /**
   * Prepending text that lacks the pattern's first character shifts the first
   * occurrence by the length of that text.
   */
  lemma {:induction false} IndexOfAfterPrefix(a: string, b: string, t: string)
    requires t != [] && t[0] !in a
    ensures IndexOf(a + b, t) == match IndexOf(b, t) { case None => None case Some(i) => Some(|a| + i) }
    decreases |a|
  {
    if a == [] {
      assert a + b == b;
    } else {
      var s := a + b;
      assert s[0] == a[0];
      assert |t| <= |s| ==> s[..|t|] != t by {
        if |t| <= |s| { assert s[..|t|][0] == a[0]; }
      }
      assert s[1..] == a[1..] + b;
      IndexOfAfterPrefix(a[1..], b, t);
    }
  }

  /** A text that begins with the pattern finds it at index 0. */
  lemma IndexOfAtStart(t: string, b: string)
    ensures IndexOf(t + b, t) == Some(0)
  {
    assert (t + b)[..|t|] == t;
  }

  /** A text none of whose characters is the pattern's first character does not contain it. */
  lemma NotContainsWithoutHead(s: string, t: string)
    requires t != [] && t[0] !in s
    ensures !Contains(s, t)
  {
    if Contains(s, t) {
      var j := IndexOf(s, t).value;
      IndexOfFirst(s, t);
      OccurrenceStartsWithHead(s, t, j);
      assert false;
    }
  }

  /** The text before the first occurrence of `t` does not contain `t`. */
  lemma PrefixBeforeFirst(s: string, t: string, i: nat)
    requires t != [] && IndexOf(s, t) == Some(i)
    ensures !Contains(s[..i], t)
  {
    if Contains(s[..i], t) {
      var j := IndexOf(s[..i], t).value;
      IndexOfFirst(s[..i], t);
      IndexOfFirst(s, t);
      assert s[..i][j..j + |t|] == s[j..j + |t|];
      assert OccursAt(s, t, j);
      assert false;
    }
  }

  /** Python's `sep.join(parts)`. */
  function Join(parts: seq<string>, sep: string): string
    decreases |parts|
  {
    if parts == [] then ""
    else if |parts| == 1 then parts[0]
    else parts[0] + sep + Join(parts[1..], sep)
  }

  /**
   * Python's `s.split(sep)` for a non-empty separator: the pieces between the
   * successive occurrences of `sep`, scanning left to right.
   */
  function Split(s: string, sep: string): (parts: seq<string>)
    requires sep != []
    ensures |parts| >= 1
    ensures Join(parts, sep) == s
    ensures forall k :: 0 <= k < |parts| ==> !Contains(parts[k], sep)
    decreases |s|
  {
    match IndexOf(s, sep)
    case None => [s]
    case Some(i) =>
      PrefixBeforeFirst(s, sep, i);
      IndexOfFirst(s, sep);
      var rest := Split(s[i + |sep|..], sep);
      assert s == s[..i] + sep + s[i + |sep|..] by {
        assert s[i..i + |sep|] == sep;
      }
      assert ([s[..i]] + rest)[1..] == rest;
      [s[..i]] + rest
  }

  /** `s.split(sep)` when `s` has no `sep` at all. */
  lemma SplitWithout(s: string, sep: string)
    requires sep != [] && !Contains(s, sep)
    ensures Split(s, sep) == [s]
  {
  }

  /** `(a + sep + b).split(sep)` when `a` has no `sep` and cannot run into it. */
  lemma SplitAtFirst(a: string, sep: string, b: string)
    requires sep != [] && sep[0] !in a
    ensures Split(a + sep + b, sep) == [a] + Split(b, sep)
  {
    IndexOfAfterPrefix(a, sep + b, sep);
    IndexOfAtStart(sep, b);
    assert a + sep + b == a + (sep + b);
    assert (a + sep + b)[..|a|] == a;
    assert (a + sep + b)[|a| + |sep|..] == b;
  }

  /** No occurrence of `t` begins before the first one, even one running past it. */
  lemma PrefixThroughFirst(s: string, t: string, i: nat)
    requires t != [] && IndexOf(s, t) == Some(i)
    ensures !Contains(s[..i + |t| - 1], t)
  {
    var m := i + |t| - 1;
    IndexOfFirst(s, t);
    forall j: nat ensures !OccursAt(s[..m], t, j) {
      if j + |t| <= m {
        assert j < IndexOf(s, t).value;
        assert !OccursAt(s, t, j);
        assert s[..m][j..j + |t|] == s[j..j + |t|];
      }
    }
    ContainsIff(s[..m], t);
  }

  /**
   * `split` cuts at the leftmost occurrence each time: no occurrence of the
   * separator starts inside a piece, even one that would run into the next
   * separator. With an overlapping separator this fixes the pieces:
   * `">>>".split(">>")` is `["", ">"]`, never `[">", ""]`.
   */
  lemma {:induction false} SplitCutsLeftmost(s: string, sep: string)
    requires sep != []
    ensures forall k :: 0 <= k < |Split(s, sep)| - 1 ==> !Contains(Split(s, sep)[k] + sep[..|sep| - 1], sep)
    decreases |s|
  {
    match IndexOf(s, sep)
    case None =>
    case Some(i) =>
      var rest := s[i + |sep|..];
      SplitCutsLeftmost(rest, sep);
      PrefixThroughFirst(s, sep, i);
      IndexOfFirst(s, sep);
      assert s[..i] + sep[..|sep| - 1] == s[..i + |sep| - 1] by {
        assert s[i..i + |sep|] == sep;
      }
      var parts := Split(s, sep);
      assert parts == [s[..i]] + Split(rest, sep);
      forall k | 0 <= k < |parts| - 1
        ensures !Contains(parts[k] + sep[..|sep| - 1], sep)
      {
        if k > 0 {
          assert parts[k] == Split(rest, sep)[k - 1];
        }
      }
  }

  /** Python's `str.isspace()` for one character. */
  predicate IsSpace(c: char)
  {
    || c == ' '
    || ('\t' <= c <= '\r')
    || ('\U{1C}' <= c <= '\U{1F}')
    || c == '\U{85}' || c == '\U{A0}' || c == '\U{1680}'
    || ('\U{2000}' <= c <= '\U{200A}')
    || c == '\U{2028}' || c == '\U{2029}' || c == '\U{202F}' || c == '\U{205F}' || c == '\U{3000}'
  }

  /** `s` with its leading whitespace removed. */
  function TrimStart(s: string): (r: string)
    ensures |r| <= |s| && r == s[|s| - |r|..]
    ensures r == [] || !IsSpace(r[0])
    ensures forall k :: 0 <= k < |s| - |r| ==> IsSpace(s[k])
    decreases |s|
  {
    if s != [] && IsSpace(s[0]) then TrimStart(s[1..]) else s
  }

  /** `s` with its trailing whitespace removed. */
  function TrimEnd(s: string): (r: string)
    ensures |r| <= |s| && r == s[..|r|]
    ensures r == [] || !IsSpace(r[|r| - 1])
    ensures forall k :: |r| <= k < |s| ==> IsSpace(s[k])
    decreases |s|
  {
    if s != [] && IsSpace(s[|s| - 1]) then TrimEnd(s[..|s| - 1]) else s
  }

  /** Python's `s.strip()`: surrounding whitespace removed, the middle kept. */
  function Strip(s: string): (r: string)
  {
    TrimEnd(TrimStart(s))
  }

  /** What `strip` keeps is a slice of the input with no whitespace at either end. */
  lemma StripIsTrimmedSlice(s: string)
    ensures exists i, j :: 0 <= i <= j <= |s| && Strip(s) == s[i..j]
    ensures Strip(s) == [] || (!IsSpace(Strip(s)[0]) && !IsSpace(Strip(s)[|Strip(s)| - 1]))
  {
    var i, j := StripBounds(s);
    StripEnds(s);
  }

  /** Where the slice `strip` keeps begins and ends. */
  lemma StripBounds(s: string) returns (i: nat, j: nat)
    ensures i <= j <= |s| && Strip(s) == s[i..j]
  {
    var a := TrimStart(s);
    var r := TrimEnd(a);
    i := |s| - |a|;
    j := i + |r|;
    PrefixOfSuffix(s, i, |r|);
  }

  /** The first `k` elements after position `i` are the slice from `i` to `i + k`. */
  lemma PrefixOfSuffix<T>(s: seq<T>, i: nat, k: nat)
    requires i + k <= |s|
    ensures s[i..][..k] == s[i..i + k]
  {
  }

  /** What `strip` keeps neither begins nor ends with whitespace. */
  lemma StripEnds(s: string)
    ensures Strip(s) == [] || (!IsSpace(Strip(s)[0]) && !IsSpace(Strip(s)[|Strip(s)| - 1]))
  {
    var a := TrimStart(s);
    var r := TrimEnd(a);
    if r != [] {
      assert r[0] == a[0];
    }
  }

  /** Text with no whitespace at either end is left as it is by `strip`. */
  lemma StripUnchanged(s: string)
    requires s == [] || (!IsSpace(s[0]) && !IsSpace(s[|s| - 1]))
    ensures Strip(s) == s
  {
  }

  /** `strip` is idempotent. */
  lemma StripIdempotent(s: string)
    ensures Strip(Strip(s)) == Strip(s)
  {
    StripIsTrimmedSlice(s);
    StripUnchanged(Strip(s));
  }

  /** Python's `c.upper()` on ASCII letters; other characters are kept. */
  function UpperChar(c: char): char
  {
    if 'a' <= c <= 'z' then (c as int - 32) as char else c
  }

  /** Python's `c.lower()` on ASCII letters; other characters are kept. */
  function LowerChar(c: char): char
  {
    if 'A' <= c <= 'Z' then (c as int + 32) as char else c
  }

  /** Python's `s.upper()` restricted to ASCII letters. */
  function Upper(s: string): (r: string)
    ensures |r| == |s|
    ensures forall k :: 0 <= k < |s| ==> r[k] == UpperChar(s[k])
  {
    seq(|s|, k requires 0 <= k < |s| => UpperChar(s[k]))
  }

  /** Python's `s.lower()` restricted to ASCII letters. */
  function Lower(s: string): (r: string)
    ensures |r| == |s|
    ensures forall k :: 0 <= k < |s| ==> r[k] == LowerChar(s[k])
  {
    seq(|s|, k requires 0 <= k < |s| => LowerChar(s[k]))
  }

  /** No character is a lower-case ASCII letter. */
  predicate NoLowerCase(s: string)
  {
    forall k :: 0 <= k < |s| ==> !('a' <= s[k] <= 'z')
  }

  /** Upper-cased text holds no lower-case ASCII letter, at any index. */
  lemma UpperHasNoLowerCase(s: string)
    ensures NoLowerCase(Upper(s))
    ensures forall x :: x in Upper(s) ==> !('a' <= x <= 'z')
  {
    var upper := Upper(s);
    forall x | x in upper ensures !('a' <= x <= 'z') {
      var k :| 0 <= k < |upper| && upper[k] == x;
      assert x == UpperChar(s[k]);
    }
  }

  lemma UpperConcat(a: string, b: string)
    ensures Upper(a + b) == Upper(a) + Upper(b)
  {
  }

  lemma LowerConcat(a: string, b: string)
    ensures Lower(a + b) == Lower(a) + Lower(b)
  {
  }

  /** Lowercasing forgets a prior uppercasing: case-insensitive text compares equal. */
  lemma LowerOfUpper(s: string)
    ensures Lower(Upper(s)) == Lower(s)
  {
  }

  /** Python's `s.replace(c, "")` for a one-character `c`: every `c` removed, order kept. */
  function RemoveAll(s: string, c: char): (r: string)
    ensures c !in r
    ensures |r| <= |s|
    ensures c !in s ==> r == s
    ensures forall x :: x in r ==> x in s
    decreases |s|
  {
    if s == [] then []
    else (if s[0] == c then [] else [s[0]]) + RemoveAll(s[1..], c)
  }

  lemma {:induction false} RemoveAllConcat(a: string, b: string, c: char)
    ensures RemoveAll(a + b, c) == RemoveAll(a, c) + RemoveAll(b, c)
    decreases |a|
  {
    if a != [] {
      assert (a + b)[1..] == a[1..] + b;
      RemoveAllConcat(a[1..], b, c);
      var h := if a[0] == c then [] else [a[0]];
      var x, y := RemoveAll(a[1..], c), RemoveAll(b, c);
      assert RemoveAll(a + b, c) == h + (x + y);
      assert RemoveAll(a, c) == h + x;
      assert h + (x + y) == (h + x) + y;
    } else {
      assert a + b == b;
    }
  }

  /** Python's `s[-n:]`: the last `n` characters, or all of `s` when it is shorter. */
  function TakeLast(s: string, n: nat): (r: string)
    ensures |r| == if |s| < n then |s| else n
    ensures r == s[|s| - |r|..]
  {
    if |s| <= n then s else s[|s| - n..]
  }

  predicate IsDigit(c: char)
  {
    '0' <= c <= '9'
  }

  predicate AllDigits(s: string)
  {
    forall k :: 0 <= k < |s| ==> IsDigit(s[k])
  }

  function DigitValue(c: char): nat
    requires IsDigit(c)
  {
    c as int - '0' as int
  }

  function DigitChar(d: nat): (c: char)
    requires d < 10
    ensures IsDigit(c) && DigitValue(c) == d
  {
    ('0' as int + d) as char
  }

  /** The number a string of decimal digits denotes (0 for the empty string). */
  function DigitsValue(s: string): nat
    requires AllDigits(s)
    decreases |s|
  {
    if s == [] then 0 else DigitsValue(s[..|s| - 1]) * 10 + DigitValue(s[|s| - 1])
  }

  function Pow10(n: nat): (p: nat)
    ensures p >= 1
  {
    if n == 0 then 1 else 10 * Pow10(n - 1)
  }

  /** Python's `str(n)` for a natural number: canonical decimal digits. */
  function NatToString(n: nat): (r: string)
    ensures r != [] && AllDigits(r) && DigitsValue(r) == n
    ensures r[0] == '0' ==> r == "0"
    decreases n
  {
    if n < 10 then [DigitChar(n)]
    else
      var r := NatToString(n / 10) + [DigitChar(n % 10)];
      assert r[..|r| - 1] == NatToString(n / 10);
      r
  }

  /** Python's `str(i)` for an integer. */
  function IntToString(i: int): (r: string)
    ensures r != [] && !IsSpace(r[0]) && !IsSpace(r[|r| - 1])
    ensures (i < 0) == (r[0] == '-')
  {
    if i < 0 then "-" + NatToString(-i) else NatToString(i)
  }

  /** Optional sign, then what follows it; Python's numeric conversions accept `+` and `-`. */
  function SignAndBody(t: string): (bool, string)
  {
    if t != [] && (t[0] == '-' || t[0] == '+') then (t[0] == '-', t[1..]) else (false, t)
  }

  /**
   * Python's `int(s)` on the subset modelled here: optional surrounding
   * whitespace, an optional sign, and one or more decimal digits.
   * None stands for the `ValueError` Python raises.
   */
  function ParseInt(s: string): (r: Option<int>)
  {
    var (neg, body) := SignAndBody(Strip(s));
    if body != [] && AllDigits(body) then
      Some(if neg then -(DigitsValue(body) as int) else DigitsValue(body))
    else None
  }

  /** What `int(...)` rejects: text with no digit, or with anything but digits after the sign. */
  lemma ParseIntRejects(s: string)
    ensures ParseInt(s).None? <==>
      (SignAndBody(Strip(s)).1 == [] || !AllDigits(SignAndBody(Strip(s)).1))
  {
  }

  /** `int(str(i)) == i`. */
  lemma ParseIntOfIntToString(i: int)
    ensures ParseInt(IntToString(i)) == Some(i)
  {
    var r := IntToString(i);
    StripUnchanged(r);
    if i < 0 {
      assert r[1..] == NatToString(-i);
    } else {
      assert IsDigit(r[0]);
    }
  }

  /** The value of the digits after a decimal point: `FractionValue("25") == 0.25`. */
  function FractionValue(f: string): real
    requires AllDigits(f)
  {
    DigitsValue(f) as real / Pow10(|f|) as real
  }

  /** The unsigned part of Python's `float(...)`: digits with at most one decimal point. */
  function UnsignedDecimal(b: string): Option<real>
  {
    match IndexOf(b, ".")
    case None =>
      if b != [] && AllDigits(b) then Some(DigitsValue(b) as real) else None
    case Some(i) =>
      var whole, frac := b[..i], b[i + 1..];
      if (whole != [] || frac != []) && AllDigits(whole) && AllDigits(frac)
      then Some(DigitsValue(whole) as real + FractionValue(frac))
      else None
  }

  /**
   * Python's `float(s)` on the subset modelled here: optional surrounding
   * whitespace, an optional sign, digits with at most one decimal point and at
   * least one digit. The value is the exact decimal, not its binary rounding.
   */
  function ParseDecimal(s: string): (r: Option<real>)
  {
    var (neg, body) := SignAndBody(Strip(s));
    match UnsignedDecimal(body)
    case None => None
    case Some(v) => Some(if neg then -v else v)
  }

  /** Digits hold no decimal point. */
  lemma NoPointInDigits(ws: string)
    requires AllDigits(ws)
    ensures '.' !in ws
  {
    forall k | 0 <= k < |ws| ensures ws[k] != '.' { assert IsDigit(ws[k]); }
  }

  /** In `W.F` with `W` all digits, the first point is the one after `W`. */
  lemma PointAfterDigits(ws: string, f: string)
    requires AllDigits(ws)
    ensures IndexOf(ws + "." + f, ".") == Some(|ws|)
  {
    NoPointInDigits(ws);
    IndexOfAfterPrefix(ws, "." + f, ".");
    IndexOfAtStart(".", f);
    assert ws + ("." + f) == ws + "." + f;
  }

  /** The value of an unsigned decimal, read around its first point. */
  lemma UnsignedDecimalAt(b: string, i: nat)
    requires IndexOf(b, ".") == Some(i)
    requires i > 0 && AllDigits(b[..i]) && AllDigits(b[i + 1..])
    ensures UnsignedDecimal(b)
         == Some(DigitsValue(b[..i]) as real + FractionValue(b[i + 1..]))
  {
  }

  /** The unsigned decimal `W.F` where `W` holds no point. */
  lemma UnsignedDecimalAtPoint(ws: string, f: string)
    requires AllDigits(ws) && AllDigits(f) && ws != []
    ensures UnsignedDecimal(ws + "." + f)
         == Some(DigitsValue(ws) as real + FractionValue(f))
  {
    var b := ws + "." + f;
    PointAfterDigits(ws, f);
    assert b[..|ws|] == ws;
    assert b[|ws| + 1..] == f;
    assert AllDigits(b[..|ws|]);
    UnsignedDecimalAt(b, |ws|);
    var w', f' := b[..|ws|], b[|ws| + 1..];
    assert DigitsValue(w') == DigitsValue(ws);
    assert FractionValue(f') == FractionValue(f);
    assert UnsignedDecimal(ws + "." + f)
         == Some(DigitsValue(ws) as real + FractionValue(f));
  }

  /** `float("W.F")` is W plus the fraction F over 10 to the number of its digits. */
  lemma ParseDecimalOfFixedPoint(ws: string, f: string)
    requires ws != [] && AllDigits(ws) && AllDigits(f)
    ensures ParseDecimal(ws + "." + f) == Some(DigitsValue(ws) as real + FractionValue(f))
  {
    var s := ws + "." + f;
    assert s[0] == ws[0];
    assert !IsSpace(s[|s| - 1]) by {
      if f == [] { assert s[|s| - 1] == '.'; } else { assert s[|s| - 1] == f[|f| - 1]; assert IsDigit(f[|f| - 1]); }
    }
    ParseDecimalUnsigned(s);
    UnsignedDecimalAtPoint(ws, f);
  }

  /** Text that starts with a digit and ends without whitespace is read as an unsigned decimal. */
  lemma ParseDecimalUnsigned(s: string)
    requires s != [] && IsDigit(s[0]) && !IsSpace(s[|s| - 1])
    ensures ParseDecimal(s) == UnsignedDecimal(s)
  {
    StripUnchanged(s);
  }

  /** `float(str(i)) == i` for an integer. */
  lemma ParseDecimalOfIntToString(i: int)
    ensures ParseDecimal(IntToString(i)) == Some(i as real)
  {
    var r := IntToString(i);
    var body := if i < 0 then NatToString(-i) else NatToString(i);
    StripUnchanged(r);
    if i < 0 {
      assert r[1..] == body;
    } else {
      assert IsDigit(r[0]);
    }
    assert '.' !in body by {
      forall k | 0 <= k < |body| ensures body[k] != '.' { assert IsDigit(body[k]); }
    }
    NotContainsWithoutHead(body, ".");
  }
}
