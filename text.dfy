/**
 * The handful of Ruby string operations the core relies on, with Ruby's own edge
 * cases: `String#split` with a one-character separator (which drops trailing empty
 * fields), `String#chomp`, `Integer#to_s`, `String#to_i`, `start_with?`/`end_with?`.
 */
module Text {
  import opened Wrappers

  predicate StartsWith(s: string, prefix: string) {
    |prefix| <= |s| && s[..|prefix|] == prefix
  }

  predicate EndsWith(s: string, suffix: string) {
    |suffix| <= |s| && s[|s| - |suffix|..] == suffix
  }

  lemma StartsWithConcat(p: string, rest: string)
    ensures StartsWith(p + rest, p)
  {
    assert (p + rest)[..|p|] == p;
  }

  /** The number of occurrences of `c` in `s`. */
  function Count(s: string, c: char): nat {
    if |s| == 0 then 0 else (if s[0] == c then 1 else 0) + Count(s[1..], c)
  }

  // ---------------------------------------------------------------------------
  // Splitting and joining on a one-character separator

  /** Every field between separators, empty ones included (`s.split(c, -1)`). */
  function SplitAll(s: string, c: char): (parts: seq<string>)
    ensures |parts| > 0
    ensures forall i :: 0 <= i < |parts| ==> c !in parts[i]
  {
    if |s| == 0 then [""]
    else if s[0] == c then [""] + SplitAll(s[1..], c)
    else
      var t := SplitAll(s[1..], c);
      [[s[0]] + t[0]] + t[1..]
  }

  /** The fields joined with the separator between them. */
  function Join(parts: seq<string>, c: char): string
    requires |parts| > 0
  {
    if |parts| == 1 then parts[0] else parts[0] + [c] + Join(parts[1..], c)
  }

  /** Ruby's `Array#pop` of trailing empty strings done by `String#split`. */
  function DropTrailingEmpty(parts: seq<string>): (r: seq<string>)
    ensures |r| <= |parts| && r == parts[..|r|]
    ensures |r| > 0 ==> r[|r| - 1] != ""
    ensures forall i :: |r| <= i < |parts| ==> parts[i] == ""
  {
    if |parts| == 0 then []
    else if parts[|parts| - 1] == "" then DropTrailingEmpty(parts[..|parts| - 1])
    else parts
  }

  /** Ruby's `s.split(c)`: the fields between separators, trailing empty fields removed. */
  function RubySplit(s: string, c: char): seq<string> {
    DropTrailingEmpty(SplitAll(s, c))
  }

  /** Trailing empty fields after a non-empty last field are all that `split` drops. */
  lemma DropTrailingEmptyPad(parts: seq<string>, pad: seq<string>)
    requires |parts| > 0 && parts[|parts| - 1] != ""
    requires forall i :: 0 <= i < |pad| ==> pad[i] == ""
    ensures DropTrailingEmpty(parts + pad) == parts
  {
    var r := DropTrailingEmpty(parts + pad);
    assert (parts + pad)[|parts| - 1] == parts[|parts| - 1];
    assert |r| >= |parts|;
    assert r == (parts + pad)[..|parts|] == parts;
  }

  /** A non-empty leading field is never dropped, and does not change what is. */
  lemma {:induction false} DropTrailingEmptyCons(a: string, parts: seq<string>)
    requires a != ""
    ensures DropTrailingEmpty([a] + parts) == [a] + DropTrailingEmpty(parts)
    decreases |parts|
  {
    if |parts| > 0 {
      var n := |parts|;
      if parts[n - 1] == "" {
        assert ([a] + parts)[..n] == [a] + parts[..n - 1];
        DropTrailingEmptyCons(a, parts[..n - 1]);
      }
    }
  }

  lemma {:induction false} SplitAllCount(s: string, c: char)
    ensures |SplitAll(s, c)| == Count(s, c) + 1
  {
    if |s| > 0 {
      SplitAllCount(s[1..], c);
    }
  }

  lemma {:induction false} SplitAllNoSeparator(s: string, c: char)
    requires c !in s
    ensures SplitAll(s, c) == [s]
  {
    if |s| > 0 {
      assert c !in s[1..] by {
        forall i | 0 <= i < |s[1..]| ensures s[1..][i] != c {
          assert s[1..][i] == s[i + 1];
        }
      }
      SplitAllNoSeparator(s[1..], c);
      assert [s[0]] + s[1..] == s;
    }
  }

  /** The first field of a string that starts with a non-separator character. */
  lemma SplitAllCons(x: char, y: string, c: char)
    requires x != c
    ensures SplitAll([x] + y, c) == [[x] + SplitAll(y, c)[0]] + SplitAll(y, c)[1..]
  {
    assert ([x] + y)[0] == x && ([x] + y)[1..] == y;
  }

  /** The fields of `y + z` when those of `y` are known: the last field of `y` and the first of `z` merge. */
  ghost predicate ConcatFields(sy: seq<string>, sz: seq<string>, r: seq<string>)
    requires |sy| > 0 && |sz| > 0
  {
    r == sy[..|sy| - 1] + [sy[|sy| - 1] + sz[0]] + sz[1..]
  }

  lemma ConcatFieldsSeparator(s1: seq<string>, sz: seq<string>, t: seq<string>)
    requires |s1| > 0 && |sz| > 0 && ConcatFields(s1, sz, t)
    ensures ConcatFields([""] + s1, sz, [""] + t)
  {
    assert ([""] + s1)[..|s1|] == [""] + s1[..|s1| - 1];
  }

  lemma ConcatFieldsOther(x: char, s1: seq<string>, sz: seq<string>, t: seq<string>)
    requires |s1| > 0 && |sz| > 0 && |t| > 0 && ConcatFields(s1, sz, t)
    ensures ConcatFields([[x] + s1[0]] + s1[1..], sz, [[x] + t[0]] + t[1..])
  {
    var n := |s1|;
    var sy := [[x] + s1[0]] + s1[1..];
    if n == 1 {
      assert t == [s1[0] + sz[0]] + sz[1..];
      assert [x] + (s1[0] + sz[0]) == ([x] + s1[0]) + sz[0];
    } else {
      assert t[0] == s1[0];
      assert t[1..] == s1[1..n - 1] + [s1[n - 1] + sz[0]] + sz[1..];
      assert sy[..|sy| - 1] == [[x] + s1[0]] + s1[1..n - 1];
    }
  }

  /** How the fields of a concatenation are made of the fields of its two halves. */
  lemma {:induction false} SplitAllConcat(y: string, z: string, c: char)
    ensures ConcatFields(SplitAll(y, c), SplitAll(z, c), SplitAll(y + z, c))
  {
    if |y| == 0 {
      var sz := SplitAll(z, c);
      assert y + z == z;
      assert "" + sz[0] == sz[0];
      assert [sz[0]] + sz[1..] == sz;
    } else {
      assert y + z == [y[0]] + (y[1..] + z);
      assert y == [y[0]] + y[1..];
      SplitAllConcat(y[1..], z, c);
      if y[0] == c {
        ConcatFieldsSeparator(SplitAll(y[1..], c), SplitAll(z, c), SplitAll(y[1..] + z, c));
      } else {
        SplitAllCons(y[0], y[1..] + z, c);
        SplitAllCons(y[0], y[1..], c);
        ConcatFieldsOther(y[0], SplitAll(y[1..], c), SplitAll(z, c), SplitAll(y[1..] + z, c));
      }
    }
  }

  /** A field boundary: text without the separator, the separator, then the rest. */
  lemma SplitAllAfterSeparator(p: string, x: string, c: char)
    requires c !in p
    ensures SplitAll(p + [c] + x, c) == [p] + SplitAll(x, c)
  {
    SplitAllNoSeparator(p, c);
    SplitAllConcat(p, [c] + x, c);
    assert ConcatFields([p], SplitAll([c] + x, c), SplitAll(p + ([c] + x), c));
    assert p + [c] + x == p + ([c] + x);
    assert ([c] + x)[0] == c && ([c] + x)[1..] == x;
    assert SplitAll([c] + x, c) == [""] + SplitAll(x, c);
    assert p + "" == p;
  }

  lemma {:induction false} JoinSplit(s: string, c: char)
    ensures Join(SplitAll(s, c), c) == s
  {
    if |s| > 0 {
      JoinSplit(s[1..], c);
      var t := SplitAll(s[1..], c);
      if s[0] != c {
        if |t| > 1 {
          assert Join(t, c) == t[0] + [c] + Join(t[1..], c);
          assert ([[s[0]] + t[0]] + t[1..])[1..] == t[1..];
        }
      } else {
        assert ([""] + t)[1..] == t;
      }
      assert [s[0]] + s[1..] == s;
    }
  }

  lemma {:induction false} SplitJoin(parts: seq<string>, c: char)
    requires |parts| > 0
    requires forall i :: 0 <= i < |parts| ==> c !in parts[i]
    ensures SplitAll(Join(parts, c), c) == parts
  {
    if |parts| == 1 {
      SplitAllNoSeparator(parts[0], c);
    } else {
      SplitJoin(parts[1..], c);
      SplitAllAfterSeparator(parts[0], Join(parts[1..], c), c);
    }
  }

  // ---------------------------------------------------------------------------
  // String#chomp (no argument): removes one trailing "\r\n", "\n" or "\r".

  function Chomp(s: string): (r: string)
    ensures |r| <= |s| && r == s[..|r|]
  {
    if EndsWith(s, "\r\n") then s[..|s| - 2]
    else if EndsWith(s, "\n") || EndsWith(s, "\r") then s[..|s| - 1]
    else s
  }

  lemma ChompNewline(s: string)
    requires !EndsWith(s, "\r")
    ensures Chomp(s + "\n") == s
  {
    var t := s + "\n";
    assert t[..|t| - 1] == s;
  }

  // ---------------------------------------------------------------------------
  // Decimal numbers: Integer#to_s and String#to_i

  predicate IsDigit(c: char) {
    '0' <= c <= '9'
  }

  predicate AllDigits(s: string) {
    forall i :: 0 <= i < |s| ==> IsDigit(s[i])
  }

  function DigitValue(c: char): nat
    requires IsDigit(c)
  {
    c as int - '0' as int
  }

  function DigitChar(d: nat): (c: char)
    requires d < 10
    ensures IsDigit(c) && DigitValue(c) == d
  {
    (48 + d) as char
  }

  /** `Integer#to_s` of a non-negative integer: decimal digits, no leading zero. */
  function NatToString(n: nat): (s: string)
    ensures |s| > 0 && AllDigits(s)
    ensures s[0] == '0' ==> n == 0
  {
    if n < 10 then [DigitChar(n)] else NatToString(n / 10) + [DigitChar(n % 10)]
  }

  /** `Integer#to_s` (and `%d`) of any integer: a minus sign before negative ones. */
  function IntToString(i: int): (s: string)
    ensures |s| > 0
    ensures forall k :: 0 <= k < |s| ==> s[k] == '-' || IsDigit(s[k])
  {
    if i < 0 then "-" + NatToString(-i) else NatToString(i)
  }

  /** The characters Ruby's `to_i` skips before a number. */
  predicate IsSpace(c: char) {
    c == ' ' || c == '\t' || c == '\n' || c == 11 as char || c == 12 as char || c == '\r'
  }

  function SkipSpaces(s: string): string {
    if |s| > 0 && IsSpace(s[0]) then SkipSpaces(s[1..]) else s
  }

  /** The digits after a first digit, where a single `_` between two digits is skipped. */
  function DigitRun(s: string, acc: nat): nat {
    if |s| == 0 then acc
    else if IsDigit(s[0]) then DigitRun(s[1..], acc * 10 + DigitValue(s[0]))
    else if s[0] == '_' && |s| > 1 && IsDigit(s[1]) then DigitRun(s[1..], acc)
    else acc
  }

  function UnsignedPrefix(s: string): nat {
    if |s| > 0 && IsDigit(s[0]) then DigitRun(s[1..], DigitValue(s[0])) else 0
  }

  /**
   * Ruby's `String#to_i`: leading white space, an optional sign, then as many
   * digits as follow; 0 when there are none. Never fails.
   */
  function ToI(s: string): int {
    var t := SkipSpaces(s);
    if |t| > 0 && t[0] == '-' then 0 - UnsignedPrefix(t[1..]) as int
    else if |t| > 0 && t[0] == '+' then UnsignedPrefix(t[1..])
    else UnsignedPrefix(t)
  }

  lemma {:induction false} DigitRunSnoc(d: string, c: char, acc: nat)
    requires AllDigits(d) && IsDigit(c)
    ensures DigitRun(d + [c], acc) == DigitRun(d, acc) * 10 + DigitValue(c)
  {
    if |d| > 0 {
      assert (d + [c])[1..] == d[1..] + [c];
      DigitRunSnoc(d[1..], c, acc * 10 + DigitValue(d[0]));
    }
  }

  lemma {:induction false} UnsignedNatToString(n: nat)
    ensures UnsignedPrefix(NatToString(n)) == n
  {
    if n >= 10 {
      var p := NatToString(n / 10);
      var c := DigitChar(n % 10);
      UnsignedNatToString(n / 10);
      assert (p + [c])[1..] == p[1..] + [c];
      assert AllDigits(p[1..]);
      DigitRunSnoc(p[1..], c, DigitValue(p[0]));
    }
  }

  /** `to_i` reads back what `to_s` wrote. */
  lemma ToINatToString(n: nat)
    ensures ToI(NatToString(n)) == n
  {
    UnsignedNatToString(n);
  }

  lemma ToIIntToString(i: int)
    ensures ToI(IntToString(i)) == i
  {
    if i < 0 {
      UnsignedNatToString(-i);
      assert ("-" + NatToString(-i))[1..] == NatToString(-i);
    } else {
      UnsignedNatToString(i);
    }
  }

  lemma NatToStringInjective(a: nat, b: nat)
    requires NatToString(a) == NatToString(b)
    ensures a == b
  {
    ToINatToString(a);
    ToINatToString(b);
  }

  // ---------------------------------------------------------------------------
  // Searching

  /** The text before the first `c`, and the text after it, if `c` occurs. */
  function SplitAtFirst(s: string, c: char): (r: Option<(string, string)>)
    ensures r.None? <==> c !in s
    ensures r.Some? ==> c !in r.value.0 && s == r.value.0 + [c] + r.value.1
  {
    if |s| == 0 then None
    else if s[0] == c then Some(([], s[1..]))
    else match SplitAtFirst(s[1..], c)
      case None => None
      case Some((before, after)) => Some(([s[0]] + before, after))
  }

  lemma {:induction false} SplitAtFirstConcat(p: string, c: char, rest: string)
    requires c !in p
    ensures SplitAtFirst(p + [c] + rest, c) == Some((p, rest))
  {
    if |p| > 0 {
      assert (p + [c] + rest)[1..] == p[1..] + [c] + rest;
      assert c !in p[1..] by {
        forall i | 0 <= i < |p[1..]| ensures p[1..][i] != c {
          assert p[1..][i] == p[i + 1];
        }
      }
      SplitAtFirstConcat(p[1..], c, rest);
      assert [p[0]] + p[1..] == p;
    } else {
      assert p + [c] + rest == [c] + rest;
    }
  }
}
