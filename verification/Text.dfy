/** The string operations of the Rust standard library used by the server. */
module Text {
  import opened Wrappers

  // ----- str::split -----

  /** `s.split(sep)`: always at least one part, an empty string gives one empty part. */
  function Split(s: string, sep: char): (parts: seq<string>)
    ensures |parts| >= 1
  {
    if s == "" then [""]
    else if s[0] == sep then [""] + Split(s[1..], sep)
    else
      var rest := Split(s[1..], sep);
      [[s[0]] + rest[0]] + rest[1..]
  }

  function Join(parts: seq<string>, sep: char): string
    requires |parts| >= 1
  {
    if |parts| == 1 then parts[0] else parts[0] + [sep] + Join(parts[1..], sep)
  }

  /** The parts, put back together, are the string, and none contains the separator. */
  lemma {:induction false} SplitPartitions(s: string, sep: char)
    ensures Join(Split(s, sep), sep) == s
    ensures forall part | part in Split(s, sep) :: sep !in part
  {
    if s != "" {
      SplitPartitions(s[1..], sep);
      var rest := Split(s[1..], sep);
      if s[0] == sep {
        assert Split(s, sep)[1..] == rest;
      } else if |rest| == 1 {
        assert Split(s, sep) == [[s[0]] + rest[0]];
      } else {
        assert Split(s, sep)[1..] == rest[1..];
        assert Join(rest, sep) == rest[0] + [sep] + Join(rest[1..], sep);
      }
    }
  }

  /** Joining two lists by the separator splits into the parts of both, in order. */
  lemma {:induction false} SplitConcat(a: string, b: string, sep: char)
    ensures Split(a + [sep] + b, sep) == Split(a, sep) + Split(b, sep)
  {
    if a == "" {
      assert a + [sep] + b == [sep] + b;
      SplitCons(sep, b, sep);
    } else {
      var c, rest := a[0], a[1..];
      assert a == [c] + rest;
      assert a + [sep] + b == [c] + (rest + [sep] + b);
      SplitConcat(rest, b, sep);
      SplitCons(c, rest + [sep] + b, sep);
      SplitCons(c, rest, sep);
      ExtendConcat(c, sep, Split(rest, sep), Split(b, sep));
    }
  }

  /** The effect on the parts of one more character in front. */
  function Extend(c: char, sep: char, parts: seq<string>): seq<string>
    requires |parts| >= 1
  {
    if c == sep then [""] + parts else [[c] + parts[0]] + parts[1..]
  }

  lemma {:induction false} SplitCons(c: char, s: string, sep: char)
    ensures Split([c] + s, sep) == Extend(c, sep, Split(s, sep))
  {
    assert ([c] + s)[1..] == s;
  }

  lemma {:induction false} ExtendConcat(c: char, sep: char, parts: seq<string>, more: seq<string>)
    requires |parts| >= 1
    ensures Extend(c, sep, parts + more) == Extend(c, sep, parts) + more
  {
    assert (parts + more)[1..] == parts[1..] + more;
  }

  // ----- str::split_once -----

  function SplitOnce(s: string, sep: char): Option<(string, string)> {
    if s == "" then None
    else if s[0] == sep then Some(("", s[1..]))
    else match SplitOnce(s[1..], sep)
      case None => None
      case Some(halves) => Some(([s[0]] + halves.0, halves.1))
  }

  /** The cut is made at the first separator, and only there. */
  lemma {:induction false} SplitOnceExact(s: string, sep: char, left: string, right: string)
    ensures SplitOnce(s, sep) == Some((left, right)) <==> sep !in left && s == left + [sep] + right
    ensures SplitOnce(s, sep) == None <==> sep !in s
  {
    if s != "" {
      if s[0] == sep {
        assert left == "" ==> (left + [sep] + right)[1..] == right;
        assert s == [sep] + s[1..];
        if s == left + [sep] + right && left != "" {
          assert s[0] == left[0];
        }
      } else {
        SplitOnceExact(s[1..], sep, if left == "" then "" else left[1..], right);
        if left != "" {
          assert left == [left[0]] + left[1..];
          assert (left + [sep] + right)[1..] == left[1..] + [sep] + right;
        }
        assert s == [s[0]] + s[1..];
      }
    }
  }

  // ----- str::trim, str::starts_with, str::contains -----

  /** The White_Space property of the Unicode standard. */
  predicate IsWhitespace(c: char) {
    var n := c as int;
    0x09 <= n <= 0x0D || n == 0x20 || n == 0x85 || n == 0xA0 || n == 0x1680
    || 0x2000 <= n <= 0x200A || n == 0x2028 || n == 0x2029 || n == 0x202F || n == 0x205F || n == 0x3000
  }

  function TrimStart(s: string): string {
    if s != "" && IsWhitespace(s[0]) then TrimStart(s[1..]) else s
  }

  function TrimEnd(s: string): string {
    if s != "" && IsWhitespace(s[|s| - 1]) then TrimEnd(s[..|s| - 1]) else s
  }

  function Trim(s: string): string {
    TrimEnd(TrimStart(s))
  }

  predicate StartsWith(s: string, prefix: string) {
    prefix <= s
  }

  predicate Contains(s: string, part: string) {
    exists i | 0 <= i <= |s| :: part <= s[i..]
  }

  predicate Blank(s: string) {
    forall c | c in s :: IsWhitespace(c)
  }

  /** `core` is `s` without the blanks around it. */
  ghost predicate Stripped(s: string, core: string) {
    && (exists before, after :: s == before + core + after && Blank(before) && Blank(after))
    && (core != "" ==> !IsWhitespace(core[0]) && !IsWhitespace(core[|core| - 1]))
  }

  lemma {:induction false} TrimStartCuts(s: string) returns (before: string)
    ensures s == before + TrimStart(s) && Blank(before)
    ensures TrimStart(s) != "" ==> !IsWhitespace(TrimStart(s)[0])
  {
    if s != "" && IsWhitespace(s[0]) {
      before := TrimStartCuts(s[1..]);
      before := [s[0]] + before;
    } else {
      before := "";
    }
  }

  lemma {:induction false} TrimEndCuts(s: string) returns (after: string)
    ensures s == TrimEnd(s) + after && Blank(after)
    ensures TrimEnd(s) != "" ==> TrimEnd(s)[0] == s[0] && !IsWhitespace(TrimEnd(s)[|TrimEnd(s)| - 1])
  {
    if s != "" && IsWhitespace(s[|s| - 1]) {
      after := TrimEndCuts(s[..|s| - 1]);
      after := after + [s[|s| - 1]];
    } else {
      after := "";
    }
  }

  /** A text that begins and ends without blanks lies inside whatever only blanks surround. */
  lemma {:induction false} Inside(s: string, a: string, x: string, b: string, c: string, y: string, d: string)
    requires s == a + x + b && s == c + y + d && Blank(c) && Blank(d)
    requires x != "" && !IsWhitespace(x[0]) && !IsWhitespace(x[|x| - 1])
    ensures |c| <= |a| && |a| + |x| <= |c| + |y|
  {
    assert s[|a|] == x[0] && s[|a| + |x| - 1] == x[|x| - 1];
    forall i | 0 <= i < |c|
      ensures IsWhitespace(s[i])
    {
      assert s[i] == c[i] && c[i] in c;
    }
    forall i | |c| + |y| <= i < |s|
      ensures IsWhitespace(s[i])
    {
      var k := i - |c| - |y|;
      assert s[i] == d[k] && d[k] in d;
    }
  }

  /** There is only one way to strip a text. */
  lemma {:induction false} OneCore(s: string, a: string, x: string, b: string, c: string, y: string, d: string)
    requires s == a + x + b && s == c + y + d && Blank(a) && Blank(b) && Blank(c) && Blank(d)
    requires x != "" && !IsWhitespace(x[0]) && !IsWhitespace(x[|x| - 1])
    requires y != "" ==> !IsWhitespace(y[0]) && !IsWhitespace(y[|y| - 1])
    ensures x == y
  {
    Inside(s, a, x, b, c, y, d);
    Inside(s, c, y, d, a, x, b);
    assert x == s[|a|..|a| + |x|] && y == s[|c|..|c| + |y|];
  }

  /** Trimming cuts off blanks, at both ends, and all of them. */
  lemma {:induction false} TrimExactly(s: string, core: string)
    ensures Stripped(s, core) <==> core == Trim(s)
  {
    var trimmed := Trim(s);
    var before := TrimStartCuts(s);
    var after := TrimEndCuts(TrimStart(s));
    assert s == before + trimmed + after;
    if Stripped(s, core) {
      var a, b :| s == a + core + b && Blank(a) && Blank(b);
      if core != "" {
        OneCore(s, a, core, b, before, trimmed, after);
      } else if trimmed != "" {
        OneCore(s, before, trimmed, after, a, core, b);
      }
    }
  }

  lemma {:induction false} ContainsExactly(s: string, part: string)
    ensures Contains(s, part) <==> exists before, after :: s == before + part + after
  {
    if Contains(s, part) {
      var i :| 0 <= i <= |s| && part <= s[i..];
      assert s == s[..i] + part + s[i + |part|..];
    }
    if exists before, after :: s == before + part + after {
      var before, after :| s == before + part + after;
      assert s[|before|..] == part + after;
    }
  }

  // ----- Empty parts -----

  lemma {:induction false} ContainsTwice(c: char, s: string, sep: char)
    ensures Contains([c] + s, [sep, sep]) <==> (c == sep && s != "" && s[0] == sep) || Contains(s, [sep, sep])
  {
    var whole := [c] + s;
    if Contains(whole, [sep, sep]) {
      var i :| 0 <= i <= |whole| && [sep, sep] <= whole[i..];
      assert whole[i..][0] == sep && whole[i..][1] == sep;
      if i > 0 {
        assert whole[i..] == s[i - 1..];
      }
    }
    if Contains(s, [sep, sep]) {
      var i :| 0 <= i <= |s| && [sep, sep] <= s[i..];
      assert whole[i + 1..] == s[i..];
    }
    if c == sep && s != "" && s[0] == sep {
      assert [sep, sep] <= whole[0..];
    }
  }

  /** A part after the first is empty where two separators meet, or at the end. */
  lemma {:induction false} LaterEmptyPart(s: string, sep: char)
    ensures "" in Split(s, sep)[1..] <==> Contains(s, [sep, sep]) || (s != "" && s[|s| - 1] == sep)
  {
    if s == "" {
      assert !Contains("", [sep, sep]);
    } else {
      var rest := s[1..];
      assert s == [s[0]] + rest;
      ContainsTwice(s[0], rest, sep);
      LaterEmptyPart(rest, sep);
      var parts := Split(rest, sep);
      assert parts == [parts[0]] + parts[1..];
      if s[0] == sep {
        assert Split(s, sep)[1..] == parts;
      } else {
        assert Split(s, sep)[1..] == parts[1..];
      }
    }
  }

  /** The strings that split into parts of which some are empty. */
  lemma {:induction false} EmptyPart(s: string, sep: char)
    ensures "" in Split(s, sep) <==>
            s == "" || s[0] == sep || s[|s| - 1] == sep || Contains(s, [sep, sep])
  {
    LaterEmptyPart(s, sep);
    var parts := Split(s, sep);
    assert parts == [parts[0]] + parts[1..];
  }

  // ----- Decimal notation -----

  function Decimal(n: int): string
    decreases n < 0, if n < 0 then -n else n
  {
    if n < 0 then "-" + Decimal(-n)
    else if n < 10 then [(n + 48) as char]
    else Decimal(n / 10) + [(n % 10 + 48) as char]
  }

  function ParseDigits(s: string): int {
    if s == "" then 0 else ParseDigits(s[..|s| - 1]) * 10 + s[|s| - 1] as int - 48
  }

  function ParseDecimal(s: string): int {
    if s != "" && s[0] == '-' then -ParseDigits(s[1..]) else ParseDigits(s)
  }

  lemma {:induction false} DigitsRoundTrip(n: nat)
    ensures ParseDigits(Decimal(n)) == n && Decimal(n) != "" && Decimal(n)[0] != '-'
  {
    var s := Decimal(n);
    if n >= 10 {
      DigitsRoundTrip(n / 10);
      assert s[..|s| - 1] == Decimal(n / 10);
    } else {
      assert s[..0] == "";
    }
  }

  /** Every number is read back from its notation, so different numbers have different ones. */
  lemma {:induction false} DecimalRoundTrip(n: int)
    ensures ParseDecimal(Decimal(n)) == n
  {
    DigitsRoundTrip(if n < 0 then -n else n);
    if n < 0 {
      assert Decimal(n)[1..] == Decimal(-n);
    }
  }

  /** Decimal numbers are written with digits. */
  lemma {:induction false} DecimalDigits(n: nat)
    ensures forall c | c in Decimal(n) :: '0' <= c <= '9'
  {
    if n >= 10 {
      DecimalDigits(n / 10);
    }
  }
}
