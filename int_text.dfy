/** Python's `int()` applied to a line of text, as `prompt_for_integer`
    uses it: surrounding whitespace, an optional sign, and decimal digits
    that may be grouped by single underscores. Anything else raises
    ValueError, which is `None` here. */
module IntText {
  import opened Wrappers

  predicate IsDigit(c: char)
  {
    '0' as int <= c as int <= '9' as int
  }

  /** The ASCII whitespace `int()` skips around the number: space, tab,
      line feed, vertical tab, form feed and carriage return. The
      separators 0x1C to 0x1F are not among them. */
  predicate IsSpace(c: char)
  {
    c == ' ' || ('\t' <= c <= '\r')
  }

  function TrimStart(s: string): string
  {
    if s != [] && IsSpace(s[0]) then TrimStart(s[1..]) else s
  }

  function TrimEnd(s: string): string
  {
    if s != [] && IsSpace(s[|s| - 1]) then TrimEnd(s[..|s| - 1]) else s
  }

  /** The line without the whitespace `int()` skips at either end. */
  function Strip(s: string): string
  {
    TrimEnd(TrimStart(s))
  }

  /** Decimal digits with single underscores between them, as in `1_000`:
      a digit first, and after each digit either the rest, or one
      underscore and then the rest. */
  predicate Grouped(d: string)
  {
    && d != []
    && IsDigit(d[0])
    && (|d| == 1 || Grouped(if d[1] == '_' then d[2..] else d[1..]))
  }

  /** The number the digits of d denote, underscores skipped. */
  function Value(d: string): int
  {
    if d == [] then 0
    else if d[|d| - 1] == '_' then Value(d[..|d| - 1])
    else Value(d[..|d| - 1]) * 10 + (d[|d| - 1] as int - '0' as int)
  }

  /** `int(line)`: surrounding whitespace is skipped, and only what is left
      counts. */
  function ParseInt(line: string): Option<int>
  {
    ParseStripped(Strip(line))
  }

  /** `int` on a line with no surrounding whitespace: an optional sign,
      then the digits. */
  function ParseStripped(body: string): Option<int>
  {
    if body == [] then None
    else if body[0] == '-' then
      match ParseDigits(body[1..])
      case None => None
      case Some(m) => Some(-m)
    else if body[0] == '+' then ParseDigits(body[1..])
    else ParseDigits(body)
  }

  /** The value of unsigned, possibly grouped, decimal digits. */
  function ParseDigits(digits: string): Option<int>
  {
    if Grouped(digits) then Some(Value(digits)) else None
  }

  predicate AllDigits(d: string)
  {
    forall i :: 0 <= i < |d| ==> IsDigit(d[i])
  }

  predicate AllSpace(s: string)
  {
    forall i :: 0 <= i < |s| ==> IsSpace(s[i])
  }

  // ---- Printing ----

  /** Decimal digits of a natural number, without leading zeros. */
  function NatDigits(n: nat): (d: string)
    ensures d != [] && AllDigits(d)
  {
    if n < 10 then [('0' as int + n) as char]
    else NatDigits(n / 10) + [('0' as int + n % 10) as char]
  }

  /** `str(n)`: the decimal rendering of an integer. */
  function Show(n: int): string
  {
    if n < 0 then "-" + NatDigits(-n) else NatDigits(n)
  }

  lemma {:induction false} NatDigitsValue(n: nat)
    ensures Value(NatDigits(n)) == n
  {
    if n >= 10 {
      var d := NatDigits(n);
      assert d[..|d| - 1] == NatDigits(n / 10);
      NatDigitsValue(n / 10);
    }
  }

  // ---- Facts about the pieces ----

  lemma {:induction false} AllDigitsGrouped(d: string)
    requires d != [] && AllDigits(d)
    ensures Grouped(d)
    decreases |d|
  {
    if |d| > 1 {
      assert d[1] != '_';
      AllDigitsGrouped(d[1..]);
    }
  }

  /** A string that starts and ends with a non-space is its own strip. */
  lemma StripUnpadded(s: string)
    requires s != [] && !IsSpace(s[0]) && !IsSpace(s[|s| - 1])
    ensures Strip(s) == s
  {
  }

  lemma {:induction false} TrimStartPadding(pre: string, rest: string)
    requires AllSpace(pre) && (rest == [] || !IsSpace(rest[0]))
    ensures TrimStart(pre + rest) == rest
    decreases |pre|
  {
    if pre == [] {
      assert pre + rest == rest;
    } else {
      assert (pre + rest)[1..] == pre[1..] + rest;
      TrimStartPadding(pre[1..], rest);
    }
  }

  lemma {:induction false} TrimEndPadding(rest: string, post: string)
    requires AllSpace(post) && (rest == [] || !IsSpace(rest[|rest| - 1]))
    ensures TrimEnd(rest + post) == rest
    decreases |post|
  {
    if post == [] {
      assert rest + post == rest;
    } else {
      assert (rest + post)[..|rest + post| - 1] == rest + post[..|post| - 1];
      TrimEndPadding(rest, post[..|post| - 1]);
    }
  }

  // ---- What int() accepts and rejects ----

  /** Every integer typed the way Python prints it is read back as itself. */
  lemma ParseShow(n: int)
    ensures ParseInt(Show(n)) == Some(n)
  {
    var s := Show(n);
    var m: nat := if n < 0 then -n else n;
    var d := NatDigits(m);
    assert IsDigit(d[0]) && IsDigit(d[|d| - 1]);
    assert s[|s| - 1] == d[|d| - 1];
    StripUnpadded(s);
    AllDigitsGrouped(d);
    NatDigitsValue(m);
    if n < 0 {
      assert s[0] == '-' && s[1..] == d;
    }
  }

  /** Digits without underscores denote their decimal value. */
  lemma PlainDigits(d: string)
    requires d != [] && AllDigits(d)
    ensures ParseDigits(d) == Some(Value(d))
  {
    AllDigitsGrouped(d);
  }

  /** A line of nothing but whitespace, the empty line included, is not an
      integer. */
  lemma ParseRejectsBlank(line: string)
    requires AllSpace(line)
    ensures ParseInt(line) == None
  {
    assert line + [] == line;
    TrimStartPadding(line, []);
  }

  /** Whitespace around a number is ignored. */
  lemma ParsePadded(pre: string, line: string, post: string)
    requires AllSpace(pre) && AllSpace(post)
    requires line != [] && !IsSpace(line[0]) && !IsSpace(line[|line| - 1])
    ensures ParseInt(pre + line + post) == ParseInt(line)
  {
    assert pre + line + post == pre + (line + post);
    TrimStartPadding(pre, line + post);
    TrimEndPadding(line, post);
    StripUnpadded(line);
  }

  /** An ASCII separator 0x1C to 0x1F is not whitespace to `int()`: a line
      that starts with one is no integer, whatever digits follow. */
  lemma ParseRejectsSeparator(c: char, d: string)
    requires 28 <= c as int <= 31
    requires d != [] && AllDigits(d)
    ensures ParseInt([c] + d) == None
  {
    var line := [c] + d;
    assert line[0] == c && line[|line| - 1] == d[|d| - 1];
    assert IsDigit(d[|d| - 1]);
    StripUnpadded(line);
  }

  /** A sign in front of the digits: "-" negates, "+" changes nothing. */
  lemma ParseSigned(sign: char, d: string)
    requires sign == '-' || sign == '+'
    requires d != [] && AllDigits(d)
    ensures ParseInt([sign] + d) == Some(if sign == '-' then -Value(d) else Value(d))
  {
    var line := [sign] + d;
    assert line[0] == sign && line[1..] == d && line[|line| - 1] == d[|d| - 1];
    assert IsDigit(d[|d| - 1]);
    StripUnpadded(line);
    PlainDigits(d);
  }

  lemma {:induction false} UnderscoreSkipped(a: string, b: string)
    ensures Value(a + "_" + b) == Value(a + b)
    decreases |b|
  {
    if b == [] {
      assert (a + "_" + b)[..|a + "_" + b| - 1] == a;
      assert a + b == a;
    } else {
      var b' := b[..|b| - 1];
      assert (a + "_" + b)[..|a + "_" + b| - 1] == a + "_" + b';
      assert (a + b)[..|a + b| - 1] == a + b';
      UnderscoreSkipped(a, b');
    }
  }

  lemma {:induction false} GroupedAround(a: string, b: string)
    requires a != [] && AllDigits(a)
    requires Grouped(b)
    ensures Grouped(a + "_" + b)
    decreases |a|
  {
    var d := a + "_" + b;
    if |a| == 1 {
      assert d[1] == '_' && d[2..] == b;
    } else {
      assert d[1] == a[1] && d[1..] == a[1..] + "_" + b;
      GroupedAround(a[1..], b);
    }
  }

  /** A single underscore between two runs of digits only groups them:
      "1_000" reads as "1000". */
  lemma ParseGrouped(a: string, b: string)
    requires a != [] && AllDigits(a)
    requires b != [] && AllDigits(b)
    ensures ParseInt(a + "_" + b) == ParseInt(a + b)
    ensures ParseInt(a + b).Some?
  {
    var line := a + "_" + b;
    assert line[0] == a[0] && line[|line| - 1] == b[|b| - 1];
    assert IsDigit(line[0]) && IsDigit(line[|line| - 1]);
    StripUnpadded(line);
    AllDigitsGrouped(b);
    GroupedAround(a, b);
    UnderscoreSkipped(a, b);
    var joined := a + b;
    assert AllDigits(joined) by {
      forall i | 0 <= i < |joined|
        ensures IsDigit(joined[i])
      {
        if i < |a| {
          assert joined[i] == a[i];
        } else {
          assert joined[i] == b[i - |a|];
        }
      }
    }
    assert joined[0] == a[0] && joined[|joined| - 1] == b[|b| - 1];
    StripUnpadded(joined);
    PlainDigits(joined);
  }

  lemma {:induction false} DoubleUnderscoreUngrouped(d: string, i: nat)
    requires i + 1 < |d| && d[i] == '_' && d[i + 1] == '_'
    ensures !Grouped(d)
    decreases |d|
  {
    if i > 0 && Grouped(d) {
      if d[1] == '_' {
        if i > 1 {
          DoubleUnderscoreUngrouped(d[2..], i - 2);
        }
      } else {
        DoubleUnderscoreUngrouped(d[1..], i - 1);
      }
    }
  }

  /** Two underscores in a row make the line no integer, "1__0" for one. */
  lemma ParseRejectsDoubleUnderscore(a: string, b: string)
    requires a != [] && !IsSpace(a[0]) && b != [] && !IsSpace(b[|b| - 1])
    ensures ParseInt(a + "__" + b) == None
  {
    var line := a + "__" + b;
    assert line[0] == a[0] && line[|line| - 1] == b[|b| - 1];
    StripUnpadded(line);
    assert line[|a|] == '_' && line[|a| + 1] == '_';
    DoubleUnderscoreUngrouped(line, |a|);
    if line[0] == '-' || line[0] == '+' {
      if |a| == 1 {
        assert line[1..][0] == '_';
      } else {
        DoubleUnderscoreUngrouped(line[1..], |a| - 1);
      }
    }
  }
}
