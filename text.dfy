/** String helpers the event formatter relies on: Swift's `joined(separator:)`
    over an array of strings, and the decimal rendering of an `Int` inside a
    string interpolation such as `"#\(n)"`. `Join(Split(s, c), [c]) == s`
    always holds, and `Split` recovers the tokens of a join when they form a
    non-empty list none of whose tokens contains the separator; `ParseInt`
    reads every rendered number back. */
module Text {

  /** Sum of the lengths of all tokens. */
  function TotalLength(tokens: seq<string>): nat
  {
    if |tokens| == 0 then 0 else |tokens[0]| + TotalLength(tokens[1..])
  }

  /** `tokens.joined(separator: sep)`: the tokens in order with `sep` between
      each neighbouring pair. Empty tokens are kept, so every one of the
      `|tokens| - 1` separators survives. */
  function Join(tokens: seq<string>, sep: string): (r: string)
    ensures |tokens| == 0 ==> r == ""
    ensures |tokens| > 0 ==> |r| == TotalLength(tokens) + (|tokens| - 1) * |sep|
  {
    if |tokens| == 0 then ""
    else if |tokens| == 1 then tokens[0]
    else tokens[0] + sep + Join(tokens[1..], sep)
  }

  /** Joining three tokens is plain concatenation with the separator twice,
      whatever the tokens hold (empty ones included). */
  lemma {:induction false} JoinThree(a: string, b: string, c: string, sep: string)
    ensures Join([a, b, c], sep) == a + sep + b + sep + c
  {
    assert [a, b, c][1..] == [b, c];
    assert [b, c][1..] == [c];
    assert Join([b, c], sep) == b + sep + c;
    assert Join([a, b, c], sep) == a + sep + Join([b, c], sep);
  }

  /** Joining four tokens, as the `create` and `release` arms do. */
  lemma {:induction false} JoinFour(a: string, b: string, c: string, d: string, sep: string)
    ensures Join([a, b, c, d], sep) == a + sep + b + sep + c + sep + d
  {
    assert [a, b, c, d][1..] == [b, c, d];
    JoinThree(b, c, d, sep);
  }

  /** Splitting a string at every occurrence of `c`. Joining the pieces with
      `[c]` gives the string back; the converse holds only for tokens free of
      `c`. Adjacent separators give an empty piece, so the result always has
      one piece more than `s` has occurrences of `c`. */
  function Split(s: string, c: char): (r: seq<string>)
    ensures |r| > 0
    ensures forall i :: 0 <= i < |r| ==> c !in r[i]
  {
    if |s| == 0 then [""]
    else
      var rest := Split(s[1..], c);
      if s[0] == c then [""] + rest
      else [[s[0]] + rest[0]] + rest[1..]
  }

  /** Joining the pieces of a split restores the original string. */
  lemma {:induction false} JoinSplit(s: string, c: char)
    ensures Join(Split(s, c), [c]) == s
  {
    if |s| > 0 {
      var rest := Split(s[1..], c);
      JoinSplit(s[1..], c);
      if s[0] == c {
        assert Split(s, c) == [""] + rest;
        assert ([""] + rest)[1..] == rest;
        assert s == [c] + s[1..];
      } else {
        var pieces := [[s[0]] + rest[0]] + rest[1..];
        assert Split(s, c) == pieces;
        if |rest| == 1 {
          assert s == [s[0]] + rest[0];
        } else {
          assert pieces[1..] == rest[1..];
          assert Join(rest, [c]) == rest[0] + [c] + Join(rest[1..], [c]);
          assert s == [s[0]] + s[1..];
        }
      }
    }
  }

  /** A string free of `c` splits into itself. */
  lemma {:induction false} SplitWithoutSeparator(t: string, c: char)
    requires c !in t
    ensures Split(t, c) == [t]
  {
    if |t| > 0 {
      SplitWithoutSeparator(t[1..], c);
      assert [t[0]] + t[1..] == t;
    }
  }

  /** A separator-free token followed by the separator is split off as one piece. */
  lemma {:induction false} SplitAfterToken(t: string, c: char, s: string)
    requires c !in t
    ensures Split(t + [c] + s, c) == [t] + Split(s, c)
  {
    if |t| == 0 {
      assert t + [c] + s == [c] + s;
      assert ([c] + s)[1..] == s;
    } else {
      SplitAfterToken(t[1..], c, s);
      var whole := t + [c] + s;
      assert whole[0] == t[0];
      assert whole[1..] == t[1..] + [c] + s;
      assert [t[0]] + t[1..] == t;
    }
  }

  /** Splitting a join recovers the tokens, provided they form a non-empty
      list and none of them contains the separator character. (The empty
      list joins to `""`, which splits into `[""]`.) */
  lemma {:induction false} SplitJoin(tokens: seq<string>, c: char)
    requires |tokens| > 0
    requires forall i :: 0 <= i < |tokens| ==> c !in tokens[i]
    ensures Split(Join(tokens, [c]), c) == tokens
  {
    if |tokens| == 1 {
      SplitWithoutSeparator(tokens[0], c);
    } else {
      SplitJoin(tokens[1..], c);
      SplitAfterToken(tokens[0], c, Join(tokens[1..], [c]));
      assert [tokens[0]] + tokens[1..] == tokens;
    }
  }

  predicate IsDigit(ch: char)
  {
    '0' <= ch <= '9'
  }

  predicate IsDigits(s: string)
  {
    forall i :: 0 <= i < |s| ==> IsDigit(s[i])
  }

  function DigitChar(d: nat): (ch: char)
    requires d < 10
    ensures IsDigit(ch)
  {
    (('0' as int) + d) as char
  }

  function DigitValue(ch: char): nat
    requires IsDigit(ch)
  {
    (ch as int) - ('0' as int)
  }

  /** The shortest decimal numeral of `n`: only digits, and no leading zero
      unless the number itself is zero. */
  function NatToString(n: nat): (r: string)
    ensures |r| > 0 && IsDigits(r)
    ensures r[0] == '0' ==> n == 0
  {
    if n < 10 then [DigitChar(n)]
    else NatToString(n / 10) + [DigitChar(n % 10)]
  }

  /** The value of a numeral, most significant digit first. */
  function ParseDigits(s: string): nat
    requires IsDigits(s)
  {
    if |s| == 0 then 0
    else 10 * ParseDigits(s[..|s| - 1]) + DigitValue(s[|s| - 1])
  }

  lemma {:induction false} ParseNatToString(n: nat)
    ensures ParseDigits(NatToString(n)) == n
  {
    if n >= 10 {
      var s := NatToString(n / 10);
      var d := DigitChar(n % 10);
      ParseNatToString(n / 10);
      assert (s + [d])[..|s|] == s;
      assert DigitValue(d) == n % 10;
    }
  }

  /** Swift's rendering of an `Int` in a string interpolation: a minus sign
      for negative numbers, then the decimal digits of the magnitude. */
  function IntToString(i: int): (r: string)
    ensures |r| > 0
    ensures r[0] == '-' <==> i < 0
    ensures i >= 0 ==> IsDigits(r)
    ensures i < 0 ==> |r| > 1 && IsDigits(r[1..])
  {
    if i < 0 then "-" + NatToString(-i) else NatToString(i)
  }

  /** The value of a possibly signed numeral. */
  function ParseInt(s: string): int
    requires |s| > 0
    requires if s[0] == '-' then IsDigits(s[1..]) else IsDigits(s)
  {
    if s[0] == '-' then -(ParseDigits(s[1..]) as int) else ParseDigits(s)
  }

  /** The rendering loses nothing: the number can be read back from it. */
  lemma {:induction false} ParseIntToString(i: int)
    ensures ParseInt(IntToString(i)) == i
  {
    if i < 0 {
      ParseNatToString(-i);
      assert IntToString(i)[1..] == NatToString(-i);
    } else {
      ParseNatToString(i);
    }
  }

  /** Distinct numbers render differently. */
  lemma IntToStringInjective(i: int, j: int)
    requires IntToString(i) == IntToString(j)
    ensures i == j
  {
    ParseIntToString(i);
    ParseIntToString(j);
  }
}
