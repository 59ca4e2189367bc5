/** The few Ruby String operations the feature relies on: String#strip, Array#join,
    String#[] with a String argument and Integer#to_s. */
module Text {

  /** The characters String#strip removes: null, horizontal tab, line feed, vertical tab,
      form feed, carriage return and space. */
  predicate IsStripSpace(c: char) {
    c as int == 0 || 9 <= c as int <= 13 || c as int == 32
  }

  predicate AllStripSpace(s: string) {
    forall k :: 0 <= k < |s| ==> IsStripSpace(s[k])
  }

  /** String#lstrip. */
  function TrimStart(s: string): string {
    if s != [] && IsStripSpace(s[0]) then TrimStart(s[1..]) else s
  }

  /** lstrip drops a whitespace prefix and nothing else, and leaves no leading whitespace. */
  lemma {:induction false} TrimStartSpec(s: string)
    ensures var r := TrimStart(s);
      && |r| <= |s| && r == s[|s| - |r|..]
      && AllStripSpace(s[..|s| - |r|])
      && (r == [] || !IsStripSpace(r[0]))
  {
    if s != [] && IsStripSpace(s[0]) {
      var tail := s[1..];
      TrimStartSpec(tail);
      var r := TrimStart(tail);
      assert TrimStart(s) == r;
      assert r == s[|s| - |r|..] by {
        assert tail[|tail| - |r|..] == s[|s| - |r|..];
      }
      assert AllStripSpace(s[..|s| - |r|]) by {
        var cut, tailCut := s[..|s| - |r|], tail[..|tail| - |r|];
        assert tailCut == s[1..|s| - |r|];
        forall k | 0 <= k < |cut|
          ensures IsStripSpace(cut[k])
        {
          if k > 0 {
            assert cut[k] == tailCut[k - 1];
          }
        }
      }
    }
  }

  /** String#rstrip. */
  function TrimEnd(s: string): string {
    if s != [] && IsStripSpace(s[|s| - 1]) then TrimEnd(s[..|s| - 1]) else s
  }

  /** rstrip drops a whitespace suffix and nothing else, and leaves no trailing whitespace. */
  lemma {:induction false} TrimEndSpec(s: string)
    ensures var r := TrimEnd(s);
      && |r| <= |s| && r == s[..|r|]
      && AllStripSpace(s[|r|..])
      && (r == [] || !IsStripSpace(r[|r| - 1]))
  {
    if s != [] && IsStripSpace(s[|s| - 1]) {
      var init := s[..|s| - 1];
      TrimEndSpec(init);
      var r := TrimEnd(init);
      assert TrimEnd(s) == r;
      assert r == s[..|r|] by {
        assert init[..|r|] == s[..|r|];
      }
      assert AllStripSpace(s[|r|..]) by {
        assert init[|r|..] == s[|r|..|s| - 1];
        forall k | 0 <= k < |s[|r|..]|
          ensures IsStripSpace(s[|r|..][k])
        {
          if |r| + k < |s| - 1 {
            assert s[|r|..][k] == init[|r|..][k];
          }
        }
      }
    }
  }

  /** String#strip. */
  function Strip(s: string): string {
    TrimEnd(TrimStart(s))
  }

  /** Strip removes whitespace only at the two ends: the result is a contiguous part of `s`,
      everything cut off is whitespace, and the result neither starts nor ends with it. */
  lemma StripIsTrimmedInfix(s: string)
    ensures |Strip(s)| <= |TrimStart(s)| <= |s|
    ensures Strip(s) == [] || (!IsStripSpace(Strip(s)[0]) && !IsStripSpace(Strip(s)[|Strip(s)| - 1]))
    ensures var i := |s| - |TrimStart(s)|;
      && s[i..i + |Strip(s)|] == Strip(s)
      && AllStripSpace(s[..i])
      && AllStripSpace(s[i + |Strip(s)|..])
  {
    var t := TrimStart(s);
    var i := |s| - |t|;
    var r := Strip(s);
    TrimStartSpec(s);
    TrimEndSpec(t);
    assert t == s[i..];
    assert r == t[..|r|];
    assert s[i..i + |r|] == t[..|r|];
    assert s[i + |r|..] == t[|r|..];
    if r != [] {
      assert r[0] == t[0];
    }
  }

  /** A string strips to "" exactly when every character of it is whitespace. */
  lemma StripEmptyIffBlank(s: string)
    ensures Strip(s) == [] <==> AllStripSpace(s)
  {
    var t := TrimStart(s);
    var i := |s| - |t|;
    StripIsTrimmedInfix(s);
    TrimStartSpec(s);
    TrimEndSpec(t);
    if Strip(s) != [] {
      assert s[i] == Strip(s)[0];
    } else {
      // TrimStart(s) starts with a non-space, yet strips to "", so it is empty
      forall k | 0 <= k < |s|
        ensures IsStripSpace(s[k])
      {
        assert s[..i][k] == s[k];
      }
    }
  }

  /** Stripping a string that is already stripped changes nothing. */
  lemma StripIdempotent(s: string)
    ensures Strip(Strip(s)) == Strip(s)
  {
    StripIsTrimmedInfix(s);
  }

  /** Array#join(sep) on an array of strings. */
  function Join(sep: string, parts: seq<string>): string {
    if |parts| == 0 then ""
    else if |parts| == 1 then parts[0]
    else parts[0] + sep + Join(sep, parts[1..])
  }

  /** Joining one more part appends the separator and that part. */
  lemma {:induction false} JoinSnoc(sep: string, parts: seq<string>, x: string)
    requires parts != []
    ensures Join(sep, parts + [x]) == Join(sep, parts) + sep + x
  {
    if |parts| > 1 {
      assert (parts + [x])[1..] == parts[1..] + [x];
      JoinSnoc(sep, parts[1..], x);
    } else {
      assert parts + [x] == [parts[0], x];
    }
  }

  /** Splits `s` at every occurrence of `c`; the inverse of joining with [c]. */
  function Split(s: string, c: char): (r: seq<string>)
    ensures |r| >= 1
  {
    if s == [] then [[]]
    else
      var rest := Split(s[1..], c);
      if s[0] == c then [[]] + rest else [[s[0]] + rest[0]] + rest[1..]
  }

  lemma {:induction false} SplitNoSeparator(s: string, c: char)
    requires c !in s
    ensures Split(s, c) == [s]
  {
    if s != [] {
      assert c !in s[1..];
      SplitNoSeparator(s[1..], c);
      assert [s[0]] + s[1..] == s;
    }
  }

  lemma {:induction false} SplitAtSeparator(a: string, c: char, b: string)
    requires c !in a
    ensures Split(a + [c] + b, c) == [a] + Split(b, c)
  {
    if a == [] {
      assert a + [c] + b == [c] + b;
      assert ([c] + b)[1..] == b;
    } else {
      assert (a + [c] + b)[1..] == a[1..] + [c] + b;
      assert c !in a[1..];
      SplitAtSeparator(a[1..], c, b);
      assert [a[0]] + a[1..] == a;
    }
  }

  /** Splitting a non-empty list of lines joined with a newline-like separator gives the list
      back, provided no line contains the separator. */
  lemma {:induction false} SplitJoin(parts: seq<string>, c: char)
    requires parts != []
    requires forall i :: 0 <= i < |parts| ==> c !in parts[i]
    ensures Split(Join([c], parts), c) == parts
  {
    if |parts| == 1 {
      SplitNoSeparator(parts[0], c);
    } else {
      SplitJoin(parts[1..], c);
      SplitAtSeparator(parts[0], c, Join([c], parts[1..]));
      assert [parts[0]] + parts[1..] == parts;
    }
  }

  /** Whether `t` occurs in `s` (what `s[t]` tests: it returns `t` if so, nil otherwise). */
  function Contains(s: string, t: string): bool
    decreases |s|
  {
    if |t| <= |s| && s[..|t|] == t then true
    else if s == [] then false
    else Contains(s[1..], t)
  }

  /** `t` occurs in `s` starting at index `i`. */
  predicate OccursAt(s: string, t: string, i: int) {
    0 <= i <= |s| - |t| && s[i..i + |t|] == t
  }

  lemma {:induction false} ContainsIffOccurs(s: string, t: string)
    ensures Contains(s, t) <==> exists i :: OccursAt(s, t, i)
  {
    if |t| <= |s| && s[..|t|] == t {
      assert OccursAt(s, t, 0);
    } else if s == [] {
    } else {
      ContainsIffOccurs(s[1..], t);
      forall i | 0 <= i
        ensures OccursAt(s[1..], t, i) <==> OccursAt(s, t, i + 1)
      {
        if i <= |s| - 1 - |t| {
          assert s[1..][i..i + |t|] == s[i + 1..i + 1 + |t|];
        }
      }
      if exists i :: OccursAt(s, t, i) {
        var i :| OccursAt(s, t, i);
        assert i != 0;
        assert OccursAt(s[1..], t, i - 1);
      }
    }
  }

  /** Integer#to_s in base 10. */
  function IntToString(n: int): string {
    if n < 0 then "-" + NatToString(-n) else NatToString(n)
  }

  function NatToString(n: nat): string
    decreases n
  {
    if n < 10 then [Digit(n)] else NatToString(n / 10) + [Digit(n % 10)]
  }

  function Digit(d: nat): char
    requires d < 10
  {
    "0123456789"[d]
  }
}
