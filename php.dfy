/**
 * The few PHP built-ins the core relies on, written out on `seq<char>`:
 * trim(), str_replace("'", "", ...), empty() on a nullable string,
 * truthiness of a `string|false` value and substr($s, 0, $n).
 */
module Php {
  import opened Wrappers

  /** A value that PHP holds as `string|bool` and that is either `false` or a string. */
  datatype StrOrFalse = False | Str(value: string)

  /** PHP truthiness of a `string|false`: false, "" and "0" are falsy. */
  predicate Truthy(v: StrOrFalse) {
    v.Str? && v.value != "" && v.value != "0"
  }

  /** PHP's strtotime(): a Unix timestamp, or None for `false`. */
  type StrToTime = string -> Option<int>

  /** The characters trim() strips by default: space, tab, LF, CR, NUL and vertical tab. */
  predicate IsTrimChar(c: char) {
    c == ' ' || c == '\t' || c == '\n' || c == '\r' || c == '\0' || c == '\U{000B}'
  }

  /** Every character of `t` is one that trim() strips. */
  predicate AllTrim(t: string) {
    forall i :: 0 <= i < |t| ==> IsTrimChar(t[i])
  }

  /** ltrim(): drops the leading trim characters. */
  function TrimLeft(s: string): (r: string)
    ensures |r| <= |s|
  {
    if |s| > 0 && IsTrimChar(s[0]) then TrimLeft(s[1..]) else s
  }

  /** ltrim() drops only trim characters, from the front, and stops at the first other character. */
  lemma {:induction false} TrimLeftSpec(s: string)
    ensures var r := TrimLeft(s);
      && r == s[|s| - |r|..]
      && (r == [] || !IsTrimChar(r[0]))
      && AllTrim(s[..|s| - |r|])
    decreases |s|
  {
    if |s| > 0 && IsTrimChar(s[0]) {
      var t := s[1..];
      TrimLeftSpec(t);
      var r := TrimLeft(t);
      assert t[|t| - |r|..] == s[|s| - |r|..];
      var pre := s[..|s| - |r|];
      forall i | 0 <= i < |pre| ensures IsTrimChar(pre[i]) {
        if i > 0 {
          assert pre[i] == t[..|t| - |r|][i - 1];
        }
      }
    } else {
      assert s[..0] == [];
    }
  }

  /** rtrim(): drops the trailing trim characters. */
  function TrimRight(s: string): (r: string)
    ensures |r| <= |s|
  {
    if |s| > 0 && IsTrimChar(s[|s| - 1]) then TrimRight(s[..|s| - 1]) else s
  }

  /** rtrim() drops only trim characters, from the back, and stops at the last other character. */
  lemma {:induction false} TrimRightSpec(s: string)
    ensures var r := TrimRight(s);
      && r == s[..|r|]
      && (r == [] || !IsTrimChar(r[|r| - 1]))
      && AllTrim(s[|r|..])
    decreases |s|
  {
    if |s| > 0 && IsTrimChar(s[|s| - 1]) {
      var t := s[..|s| - 1];
      TrimRightSpec(t);
      var r := TrimRight(t);
      assert t[..|r|] == s[..|r|];
      var post := s[|r|..];
      forall i | 0 <= i < |post| ensures IsTrimChar(post[i]) {
        if i < |s| - 1 - |r| {
          assert post[i] == t[|r|..][i];
        }
      }
    } else {
      assert s[|s|..] == [];
    }
  }

  /** trim(): the trim characters dropped at both ends. */
  function Trim(s: string): (r: string)
  {
    TrimRight(TrimLeft(s))
  }

  /**
   * trim() keeps the infix of `s` left once the trim characters in front
   * (the first `|s| - |TrimLeft(s)|` characters) and at the back are
   * dropped, and that infix neither starts nor ends with one.
   */
  lemma TrimInfix(s: string)
    ensures var k := |s| - |TrimLeft(s)|;
      && k + |Trim(s)| <= |s| && Trim(s) == s[k..k + |Trim(s)|]
      && AllTrim(s[..k]) && AllTrim(s[k + |Trim(s)|..])
    ensures Trim(s) == [] || (!IsTrimChar(Trim(s)[0]) && !IsTrimChar(Trim(s)[|Trim(s)| - 1]))
  {
    var l := TrimLeft(s);
    var r := TrimRight(l);
    var k := |s| - |l|;
    TrimLeftSpec(s);
    TrimRightSpec(l);
    assert l == s[k..];
    assert r == s[k..k + |r|] by {
      assert r == l[..|r|];
    }
    assert l[|r|..] == s[k + |r|..];
  }

  /** A string of trim characters only is dropped entirely by TrimLeft. */
  lemma {:induction false} TrimLeftAllTrim(s: string)
    requires AllTrim(s)
    ensures TrimLeft(s) == []
  {
    if s != [] {
      assert forall i :: 0 <= i < |s| - 1 ==> s[1..][i] == s[i + 1];
      TrimLeftAllTrim(s[1..]);
    }
  }

  /** A string trims to "" exactly when it consists of trim characters only. */
  lemma {:induction false} TrimEmptyIff(s: string)
    ensures Trim(s) == "" <==> AllTrim(s)
  {
    if Trim(s) == "" {
      var l := TrimLeft(s);
      TrimLeftSpec(s);
      TrimRightSpec(l);
      assert AllTrim(l[0..]);
      assert l == [];
      assert s[..|s|] == s;
    }
    if AllTrim(s) {
      TrimLeftAllTrim(s);
    }
  }

  /** Trimming twice is trimming once. */
  lemma TrimIdempotent(s: string)
    ensures Trim(Trim(s)) == Trim(s)
  {
    var t := Trim(s);
    TrimInfix(s);
    if t != [] {
      assert TrimLeft(t) == t;
      assert TrimRight(t) == t;
    }
  }

  /** str_replace("'", "", s): every single quote removed, everything else kept in order. */
  function StripQuotes(s: string): (r: string)
    ensures '\'' !in r
  {
    if s == [] then [] else (if s[0] == '\'' then [] else [s[0]]) + StripQuotes(s[1..])
  }

  /** Stripping drops exactly the quotes: every other character keeps its count. */
  lemma {:induction false} StripQuotesCounts(s: string)
    ensures |StripQuotes(s)| == |s| - multiset(s)['\'']
    ensures forall c :: c != '\'' ==> multiset(StripQuotes(s))[c] == multiset(s)[c]
  {
    if s != [] {
      assert s == [s[0]] + s[1..];
      StripQuotesCounts(s[1..]);
    }
  }

  /** Quote stripping works piecewise, so it keeps the order of what it keeps. */
  lemma {:induction false} StripQuotesConcat(a: string, b: string)
    ensures StripQuotes(a + b) == StripQuotes(a) + StripQuotes(b)
  {
    if a == [] {
      assert a + b == b;
    } else {
      assert (a + b)[0] == a[0];
      assert (a + b)[1..] == a[1..] + b;
      StripQuotesConcat(a[1..], b);
    }
  }

  /** A string without single quotes is left as it is. */
  lemma {:induction false} StripQuotesNoQuote(s: string)
    requires '\'' !in s
    ensures StripQuotes(s) == s
  {
    if s != [] {
      assert s[0] != '\'';
      assert '\'' !in s[1..] by {
        forall i | 0 <= i < |s| - 1 ensures s[1..][i] != '\'' {
          assert s[1..][i] == s[i + 1];
        }
      }
      StripQuotesNoQuote(s[1..]);
    }
  }

  /** A quote between two quote-free strings is removed and the strings are joined. */
  lemma StripInnerQuote(a: string, b: string)
    requires '\'' !in a && '\'' !in b
    ensures StripQuotes(a + ['\''] + b) == a + b
  {
    var q := ['\''];
    assert StripQuotes(q) == [];
    assert StripQuotes(a + q) == a by {
      StripQuotesConcat(a, q);
      StripQuotesNoQuote(a);
    }
    assert StripQuotes(b) == b by {
      StripQuotesNoQuote(b);
    }
    StripQuotesConcat(a + q, b);
  }

  /** The input of a stripping is stripped already. */
  lemma StripQuotesIdempotent(s: string)
    ensures StripQuotes(StripQuotes(s)) == StripQuotes(s)
  {
    StripQuotesNoQuote(StripQuotes(s));
  }

  /** PHP's empty() on a `string|null`: null, "" and "0" are empty. */
  predicate IsEmpty(v: Option<string>) {
    v.None? || v.value == "" || v.value == "0"
  }

  /** substr($s, 0, $n) for $n >= 0: the first $n characters, or all of them. */
  function FirstChars(s: string, n: nat): (r: string)
    ensures |r| <= n && r <= s
    ensures |s| <= n ==> r == s
    ensures |s| > n ==> |r| == n
  {
    if |s| <= n then s else s[..n]
  }
}
