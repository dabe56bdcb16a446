/** Tokenising with the semantics of C's `strtok` for a one-character delimiter set,
    and the "join the remaining tokens" idiom both REPLs build on it. */
module Strtok {

  /** Length of the longest prefix of `s` that holds no `d` (`strcspn`). */
  function Span(s: string, d: char): (n: nat)
    ensures n <= |s|
    ensures forall i :: 0 <= i < n ==> s[i] != d
    ensures n < |s| ==> s[n] == d
  {
    if s == [] || s[0] == d then 0 else 1 + Span(s[1..], d)
  }

  /** The tokens `strtok` returns one after the other on `s`: the maximal non-empty
      runs of characters other than `d`, in order. Runs of delimiters collapse, so
      no token is empty. */
  function Tokens(s: string, d: char): (ts: seq<string>)
    ensures Separable(ts, d)
    decreases |s|
  {
    if s == [] then []
    else if s[0] == d then Tokens(s[1..], d)
    else
      var n := Span(s, d);
      assert d !in s[..n] by {
        forall i | 0 <= i < n ensures s[..n][i] != d { }
      }
      [s[..n]] + Tokens(s[n..], d)
  }

  /** Every token is non-empty and free of the delimiter. */
  predicate Separable(ts: seq<string>, d: char) {
    forall i :: 0 <= i < |ts| ==> ts[i] != [] && d !in ts[i]
  }

  /** The tokens written out again with one `d` between neighbours. */
  function Join(ts: seq<string>, d: char): string
  {
    if ts == [] then []
    else if |ts| == 1 then ts[0]
    else ts[0] + [d] + Join(ts[1..], d)
  }

  lemma {:induction false} SpanAppend(a: string, b: string, d: char)
    requires d !in a
    ensures Span(a + b, d) == |a| + Span(b, d)
  {
    if a != [] {
      assert (a + b)[1..] == a[1..] + b;
      SpanAppend(a[1..], b, d);
    } else {
      assert a + b == b;
    }
  }

  lemma {:induction false} SpanPrefix(a: string, b: string, d: char)
    requires Span(a, d) < |a|
    ensures Span(a + b, d) == Span(a, d)
  {
    if a[0] != d {
      assert (a + b)[1..] == a[1..] + b;
      SpanPrefix(a[1..], b, d);
    }
  }

  /** A delimiter splits the text into two parts tokenised independently: fields
      that a run of delimiters would leave empty disappear. */
  lemma {:induction false} TokensSplit(a: string, b: string, d: char)
    ensures Tokens(a + [d] + b, d) == Tokens(a, d) + Tokens(b, d)
    decreases |a|
  {
    var s := a + [d] + b;
    if a == [] {
      TokensSkip(s, d);
      assert s[1..] == b;
    } else if a[0] == d {
      TokensSkip(s, d);
      TokensSkip(a, d);
      assert s[1..] == a[1..] + [d] + b;
      TokensSplit(a[1..], b, d);
    } else {
      var n := Span(a, d);
      SpanThroughDelimiter(a, b, d);
      TokensStep(s, d, n);
      TokensStep(a, d, n);
      assert s[..n] == a[..n];
      assert s[n..] == a[n..] + [d] + b;
      TokensSplit(a[n..], b, d);
      AppendAssoc([a[..n]], Tokens(a[n..], d), Tokens(b, d));
    }
  }

  /** A leading delimiter produces no token. */
  lemma TokensSkip(s: string, d: char)
    requires s != [] && s[0] == d
    ensures Tokens(s, d) == Tokens(s[1..], d)
  {
  }

  /** A text that starts with a non-delimiter starts with the token up to the next
      delimiter. */
  lemma TokensStep(s: string, d: char, n: nat)
    requires s != [] && s[0] != d && n == Span(s, d)
    ensures Tokens(s, d) == [s[..n]] + Tokens(s[n..], d)
  {
  }

  /** The first token of `a` is also the first token once a delimiter and more text
      follow. */
  lemma SpanThroughDelimiter(a: string, b: string, d: char)
    ensures Span(a + [d] + b, d) == Span(a, d)
  {
    var n := Span(a, d);
    if n < |a| {
      SpanPrefix(a, [d] + b, d);
    } else {
      assert d !in a by {
        forall i | 0 <= i < |a| ensures a[i] != d { }
      }
      SpanAppend(a, [d] + b, d);
    }
    assert a + [d] + b == a + ([d] + b);
  }

  /** The first token starts with the first character, when that is no delimiter. */
  lemma TokensHead(s: string, d: char)
    requires s != [] && s[0] != d
    ensures Tokens(s, d) != [] && Tokens(s, d)[0] != [] && Tokens(s, d)[0][0] == s[0]
  {
    var n := Span(s, d);
    TokensStep(s, d, n);
  }

  lemma AppendAssoc<T>(p: seq<T>, q: seq<T>, r: seq<T>)
    ensures p + (q + r) == (p + q) + r
  {
  }

  /** A non-empty text without the delimiter is a single token. */
  lemma TokensSingle(t: string, d: char)
    requires t != [] && d !in t
    ensures Tokens(t, d) == [t]
  {
    SpanAppend(t, [], d);
    assert t + [] == t;
    assert t[Span(t, d)..] == [];
  }

  /** Tokenising undoes joining, for tokens `strtok` could have produced. */
  lemma {:induction false} TokensJoin(ts: seq<string>, d: char)
    requires Separable(ts, d)
    ensures Tokens(Join(ts, d), d) == ts
  {
    if |ts| == 1 {
      TokensSingle(ts[0], d);
    } else if |ts| > 1 {
      TokensSplit(ts[0], Join(ts[1..], d), d);
      TokensSingle(ts[0], d);
      TokensJoin(ts[1..], d);
    }
  }

  /** Joining two non-empty lists puts one delimiter between their joins. */
  lemma {:induction false} JoinAppend(a: seq<string>, b: seq<string>, d: char)
    requires a != [] && b != []
    ensures Join(a + b, d) == Join(a, d) + [d] + Join(b, d)
  {
    if |a| == 1 {
      assert a + b == [a[0]] + b;
      assert (a + b)[1..] == b;
    } else {
      assert (a + b)[1..] == a[1..] + b;
      JoinAppend(a[1..], b, d);
    }
  }

  /** No token holds a character the text does not hold. */
  lemma {:induction false} TokensAvoid(s: string, d: char, c: char)
    requires c !in s
    ensures forall i :: 0 <= i < |Tokens(s, d)| ==> c !in Tokens(s, d)[i]
    decreases |s|
  {
    if s != [] {
      if s[0] == d {
        TokensAvoid(s[1..], d, c);
      } else {
        var n := Span(s, d);
        assert c !in s[..n] by {
          forall i | 0 <= i < n ensures s[..n][i] != c { assert s[..n][i] == s[i]; }
        }
        assert c !in s[n..] by {
          forall i | 0 <= i < |s| - n ensures s[n..][i] != c { assert s[n..][i] == s[n + i]; }
        }
        TokensAvoid(s[n..], d, c);
      }
    }
  }

  /** The text after the last `d` (all of it when there is none). */
  function AfterLast(s: string, d: char): (t: string)
    ensures d !in t
  {
    if s == [] || s[|s| - 1] == d then [] else AfterLast(s[..|s| - 1], d) + [s[|s| - 1]]
  }

  lemma {:induction false} AfterLastFree(s: string, d: char)
    requires d !in s
    ensures AfterLast(s, d) == s
  {
    if s != [] {
      AfterLastFree(s[..|s| - 1], d);
    }
  }

  lemma {:induction false} AfterLastPast(a: string, q: string, d: char)
    ensures AfterLast(a + [d] + q, d) == AfterLast(q, d)
    decreases |q|
  {
    var s := a + [d] + q;
    if q == [] {
      assert s == a + [d];
    } else if q[|q| - 1] != d {
      assert s[..|s| - 1] == a + [d] + q[..|q| - 1];
      AfterLastPast(a, q[..|q| - 1], d);
    }
  }

  /** When the text does not end in the delimiter, its last token is what follows its
      last delimiter. */
  lemma {:induction false} LastToken(s: string, d: char)
    requires s != [] && s[|s| - 1] != d
    ensures Tokens(s, d) != [] && Tokens(s, d)[|Tokens(s, d)| - 1] == AfterLast(s, d)
    decreases |s|
  {
    if s[0] == d {
      LastTokenSkip(s, d);
    } else if Span(s, d) == |s| {
      assert d !in s by {
        forall i | 0 <= i < |s| ensures s[i] != d { }
      }
      TokensSingle(s, d);
      AfterLastFree(s, d);
    } else {
      LastTokenSplit(s, d);
    }
  }

  lemma {:induction false} LastTokenSkip(s: string, d: char)
    requires s != [] && s[|s| - 1] != d && s[0] == d
    ensures Tokens(s, d) != [] && Tokens(s, d)[|Tokens(s, d)| - 1] == AfterLast(s, d)
    decreases |s|, 0
  {
    assert Tokens(s, d) == Tokens(s[1..], d);
    assert s == [] + [d] + s[1..];
    AfterLastPast([], s[1..], d);
    LastToken(s[1..], d);
  }

  lemma {:induction false} LastTokenSplit(s: string, d: char)
    requires s != [] && s[|s| - 1] != d && s[0] != d && Span(s, d) < |s|
    ensures Tokens(s, d) != [] && Tokens(s, d)[|Tokens(s, d)| - 1] == AfterLast(s, d)
    decreases |s|, 0
  {
    var n := Span(s, d);
    var rest := s[n..];
    var q := s[n + 1..];
    assert Tokens(s, d) == [s[..n]] + Tokens(rest, d);
    assert s == s[..n] + [d] + q;
    assert rest == [] + [d] + q;
    AfterLastPast(s[..n], q, d);
    AfterLastPast([], q, d);
    LastToken(rest, d);
  }

  /** `parse_spaced_arg`: joins the tokens that remain after the verb into the
      caller's buffer of `capacity` bytes with `strcat`, one token and one space at a
      time, then cuts the last character (the trailing space). With no token left the
      cut would index before the buffer, and the text plus its trailing space and NUL
      must fit the buffer. */
  method ParseSpacedArg(rest: seq<string>, capacity: nat) returns (arg: string)
    requires rest != []
    requires |Join(rest, ' ')| + 2 <= capacity
    ensures arg == Join(rest, ' ')
  {
    arg := "";
    var i := 0;
    while i < |rest|
      invariant 0 <= i <= |rest|
      invariant i == 0 ==> arg == ""
      invariant i > 0 ==> arg == Join(rest[..i], ' ') + " "
      invariant |arg| + 1 <= capacity
    {
      if i > 0 {
        JoinAppend(rest[..i], [rest[i]], ' ');
        assert rest[..i] + [rest[i]] == rest[..i + 1];
      } else {
        assert rest[..1] == [rest[0]];
      }
      if i + 1 < |rest| {
        JoinAppend(rest[..i + 1], rest[i + 1..], ' ');
        assert rest[..i + 1] + rest[i + 1..] == rest;
      } else {
        assert rest[..i + 1] == rest;
      }
      arg := arg + rest[i];
      arg := arg + " ";
      i := i + 1;
    }
    assert rest[..i] == rest;
    arg := arg[..|arg| - 1];
  }
}
