/**
 * The `{name}` placeholder and Python's `str.replace('{name}', value)`: a left-to-right scan that
 * replaces every non-overlapping occurrence of the token.
 */
module Template {
  import Arith

  const Token: string := "{name}"

  /** The token occurs in `s` at position `i`. */
  predicate TokenAt(s: string, i: int) {
    0 <= i && i + |Token| <= |s| && s[i..i + |Token|] == Token
  }

  /** Python's `'{name}' in s`. */
  predicate ContainsToken(s: string) {
    exists i | 0 <= i <= |s| - |Token| :: TokenAt(s, i)
  }

  /** `s.replace('{name}', value)`. */
  function ReplaceToken(s: string, value: string): string
    decreases |s|
  {
    if |s| < |Token| then s
    else if TokenAt(s, 0) then value + ReplaceToken(s[|Token|..], value)
    else [s[0]] + ReplaceToken(s[1..], value)
  }

  /** The number of occurrences that `str.replace` replaces (Python's `s.count('{name}')`). */
  function CountTokens(s: string): nat
    decreases |s|
  {
    if |s| < |Token| then 0
    else if TokenAt(s, 0) then 1 + CountTokens(s[|Token|..])
    else CountTokens(s[1..])
  }

  /** The pieces of `s` between the occurrences of the token (Python's `s.split('{name}')`). */
  function Split(s: string): (pieces: seq<string>)
    ensures |pieces| == CountTokens(s) + 1
    decreases |s|
  {
    if |s| < |Token| then [s]
    else if TokenAt(s, 0) then [""] + Split(s[|Token|..])
    else var rest := Split(s[1..]); [[s[0]] + rest[0]] + rest[1..]
  }

  /** `sep.join(pieces)`. */
  function Join(pieces: seq<string>, sep: string): string {
    if |pieces| == 0 then ""
    else if |pieces| == 1 then pieces[0]
    else pieces[0] + sep + Join(pieces[1..], sep)
  }

  lemma TokenAtShift(s: string, i: int)
    requires |s| > 0
    ensures TokenAt(s[1..], i) <==> i >= 0 && TokenAt(s, i + 1)
  {
    if i >= 0 && i + |Token| <= |s| - 1 {
      assert s[1..][i..i + |Token|] == s[i + 1..i + 1 + |Token|];
    }
  }

  lemma JoinConsHead(c: string, pieces: seq<string>, sep: string)
    requires |pieces| > 0
    ensures Join([c + pieces[0]] + pieces[1..], sep) == c + Join(pieces, sep)
  {
    var q := [c + pieces[0]] + pieces[1..];
    assert q[1..] == pieces[1..];
  }

  /** Occurrences and the count agree: the token is in `s` exactly when `str.replace` finds one. */
  lemma {:induction false} ContainsIffCount(s: string)
    ensures ContainsToken(s) <==> CountTokens(s) > 0
    decreases |s|
  {
    if |s| < |Token| {
    } else if TokenAt(s, 0) {
    } else {
      ContainsIffCount(s[1..]);
      if ContainsToken(s) {
        var i :| 0 <= i <= |s| - |Token| && TokenAt(s, i);
        TokenAtShift(s, i - 1);
        assert TokenAt(s[1..], i - 1);
      }
      if ContainsToken(s[1..]) {
        var j :| 0 <= j <= |s[1..]| - |Token| && TokenAt(s[1..], j);
        TokenAtShift(s, j);
        assert TokenAt(s, j + 1);
      }
    }
  }

  /** Without an occurrence of the token, `str.replace` returns its input unchanged. */
  lemma NoTokenUnchanged(s: string, value: string)
    requires !ContainsToken(s)
    ensures ReplaceToken(s, value) == s
  {
    ContainsIffCount(s);
    CountZeroUnchanged(s, value);
  }

  lemma {:induction false} CountZeroUnchanged(s: string, value: string)
    requires CountTokens(s) == 0
    ensures ReplaceToken(s, value) == s
    decreases |s|
  {
    if |s| >= |Token| {
      CountZeroUnchanged(s[1..], value);
      assert [s[0]] + s[1..] == s;
    }
  }

  /** Each replaced occurrence changes the length by `|value| - 6`. */
  lemma {:induction false} ReplaceLength(s: string, value: string)
    ensures |ReplaceToken(s, value)| == |s| + CountTokens(s) * (|value| - |Token|)
    decreases |s|
  {
    if |s| < |Token| {
    } else if TokenAt(s, 0) {
      var rest := s[|Token|..];
      ReplaceLength(rest, value);
      assert |ReplaceToken(s, value)| == |value| + |ReplaceToken(rest, value)|;
      assert CountTokens(s) == CountTokens(rest) + 1;
      Arith.MulSucc(CountTokens(rest), |value| - |Token|);
    } else {
      ReplaceLength(s[1..], value);
      assert |ReplaceToken(s, value)| == 1 + |ReplaceToken(s[1..], value)|;
      assert CountTokens(s) == CountTokens(s[1..]);
    }
  }

  lemma {:induction false} SplitHeadIsPrefix(s: string)
    ensures |Split(s)[0]| <= |s| && Split(s)[0] == s[..|Split(s)[0]|]
    decreases |s|
  {
    if |s| >= |Token| && !TokenAt(s, 0) {
      SplitHeadIsPrefix(s[1..]);
    }
  }

  /** Splitting at the token and joining with the token gives back the template. */
  lemma {:induction false} SplitJoin(s: string)
    ensures Join(Split(s), Token) == s
    decreases |s|
  {
    if |s| < |Token| {
    } else if TokenAt(s, 0) {
      var rest := s[|Token|..];
      SplitJoin(rest);
      var p := [""] + Split(rest);
      assert Split(s) == p;
      assert p[0] == "" && p[1..] == Split(rest);
      assert Join(p, Token) == "" + Token + Join(Split(rest), Token);
      assert s == Token + rest;
    } else {
      var rest := Split(s[1..]);
      SplitJoin(s[1..]);
      assert Split(s) == [[s[0]] + rest[0]] + rest[1..];
      JoinConsHead([s[0]], rest, Token);
      assert s == [s[0]] + s[1..];
    }
  }

  /** `str.replace` puts `value` in place of the token between the pieces of the split. */
  lemma {:induction false} ReplaceIsJoin(s: string, value: string)
    ensures ReplaceToken(s, value) == Join(Split(s), value)
    decreases |s|
  {
    if |s| < |Token| {
    } else if TokenAt(s, 0) {
      ReplaceIsJoin(s[|Token|..], value);
      ReplaceJoinAtToken(s, value);
    } else {
      ReplaceIsJoin(s[1..], value);
      ReplaceJoinPastChar(s, value);
    }
  }

  /** The step of `ReplaceIsJoin` for a template that starts with the token. */
  lemma ReplaceJoinAtToken(s: string, value: string)
    requires |s| >= |Token| && TokenAt(s, 0)
    requires ReplaceToken(s[|Token|..], value) == Join(Split(s[|Token|..]), value)
    ensures ReplaceToken(s, value) == Join(Split(s), value)
  {
    var rest := s[|Token|..];
    var p := [""] + Split(rest);
    assert Split(s) == p;
    assert p[0] == "" && p[1..] == Split(rest);
    assert Join(p, value) == "" + value + Join(Split(rest), value);
    assert ReplaceToken(s, value) == value + ReplaceToken(rest, value);
  }

  /** The step of `ReplaceIsJoin` for a template that does not start with the token. */
  lemma ReplaceJoinPastChar(s: string, value: string)
    requires |s| >= |Token| && !TokenAt(s, 0)
    requires ReplaceToken(s[1..], value) == Join(Split(s[1..]), value)
    ensures ReplaceToken(s, value) == Join(Split(s), value)
  {
    var rest := Split(s[1..]);
    assert Split(s) == [[s[0]] + rest[0]] + rest[1..];
    JoinConsHead([s[0]], rest, value);
    assert ReplaceToken(s, value) == [s[0]] + ReplaceToken(s[1..], value);
  }

  /** No piece between replaced occurrences still holds a token: none is left behind. */
  lemma {:induction false} SplitPiecesTokenFree(s: string)
    ensures forall k :: 0 <= k < |Split(s)| ==> !ContainsToken(Split(s)[k])
    decreases |s|
  {
    if |s| < |Token| {
    } else if TokenAt(s, 0) {
      SplitPiecesTokenFree(s[|Token|..]);
      var p := [""] + Split(s[|Token|..]);
      forall k | 0 <= k < |p| ensures !ContainsToken(p[k]) {
        if k > 0 { assert p[k] == Split(s[|Token|..])[k - 1]; }
      }
    } else {
      var rest := Split(s[1..]);
      SplitPiecesTokenFree(s[1..]);
      SplitHeadIsPrefix(s[1..]);
      var head := [s[0]] + rest[0];
      assert !ContainsToken(head) by {
        forall i | 0 <= i <= |head| - |Token| ensures !TokenAt(head, i) {
          if i == 0 {
            assert head[..|Token|] == s[..|Token|];
          } else {
            assert !TokenAt(rest[0], i - 1);
            TokenAtShift(head, i - 1);
            assert head[1..] == rest[0];
          }
        }
      }
      var p := [head] + rest[1..];
      forall k | 0 <= k < |p| ensures !ContainsToken(p[k]) {
        if k > 0 { assert p[k] == rest[k]; }
      }
    }
  }
}
