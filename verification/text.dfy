/**
 * The JDK string services the builders rely on: `String.indexOf`,
 * `java.util.StringTokenizer`, joining with a separator, `String.trim`
 * and decimal rendering of a non-negative int.
 */
module Text {
  import opened Lang

  /** The delimiters of `new StringTokenizer(s)`: space, tab, newline, carriage return, form feed. */
  const Whitespace: set<char> := {' ', '\t', '\n', '\r', '\U{C}'}

  /** Whether `pat` occurs in `s` at position `i`, compared character by character as `String.indexOf` does. */
  predicate OccursAt(s: string, pat: string, i: int) {
    0 <= i && i + |pat| <= |s| && MatchesFrom(s, pat, i, 0)
  }

  /** Whether the characters of `pat` from `k` on match those of `s` from `i + k` on. */
  predicate MatchesFrom(s: string, pat: string, i: nat, k: nat)
    requires i + |pat| <= |s|
    decreases |pat| - k
  {
    k >= |pat| || (s[i + k] == pat[k] && MatchesFrom(s, pat, i, k + 1))
  }

  lemma {:induction false} MatchesFromChars(s: string, pat: string, i: nat, k: nat)
    requires i + |pat| <= |s|
    ensures MatchesFrom(s, pat, i, k) <==> forall j :: k <= j < |pat| ==> s[i + j] == pat[j]
    decreases |pat| - k
  {
    if k < |pat| {
      MatchesFromChars(s, pat, i, k + 1);
    }
  }

  /** Each character of an occurrence is the pattern's. */
  lemma {:induction false} OccursAtChar(s: string, pat: string, i: int, j: int)
    requires OccursAt(s, pat, i) && 0 <= j < |pat|
    ensures s[i + j] == pat[j]
  {
    MatchesFromChars(s, pat, i, 0);
  }

  /** An occurrence is exactly a slice equal to the pattern. */
  lemma {:induction false} OccursAtSlice(s: string, pat: string, i: int)
    ensures OccursAt(s, pat, i) <==> 0 <= i && i + |pat| <= |s| && s[i..i + |pat|] == pat
  {
    if 0 <= i && i + |pat| <= |s| {
      MatchesFromChars(s, pat, i, 0);
      if s[i..i + |pat|] == pat {
        forall j | 0 <= j < |pat| ensures s[i + j] == pat[j] {
          assert s[i..i + |pat|][j] == s[i + j];
        }
      }
    }
  }

  /** `s.indexOf(pat, from)` for a non-empty pattern: the first occurrence at or after `from`, or -1. */
  function IndexOf(s: string, pat: string, from: nat): (i: int)
    requires |pat| > 0
    ensures i == -1 || (from <= i && i + |pat| <= |s|)
    decreases |s| - from, 1
  {
    if from + |pat| > |s| then -1 else IndexAt(s, pat, from)
  }

  /** The search from a position where the pattern still fits. */
  function IndexAt(s: string, pat: string, from: nat): (i: int)
    requires |pat| > 0 && from + |pat| <= |s|
    ensures i == -1 || (from <= i && i + |pat| <= |s|)
    decreases |s| - from, 0
  {
    if OccursAt(s, pat, from) then from else IndexOf(s, pat, from + 1)
  }

  /** An index found is an occurrence. */
  lemma {:induction false} IndexOfOccurs(s: string, pat: string, from: nat)
    requires |pat| > 0
    ensures IndexOf(s, pat, from) == -1 || OccursAt(s, pat, IndexOf(s, pat, from))
    decreases |s| - from
  {
    if from + |pat| <= |s| && !OccursAt(s, pat, from) {
      IndexOfOccurs(s, pat, from + 1);
    }
  }

  /** The index found is the first occurrence at or after `from`, and -1 means there is none. */
  lemma {:induction false} IndexOfIsFirst(s: string, pat: string, from: nat)
    requires |pat| > 0
    ensures var i := IndexOf(s, pat, from);
      (i == -1 ==> forall j :: from <= j ==> !OccursAt(s, pat, j)) &&
      (i != -1 ==> forall j :: from <= j < i ==> !OccursAt(s, pat, j))
    decreases |s| - from
  {
    if from + |pat| <= |s| && !OccursAt(s, pat, from) {
      IndexOfIsFirst(s, pat, from + 1);
    }
  }

  /** Where nothing occurs, nothing is found. */
  lemma {:induction false} IndexOfAbsent(s: string, pat: string, from: nat)
    requires |pat| > 0
    requires forall j :: from <= j ==> !OccursAt(s, pat, j)
    ensures IndexOf(s, pat, from) == -1
    decreases |s| - from
  {
    if from + |pat| <= |s| {
      IndexOfAbsent(s, pat, from + 1);
    }
  }

  /** The number of leading characters of `s` that are not delimiters. */
  function RunLength(s: string, delims: set<char>): (n: nat)
    ensures n <= |s|
    ensures forall i :: 0 <= i < n ==> s[i] !in delims
    ensures n == |s| || s[n] in delims
    decreases |s|
  {
    if s == [] || s[0] in delims then 0 else 1 + RunLength(s[1..], delims)
  }

  /** The tokens a StringTokenizer returns: the maximal runs of non-delimiters, in order. */
  function Tokens(s: string, delims: set<char>): (ts: seq<string>)
    decreases |s|
  {
    if s == [] then []
    else if s[0] in delims then Tokens(s[1..], delims)
    else
      var n := RunLength(s, delims);
      [s[..n]] + Tokens(s[n..], delims)
  }

  /** Every token is non-empty and free of delimiters. */
  predicate IsTokenList(ts: seq<string>, delims: set<char>) {
    forall i :: 0 <= i < |ts| ==> |ts[i]| > 0 && forall j :: 0 <= j < |ts[i]| ==> ts[i][j] !in delims
  }

  lemma {:induction false} TokensAreTokens(s: string, delims: set<char>)
    ensures IsTokenList(Tokens(s, delims), delims)
    decreases |s|
  {
    if s != [] {
      if s[0] in delims {
        TokensAreTokens(s[1..], delims);
      } else {
        var n := RunLength(s, delims);
        TokensAreTokens(s[n..], delims);
        assert RunLength(s, delims) >= 1;
      }
    }
  }

  /** The elements joined with `sep` between consecutive ones. */
  function Join(ts: seq<string>, sep: string): string
    decreases |ts|
  {
    if ts == [] then "" else if |ts| == 1 then ts[0] else ts[0] + sep + Join(ts[1..], sep)
  }

  lemma {:induction false} JoinSnoc(ts: seq<string>, t: string, sep: string)
    ensures Join(ts + [t], sep) == if ts == [] then t else Join(ts, sep) + sep + t
    decreases |ts|
  {
    if |ts| > 1 {
      assert (ts + [t])[1..] == ts[1..] + [t];
      JoinSnoc(ts[1..], t, sep);
    } else if |ts| == 1 {
      assert (ts + [t])[1..] == [t];
    }
  }

  /** A delimiter-free non-empty word is one token wherever it is followed by a delimiter or the end. */
  lemma {:induction false} TokensOfWord(t: string, rest: string, delims: set<char>)
    requires |t| > 0 && forall j :: 0 <= j < |t| ==> t[j] !in delims
    requires rest == [] || rest[0] in delims
    ensures Tokens(t + rest, delims) == [t] + Tokens(rest, delims)
  {
    var s := t + rest;
    RunLengthOf(s, delims, |t|);
    assert s[..|t|] == t && s[|t|..] == rest;
  }

  lemma {:induction false} RunLengthOf(s: string, delims: set<char>, n: nat)
    requires n <= |s| && (forall i :: 0 <= i < n ==> s[i] !in delims) && (n == |s| || s[n] in delims)
    ensures RunLength(s, delims) == n
    decreases n
  {
    if n > 0 {
      RunLengthOf(s[1..], delims, n - 1);
    }
  }

  /** Tokenizing a token list joined by a delimiter gives the list back. */
  lemma {:induction false} TokensOfJoin(ts: seq<string>, d: char, delims: set<char>)
    requires d in delims && IsTokenList(ts, delims)
    ensures Tokens(Join(ts, [d]), delims) == ts
    decreases |ts|
  {
    if |ts| == 1 {
      TokensOfWord(ts[0], "", delims);
      assert ts[0] + "" == ts[0];
    } else if |ts| > 1 {
      var rest := [d] + Join(ts[1..], [d]);
      assert IsTokenList(ts[1..], delims);
      TokensOfJoin(ts[1..], d, delims);
      TokensOfWord(ts[0], rest, delims);
      assert ts[0] + [d] + Join(ts[1..], [d]) == ts[0] + rest;
      assert rest[1..] == Join(ts[1..], [d]);
      assert ts == [ts[0]] + ts[1..];
    }
  }

  /** Joining words with one space never puts a space first, last, or next to another. */
  lemma {:induction false} JoinSpacing(ts: seq<string>)
    requires IsTokenList(ts, {' '})
    ensures var s := Join(ts, " ");
      (|s| > 0 ==> s[0] != ' ' && s[|s| - 1] != ' ') &&
      (forall i :: 0 <= i < |s| - 1 ==> !(s[i] == ' ' && s[i + 1] == ' '))
    decreases |ts|
  {
    if |ts| > 1 {
      assert IsTokenList(ts[1..], {' '});
      JoinSpacing(ts[1..]);
      var s := Join(ts, " ");
      var t := ts[0];
      var r := Join(ts[1..], " ");
      assert s == t + " " + r;
      assert |r| > 0 by { JoinNonEmpty(ts[1..]); }
      forall i | 0 <= i < |s| - 1
        ensures !(s[i] == ' ' && s[i + 1] == ' ')
      {
        if i < |t| - 1 {
          assert s[i] == t[i];
        } else if i == |t| - 1 {
          assert s[i] == t[i];
        } else if i == |t| {
          assert s[i + 1] == r[0];
        } else {
          assert s[i] == r[i - |t| - 1] && s[i + 1] == r[i - |t|];
        }
      }
      assert s[0] == t[0];
      assert s[|s| - 1] == r[|r| - 1];
    }
  }

  lemma {:induction false} JoinNonEmpty(ts: seq<string>)
    requires IsTokenList(ts, {' '}) && ts != []
    ensures |Join(ts, " ")| > 0
  {
    if |ts| > 1 {
      assert |ts[0]| > 0;
    } else {
      assert |ts[0]| > 0;
    }
  }

  /** `String.trim`: strip leading and trailing characters up to and including the space. */
  function TrimStart(s: string): (t: string)
    ensures |t| <= |s| && t == s[|s| - |t|..]
    ensures forall i :: 0 <= i < |s| - |t| ==> s[i] <= ' '
    ensures t != [] ==> t[0] > ' '
    decreases |s|
  {
    if s != [] && s[0] <= ' ' then TrimStart(s[1..]) else s
  }

  function TrimEnd(s: string): (t: string)
    ensures |t| <= |s| && t == s[..|t|]
    ensures forall i :: |t| <= i < |s| ==> s[i] <= ' '
    ensures t != [] ==> t[|t| - 1] > ' '
    decreases |s|
  {
    if s != [] && s[|s| - 1] <= ' ' then TrimEnd(s[..|s| - 1]) else s
  }

  function Trim(s: string): (t: string)
    ensures t != [] ==> t[0] > ' ' && t[|t| - 1] > ' '
  {
    TrimEnd(TrimStart(s))
  }

  /**
   * `trim` keeps the slice of `s` between a run of leading and a run of
   * trailing characters at or below the space; `a` is the length of the
   * leading run.
   */
  lemma {:induction false} TrimParts(s: string)
    ensures var a := |s| - |TrimStart(s)|; var t := Trim(s);
      a + |t| <= |s| && t == s[a..a + |t|] &&
      (forall i :: 0 <= i < a ==> s[i] <= ' ') && (forall i :: a + |t| <= i < |s| ==> s[i] <= ' ')
  {
    var a := |s| - |TrimStart(s)|;
    assert TrimStart(s) == s[a..];
    TrimEndOfSuffix(s, a);
  }

  /** Trimming the back of a suffix of `s` keeps a slice of `s` followed only by characters at or below the space. */
  lemma {:induction false} TrimEndOfSuffix(s: string, a: nat)
    requires a <= |s|
    ensures var t := TrimEnd(s[a..]);
      a + |t| <= |s| && t == s[a..a + |t|] && forall i :: a + |t| <= i < |s| ==> s[i] <= ' '
  {
    var u := s[a..];
    var t := TrimEnd(u);
    forall i | a + |t| <= i < |s|
      ensures s[i] <= ' '
    {
      assert s[i] == u[i - a];
    }
    assert u[..|t|] == s[a..a + |t|];
  }

  /** `String.valueOf(n)` for a non-negative int: its decimal digits, most significant first. */
  function NatToString(n: nat): (s: string)
    ensures |s| > 0
    ensures forall i :: 0 <= i < |s| ==> '0' <= s[i] <= '9'
    decreases n
  {
    if n < 10 then [Digit(n)] else NatToString(n / 10) + [Digit(n % 10)]
  }

  function Digit(d: nat): (c: char)
    requires d < 10
    ensures '0' <= c <= '9'
  {
    (48 + d) as char
  }

  /** The digits determine the number: different numbers render differently. */
  lemma {:induction false} NatToStringInjective(m: nat, n: nat)
    requires NatToString(m) == NatToString(n)
    ensures m == n
    decreases m + n
  {
    var s := NatToString(m);
    if m < 10 && n < 10 {
      assert Digit(m) == Digit(n);
    } else if m >= 10 && n >= 10 {
      var a := NatToString(m / 10);
      var b := NatToString(n / 10);
      assert s == a + [Digit(m % 10)] && s == b + [Digit(n % 10)];
      assert Digit(m % 10) == s[|s| - 1] == Digit(n % 10);
      assert a == s[..|s| - 1] == b;
      NatToStringInjective(m / 10, n / 10);
    }
  }

  /**
   * A StringTokenizer over a fixed string: `position` is where the next
   * scan starts; the tokens still to come are those of the remainder.
   */
  class StringTokenizer {
    const str: string
    const delims: set<char>
    var position: nat

    ghost predicate Valid()
      reads this
    {
      position <= |str|
    }

    constructor (str: string, delims: set<char>)
      ensures Valid() && this.str == str && this.delims == delims && position == 0
    {
      this.str := str;
      this.delims := delims;
      position := 0;
    }

    /** The tokens not yet returned. */
    function Remaining(): seq<string>
      requires Valid()
      reads this
    {
      Tokens(str[position..], delims)
    }

    /** The first position at or after `p` that is not a delimiter. */
    method SkipDelimiters(p: nat) returns (q: nat)
      requires p <= |str|
      ensures p <= q <= |str| && (q == |str| || str[q] !in delims)
      ensures Tokens(str[q..], delims) == Tokens(str[p..], delims)
    {
      q := p;
      while q < |str| && str[q] in delims
        invariant p <= q <= |str|
        invariant Tokens(str[q..], delims) == Tokens(str[p..], delims)
      {
        assert str[q..][1..] == str[q + 1..];
        q := q + 1;
      }
    }

    /** The end of the token starting at `p`: the next delimiter or the end of the string. */
    method ScanToken(p: nat) returns (q: nat)
      requires p < |str| && str[p] !in delims
      ensures q == p + RunLength(str[p..], delims)
    {
      q := p;
      while q < |str| && str[q] !in delims
        invariant p <= q <= |str|
        invariant forall i :: p <= i < q ==> str[i] !in delims
      {
        q := q + 1;
      }
      RunLengthOf(str[p..], delims, q - p);
    }

    /** Whether a token remains; it does not advance. */
    method HasMoreTokens() returns (b: bool)
      requires Valid()
      ensures b <==> Remaining() != []
    {
      var p := SkipDelimiters(position);
      if p < |str| {
        assert str[p..][0] == str[p];
      }
      b := p < |str|;
    }

    /** Returns the next token, or NoSuchElementException when none is left. */
    method NextToken() returns (r: Result<string>)
      requires Valid()
      modifies this
      ensures Valid()
      ensures old(Remaining()) == [] ==> r == Failure(NoSuchElementException)
      ensures old(Remaining()) != [] ==> r == Success(old(Remaining())[0]) && Remaining() == old(Remaining())[1..]
    {
      position := SkipDelimiters(position);
      if position >= |str| {
        return Failure(NoSuchElementException);
      }
      var start := position;
      position := ScanToken(position);
      ghost var s := str[start..];
      assert s[0] == str[start];
      assert s[..position - start] == str[start..position];
      assert s[position - start..] == str[position..];
      r := Success(str[start..position]);
    }
  }
}
