/** The .NET string operations the core relies on, on `seq<char>`. */
module Strings {
  import opened Wrappers

  /**
   * The Unicode character classes of the .NET runtime. They are not
   * reproduced here: every operation that needs one takes this record,
   * so each lemma holds for whatever the runtime's classes are.
   */
  datatype CharClasses = CharClasses(
    isWord: char -> bool,        // Regex \w
    isDigit: char -> bool,       // char.IsDigit and Regex \d
    isLetter: char -> bool,      // char.IsLetter
    isWhiteSpace: char -> bool)  // char.IsWhiteSpace

  predicate StartsWith(s: string, prefix: string) {
    |prefix| <= |s| && s[..|prefix|] == prefix
  }

  /** Ordinal substring search, as String.Contains does it. */
  predicate Contains(s: string, part: string)
    decreases |s|
  {
    StartsWith(s, part) || (|s| > 0 && Contains(s[1..], part))
  }

  lemma {:induction false} ContainsPrefix(s: string, t: string, part: string)
    requires Contains(s, part)
    ensures Contains(s + t, part)
    decreases |s|
  {
    if StartsWith(s, part) {
      assert (s + t)[..|part|] == s[..|part|];
    } else {
      assert (s + t)[1..] == s[1..] + t;
      ContainsPrefix(s[1..], t, part);
    }
  }

  lemma {:induction false} ContainsSuffix(s: string, t: string, part: string)
    requires Contains(t, part)
    ensures Contains(s + t, part)
    decreases |s|
  {
    if |s| > 0 {
      assert (s + t)[1..] == s[1..] + t;
      ContainsSuffix(s[1..], t, part);
    } else {
      assert s + t == t;
    }
  }

  /** A part longer than the string is never contained in it. */
  lemma {:induction false} ContainsNotLonger(s: string, part: string)
    requires Contains(s, part)
    ensures |part| <= |s|
    decreases |s|
  {
    if !StartsWith(s, part) {
      ContainsNotLonger(s[1..], part);
    }
  }

  /** Ordinal (character-code) order on strings; a proper prefix comes first. */
  predicate OrdinalLe(a: string, b: string)
    decreases |a|
  {
    |a| == 0 || (|b| > 0 && (a[0] < b[0] || (a[0] == b[0] && OrdinalLe(a[1..], b[1..]))))
  }

  lemma {:induction false} OrdinalLeReflexive(a: string)
    ensures OrdinalLe(a, a)
    decreases |a|
  {
    if |a| > 0 {
      OrdinalLeReflexive(a[1..]);
    }
  }

  lemma {:induction false} OrdinalLeTotal(a: string, b: string)
    ensures OrdinalLe(a, b) || OrdinalLe(b, a)
    decreases |a|
  {
    if |a| > 0 && |b| > 0 && a[0] == b[0] {
      OrdinalLeTotal(a[1..], b[1..]);
    }
  }

  lemma {:induction false} OrdinalLeTransitive(a: string, b: string, c: string)
    requires OrdinalLe(a, b) && OrdinalLe(b, c)
    ensures OrdinalLe(a, c)
    decreases |a|
  {
    if |a| > 0 && a[0] == b[0] && b[0] == c[0] {
      OrdinalLeTransitive(a[1..], b[1..], c[1..]);
    }
  }

  /** Lower-casing of the ASCII letters; every other character is kept. */
  function LowerChar(c: char): char {
    if 'A' <= c <= 'Z' then (c as int + 32) as char else c
  }

  function ToLower(s: string): (r: string)
    ensures |r| == |s|
    ensures forall i :: 0 <= i < |s| ==> r[i] == LowerChar(s[i])
  {
    seq(|s|, i requires 0 <= i < |s| => LowerChar(s[i]))
  }

  /** string.IsNullOrEmpty */
  predicate IsNullOrEmpty(s: Option<string>) {
    s.None? || s.value == ""
  }

  /** string.IsNullOrWhiteSpace */
  predicate IsNullOrWhiteSpace(s: Option<string>, cc: CharClasses) {
    s.None? || forall i :: 0 <= i < |s.value| ==> cc.isWhiteSpace(s.value[i])
  }

  function TrimStart(s: string, cc: CharClasses): (r: string)
    ensures |r| <= |s| && r == s[|s| - |r|..]
    ensures r == [] || !cc.isWhiteSpace(r[0])
    ensures forall i :: 0 <= i < |s| - |r| ==> cc.isWhiteSpace(s[i])
  {
    if |s| > 0 && cc.isWhiteSpace(s[0]) then TrimStart(s[1..], cc) else s
  }

  function TrimEnd(s: string, cc: CharClasses): (r: string)
    ensures |r| <= |s| && r == s[..|r|]
    ensures r == [] || !cc.isWhiteSpace(r[|r| - 1])
    ensures forall i :: |r| <= i < |s| ==> cc.isWhiteSpace(s[i])
  {
    if |s| > 0 && cc.isWhiteSpace(s[|s| - 1]) then TrimEnd(s[..|s| - 1], cc) else s
  }

  /** String.Trim: drops leading and trailing white space. */
  function Trim(s: string, cc: CharClasses): string {
    TrimEnd(TrimStart(s, cc), cc)
  }

  /** Number of occurrences of `c` in `s`. */
  function Count(s: string, c: char): nat {
    if |s| == 0 then 0 else (if s[0] == c then 1 else 0) + Count(s[1..], c)
  }

  /** String.Split(char): the pieces between separators, empty pieces included. */
  function Split(s: string, c: char): (r: seq<string>)
    ensures |r| >= 1
  {
    if |s| == 0 then [""]
    else
      var rest := Split(s[1..], c);
      if s[0] == c then [""] + rest else [[s[0]] + rest[0]] + rest[1..]
  }

  /** string.Join(sep, xs) */
  function Join(xs: seq<string>, sep: string): string {
    if |xs| == 0 then "" else if |xs| == 1 then xs[0] else xs[0] + sep + Join(xs[1..], sep)
  }

  /** Splitting yields one piece more than there are separators. */
  lemma {:induction false} SplitLength(s: string, c: char)
    ensures |Split(s, c)| == Count(s, c) + 1
  {
    if |s| > 0 {
      SplitLength(s[1..], c);
    }
  }

  /** No piece of a split contains the separator. */
  lemma {:induction false} SplitPiecesFree(s: string, c: char)
    ensures forall k, j :: 0 <= k < |Split(s, c)| && 0 <= j < |Split(s, c)[k]| ==> Split(s, c)[k][j] != c
  {
    if |s| > 0 {
      SplitPiecesFree(s[1..], c);
    }
  }

  /** Joining the pieces with the separator gives back the string. */
  lemma {:induction false} SplitJoin(s: string, c: char)
    ensures Join(Split(s, c), [c]) == s
  {
    if |s| > 0 {
      var rest := Split(s[1..], c);
      SplitJoin(s[1..], c);
      if s[0] == c {
        assert Split(s, c) == [""] + rest;
        assert ([""] + rest)[1..] == rest;
      } else {
        var r := [[s[0]] + rest[0]] + rest[1..];
        assert Split(s, c) == r;
        if |rest| == 1 {
          assert Join(r, [c]) == [s[0]] + rest[0];
        } else {
          assert r[1..] == rest[1..];
          assert Join(rest, [c]) == rest[0] + [c] + Join(rest[1..], [c]);
        }
      }
    }
  }

  /** A string without the separator splits into itself. */
  lemma {:induction false} SplitFree(a: string, c: char)
    requires forall i :: 0 <= i < |a| ==> a[i] != c
    ensures Split(a, c) == [a]
  {
    if |a| > 0 {
      SplitFree(a[1..], c);
      assert [a[0]] + a[1..] == a;
    }
  }

  /** The first separator after a separator-free prefix ends the first piece. */
  lemma {:induction false} SplitAfterFree(a: string, b: string, c: char)
    requires forall i :: 0 <= i < |a| ==> a[i] != c
    ensures Split(a + [c] + b, c) == [a] + Split(b, c)
  {
    var s := a + [c] + b;
    if |a| == 0 {
      assert s == [c] + b && s[1..] == b;
    } else {
      assert s[1..] == a[1..] + [c] + b;
      SplitAfterFree(a[1..], b, c);
      assert [a[0]] + a[1..] == a;
    }
  }

  /** Splitting a join of separator-free pieces gives the pieces back. */
  lemma {:induction false} JoinSplit(xs: seq<string>, c: char)
    requires |xs| > 0
    requires forall k, i :: 0 <= k < |xs| && 0 <= i < |xs[k]| ==> xs[k][i] != c
    ensures Split(Join(xs, [c]), c) == xs
  {
    if |xs| == 1 {
      SplitFree(xs[0], c);
    } else {
      JoinSplit(xs[1..], c);
      SplitAfterFree(xs[0], Join(xs[1..], [c]), c);
      assert [xs[0]] + xs[1..] == xs;
    }
  }

  /** Text.Remove of every occurrence of one character (String.Replace(x, "")). */
  function RemoveChar(s: string, c: char): (r: string)
    ensures |r| <= |s|
    ensures forall i :: 0 <= i < |r| ==> r[i] != c
  {
    if |s| == 0 then "" else (if s[0] == c then "" else [s[0]]) + RemoveChar(s[1..], c)
  }

  /** Removal keeps every other character. */
  lemma {:induction false} RemoveCharMembers(s: string, c: char, d: char)
    ensures d in RemoveChar(s, c) <==> d in s && d != c
  {
    if |s| > 0 {
      RemoveCharMembers(s[1..], c, d);
      assert s == [s[0]] + s[1..];
    }
  }

  /** Removing a character that does not occur changes nothing. */
  lemma {:induction false} RemoveCharFree(s: string, c: char)
    requires forall i :: 0 <= i < |s| ==> s[i] != c
    ensures RemoveChar(s, c) == s
  {
    if |s| > 0 {
      RemoveCharFree(s[1..], c);
      assert [s[0]] + s[1..] == s;
    }
  }

  /** String.LastIndexOf(char): -1 when the character does not occur. */
  function LastIndexOf(s: string, c: char): (r: int)
    ensures -1 <= r < |s|
    ensures r >= 0 ==> s[r] == c
    ensures forall j :: r < j < |s| ==> s[j] != c
  {
    if |s| == 0 then -1 else if s[|s| - 1] == c then |s| - 1 else LastIndexOf(s[..|s| - 1], c)
  }

  /** String.IndexOf(char): -1 when the character does not occur. */
  function IndexOf(s: string, c: char): (r: int)
    ensures -1 <= r < |s|
    ensures r >= 0 ==> s[r] == c
    ensures forall j :: 0 <= j < |s| && (r < 0 || j < r) ==> s[j] != c
  {
    if |s| == 0 then -1
    else if s[0] == c then 0
    else var r := IndexOf(s[1..], c); if r < 0 then -1 else r + 1
  }

  /** The first `c` of `t + rest` is the head of `rest` when `t` has none. */
  lemma {:induction false} IndexOfAfterFree(t: string, rest: string, c: char)
    requires forall i :: 0 <= i < |t| ==> t[i] != c
    requires |rest| > 0 && rest[0] == c
    ensures IndexOf(t + rest, c) == |t|
  {
    if |t| > 0 {
      assert (t + rest)[1..] == t[1..] + rest;
      IndexOfAfterFree(t[1..], rest, c);
    }
  }

  /** s.Substring(s.LastIndexOf(c) + 1): what follows the last `c`, or all of `s`. */
  function AfterLast(s: string, c: char): (r: string)
    ensures |r| <= |s| && r == s[|s| - |r|..]
    ensures forall i :: 0 <= i < |r| ==> r[i] != c
    ensures (forall i :: 0 <= i < |s| ==> s[i] != c) ==> r == s
    ensures |r| < |s| ==> s[|s| - |r| - 1] == c
  {
    s[LastIndexOf(s, c) + 1..]
  }

  function DigitChar(d: nat): char
    requires d < 10
  {
    ('0' as int + d) as char
  }

  /** Int32.ToString() of a non-negative number: its decimal digits. */
  function NatToString(n: nat): (r: string)
    ensures |r| > 0
    ensures forall i :: 0 <= i < |r| ==> '0' <= r[i] <= '9'
  {
    if n < 10 then [DigitChar(n)] else NatToString(n / 10) + [DigitChar(n % 10)]
  }

  /** Int32.ToString(): a minus sign before the digits of a negative number. */
  function IntToString(n: int): string {
    if n < 0 then "-" + NatToString(-n) else NatToString(n)
  }

  /** Reads a string of decimal digits back as a number. */
  function ParseDigits(s: string): nat
    requires forall i :: 0 <= i < |s| ==> '0' <= s[i] <= '9'
  {
    if |s| == 0 then 0 else ParseDigits(s[..|s| - 1]) * 10 + (s[|s| - 1] as int - '0' as int)
  }

  lemma {:induction false} NatToStringRoundTrip(n: nat)
    ensures ParseDigits(NatToString(n)) == n
  {
    if n >= 10 {
      var s := NatToString(n);
      assert s[..|s| - 1] == NatToString(n / 10);
      NatToStringRoundTrip(n / 10);
    }
  }

  lemma SignOfIntToString(n: int)
    ensures |IntToString(n)| > 0 && (IntToString(n)[0] == '-' <==> n < 0)
  {
    if n >= 0 {
      assert '0' <= NatToString(n)[0] <= '9';
    }
  }

  lemma NatToStringInjective(m: nat, n: nat)
    requires NatToString(m) == NatToString(n)
    ensures m == n
  {
    NatToStringRoundTrip(m);
    NatToStringRoundTrip(n);
  }

  /** Different numbers print differently. */
  lemma IntToStringInjective(m: int, n: int)
    requires IntToString(m) == IntToString(n)
    ensures m == n
  {
    SignOfIntToString(m);
    SignOfIntToString(n);
    if m < 0 && n < 0 {
      var s := IntToString(m);
      assert s == "-" + NatToString(-m) && s == "-" + NatToString(-n);
      assert NatToString(-m) == s[1..] == NatToString(-n);
      NatToStringInjective(-m, -n);
    } else if m >= 0 && n >= 0 {
      NatToStringInjective(m, n);
    }
  }
}
