/// String helpers shared by the frontend (JavaScript `trim`, `split`,
/// `toLowerCase`, `includes`, `startsWith`) and the backend (Go
/// `strings.TrimSpace`, `strings.Split`, `strings.Contains`,
/// `strings.HasSuffix`, `fmt.Sprintf("%d")`).  Whitespace and case are the
/// ASCII ones.
module Text {

  /// ASCII whitespace as removed by `trim()` / `strings.TrimSpace`.
  predicate IsSpace(c: char) {
    c == ' ' || c == '\t' || c == '\n' || c == '\r' || c == '\U{000B}' || c == '\U{000C}'
  }

  /// A string that is empty once trimmed (the forms' `!text.trim()` test).
  predicate IsBlank(s: string) {
    forall i :: 0 <= i < |s| ==> IsSpace(s[i])
  }

  /// Neither end of `s` is whitespace.
  predicate IsTrimmed(s: string) {
    s == "" || (!IsSpace(s[0]) && !IsSpace(s[|s| - 1]))
  }

  function TrimStart(s: string): (r: string)
    ensures |r| <= |s| && r == s[|s| - |r|..]
    ensures forall i :: 0 <= i < |s| - |r| ==> IsSpace(s[i])
    ensures r != "" ==> !IsSpace(r[0])
  {
    if s != "" && IsSpace(s[0]) then TrimStart(s[1..]) else s
  }

  function TrimEnd(s: string): (r: string)
    ensures |r| <= |s| && r == s[..|r|]
    ensures forall i :: |r| <= i < |s| ==> IsSpace(s[i])
    ensures r != "" ==> !IsSpace(r[|r| - 1])
  {
    if s != "" && IsSpace(s[|s| - 1]) then TrimEnd(s[..|s| - 1]) else s
  }

  /// `r` is `s` with exactly its first `k` characters and its trailing
  /// characters after `r` removed, all of them whitespace.
  predicate TrimsTo(s: string, k: int, r: string) {
    0 <= k && k + |r| <= |s| && r == s[k..k + |r|]
    && (forall i :: 0 <= i < k ==> IsSpace(s[i]))
    && (forall i :: k + |r| <= i < |s| ==> IsSpace(s[i]))
  }

  /// `s.trim()` in JavaScript, `strings.TrimSpace(s)` in Go.
  function Trim(s: string): (r: string)
    ensures IsTrimmed(r)
    ensures r == "" <==> IsBlank(s)
    ensures forall i :: 0 <= i < |r| ==> r[i] in s
  {
    TrimFacts(s);
    TrimEnd(TrimStart(s))
  }

  /// `Trim(s)` is `s` with exactly its leading and trailing whitespace
  /// removed: a slice of `s` with only whitespace around it, and (by
  /// `IsTrimmed`) no whitespace at either of its own ends.
  lemma TrimIsSlice(s: string)
    ensures TrimsTo(s, |s| - |TrimStart(s)|, Trim(s))
  {
    TrimsToOfEnds(s, TrimStart(s), TrimEnd(TrimStart(s)));
  }

  /// The converse: a non-empty slice of `s` with only whitespace around it
  /// and none at its own ends is `Trim(s)`.
  lemma TrimUnique(s: string, k: int, r: string)
    requires TrimsTo(s, k, r) && r != "" && IsTrimmed(r)
    ensures r == Trim(s)
  {
    TrimIsSlice(s);
    assert s[k] == r[0] && !IsSpace(s[k]);
    TrimmedSlicesAgree(s, k, r, |s| - |TrimStart(s)|, Trim(s));
  }

  /// Two non-empty slices of `s` that both trim `s` and both have no
  /// whitespace at their ends are the same slice.
  lemma TrimmedSlicesAgree(s: string, k: int, r: string, k': int, r': string)
    requires TrimsTo(s, k, r) && r != "" && IsTrimmed(r)
    requires TrimsTo(s, k', r') && r' != "" && IsTrimmed(r')
    ensures k == k' && r == r'
  {
    assert s[k] == r[0] && !IsSpace(s[k]);
    assert s[k'] == r'[0] && !IsSpace(s[k']);
    assert k == k';
    assert s[k + |r| - 1] == r[|r| - 1] && !IsSpace(s[k + |r| - 1]);
    assert s[k + |r'| - 1] == r'[|r'| - 1] && !IsSpace(s[k + |r'| - 1]);
    assert |r| == |r'|;
  }

  /// Cutting whitespace from the front of `s` (giving `t`) and then from
  /// the back of `t` (giving `r`) trims `s` to `r`.
  lemma TrimsToOfEnds(s: string, t: string, r: string)
    requires |t| <= |s| && t == s[|s| - |t|..]
    requires forall i :: 0 <= i < |s| - |t| ==> IsSpace(s[i])
    requires |r| <= |t| && r == t[..|r|]
    requires forall i :: |r| <= i < |t| ==> IsSpace(t[i])
    ensures TrimsTo(s, |s| - |t|, r)
  {
    var k := |s| - |t|;
    assert r == s[k..k + |r|];
    forall i | k + |r| <= i < |s| ensures IsSpace(s[i]) {
      assert s[i] == t[i - k];
    }
  }

  lemma TrimFacts(s: string)
    ensures var r := TrimEnd(TrimStart(s));
      (r == "" <==> IsBlank(s)) && forall i :: 0 <= i < |r| ==> r[i] in s
  {
    TrimFactsOfEnds(s, TrimStart(s), TrimEnd(TrimStart(s)));
  }

  lemma TrimFactsOfEnds(s: string, t: string, r: string)
    requires |t| <= |s| && t == s[|s| - |t|..]
    requires forall i :: 0 <= i < |s| - |t| ==> IsSpace(s[i])
    requires t != "" ==> !IsSpace(t[0])
    requires |r| <= |t| && r == t[..|r|]
    requires forall i :: |r| <= i < |t| ==> IsSpace(t[i])
    ensures (r == "" <==> IsBlank(s)) && forall i :: 0 <= i < |r| ==> r[i] in s
  {
    var k := |s| - |t|;
    forall i | 0 <= i < |r| ensures r[i] in s {
      assert r[i] == t[i] == s[k + i];
    }
    if t != "" {
      assert !IsSpace(t[0]) && s[k] == t[0];
      assert r != "";
    }
  }

  /// Trimming a string without surrounding whitespace changes nothing.
  lemma TrimOfTrimmed(s: string)
    requires IsTrimmed(s)
    ensures Trim(s) == s
  {
  }

  lemma TrimIdempotent(s: string)
    ensures Trim(Trim(s)) == Trim(s)
  {
    TrimOfTrimmed(Trim(s));
  }

  /// `s.split(sep)` / `strings.Split(s, sep)` for a one-character separator:
  /// every separator ends a part, and the empty string gives one empty part.
  function Split(s: string, sep: char): (r: seq<string>)
    ensures |r| >= 1
    ensures forall i :: 0 <= i < |r| ==> sep !in r[i]
  {
    if s == "" then [""]
    else
      var rest := Split(s[1..], sep);
      if s[0] == sep then [""] + rest
      else [[s[0]] + rest[0]] + rest[1..]
  }

  /// Occurrences of `c` in `s`.
  function CountChar(s: string, c: char): nat {
    if s == "" then 0 else (if s[0] == c then 1 else 0) + CountChar(s[1..], c)
  }

  /// A split has one part more than the string has separators.
  lemma {:induction false} SplitLength(s: string, sep: char)
    ensures |Split(s, sep)| == CountChar(s, sep) + 1
  {
    if s != "" {
      SplitLength(s[1..], sep);
    }
  }

  /// `parts.join(sep)` / `strings.Join(parts, sep)`.
  function Join(parts: seq<string>, sep: char): string {
    if |parts| == 0 then ""
    else if |parts| == 1 then parts[0]
    else parts[0] + [sep] + Join(parts[1..], sep)
  }

  /// Joining the parts of a split gives the original string back.
  lemma {:induction false} JoinSplit(s: string, sep: char)
    ensures Join(Split(s, sep), sep) == s
  {
    if s != "" {
      var rest := Split(s[1..], sep);
      JoinSplit(s[1..], sep);
      if s[0] == sep {
        assert Split(s, sep) == [""] + rest;
        assert Join([""] + rest, sep) == "" + [sep] + Join(rest, sep) by {
          assert ([""] + rest)[1..] == rest;
        }
        assert s == [s[0]] + s[1..];
      } else {
        assert Split(s, sep) == [[s[0]] + rest[0]] + rest[1..];
        if |rest| == 1 {
          assert s == [s[0]] + rest[0];
        } else {
          assert ([[s[0]] + rest[0]] + rest[1..])[1..] == rest[1..];
          assert Join(rest, sep) == rest[0] + [sep] + Join(rest[1..], sep);
          assert s == [s[0]] + s[1..];
        }
      }
    }
  }

  /// Splitting a join of separator-free parts gives the parts back.
  lemma {:induction false} SplitJoin(parts: seq<string>, sep: char)
    requires |parts| >= 1
    requires forall i :: 0 <= i < |parts| ==> sep !in parts[i]
    ensures Split(Join(parts, sep), sep) == parts
  {
    if |parts| == 1 {
      SplitNoSep(parts[0], sep);
    } else {
      SplitJoin(parts[1..], sep);
      SplitAppend(parts[0], Join(parts[1..], sep), sep);
      assert parts == [parts[0]] + parts[1..];
    }
  }

  /// A separator-free string splits into itself.
  lemma {:induction false} SplitNoSep(s: string, sep: char)
    requires sep !in s
    ensures Split(s, sep) == [s]
  {
    if s != "" {
      SplitNoSep(s[1..], sep);
      assert s == [s[0]] + s[1..];
    }
  }

  /// Splitting `a + sep + b` for a separator-free `a`.
  lemma {:induction false} SplitAppend(a: string, b: string, sep: char)
    requires sep !in a
    ensures Split(a + [sep] + b, sep) == [a] + Split(b, sep)
  {
    if a == "" {
      assert [sep] + b == "" + [sep] + b;
      assert ([sep] + b)[1..] == b;
    } else {
      assert (a + [sep] + b)[1..] == a[1..] + [sep] + b;
      SplitAppend(a[1..], b, sep);
      assert a == [a[0]] + a[1..];
    }
  }

  /// The last part of a split is whatever follows the last separator.
  lemma {:induction false} SplitLastAfterSep(a: string, b: string, sep: char)
    requires sep !in b
    ensures var r := Split(a + [sep] + b, sep); |r| >= 2 && r[|r| - 1] == b
  {
    var s := a + [sep] + b;
    if a == "" {
      SplitAppend(a, b, sep);
      SplitNoSep(b, sep);
    } else {
      assert s[1..] == a[1..] + [sep] + b;
      SplitLastAfterSep(a[1..], b, sep);
    }
  }

  /// Splitting four separator-free parts joined by the separator.
  lemma SplitFour(a: string, b: string, c: string, d: string, sep: char)
    requires sep !in a && sep !in b && sep !in c && sep !in d
    ensures Split(a + [sep] + b + [sep] + c + [sep] + d, sep) == [a, b, c, d]
  {
    var cd := c + [sep] + d;
    var bcd := b + [sep] + cd;
    ConcatFour(a, b, c, d, sep);
    SplitNoSep(d, sep);
    SplitAppend(c, d, sep);
    SplitAppend(b, cd, sep);
    SplitAppend(a, bcd, sep);
    assert [a] + ([b] + ([c] + [d])) == [a, b, c, d];
  }

  lemma ConcatFour(a: string, b: string, c: string, d: string, sep: char)
    ensures a + [sep] + b + [sep] + c + [sep] + d == a + [sep] + (b + [sep] + (c + [sep] + d))
  {
    assert a + [sep] + b + [sep] + c + [sep] + d == (a + [sep]) + ((b + [sep]) + ((c + [sep]) + d));
  }

  /// ASCII `toLowerCase()`.
  function LowerChar(c: char): (r: char)
    ensures 'A' <= c <= 'Z' ==> 'a' <= r <= 'z'
    ensures !('A' <= c <= 'Z') ==> r == c
  {
    if 'A' <= c <= 'Z' then (c as int - 'A' as int + 'a' as int) as char else c
  }

  function Lower(s: string): (r: string)
    ensures |r| == |s|
    ensures forall i :: 0 <= i < |s| ==> r[i] == LowerChar(s[i])
  {
    seq(|s|, i requires 0 <= i < |s| => LowerChar(s[i]))
  }

  predicate StartsWith(s: string, prefix: string) {
    |prefix| <= |s| && s[..|prefix|] == prefix
  }

  predicate EndsWith(s: string, suffix: string) {
    |suffix| <= |s| && s[|s| - |suffix|..] == suffix
  }

  /// `hay.includes(needle)` / `strings.Contains(hay, needle)`.
  predicate Contains(hay: string, needle: string)
    decreases |hay|
  {
    StartsWith(hay, needle) || (hay != "" && Contains(hay[1..], needle))
  }

  /// `Contains` holds exactly when the needle occurs at some position.
  lemma {:induction false} ContainsAt(hay: string, needle: string, k: nat)
    requires k + |needle| <= |hay| && hay[k..k + |needle|] == needle
    ensures Contains(hay, needle)
    decreases k
  {
    if k > 0 {
      assert hay[1..][k - 1..k - 1 + |needle|] == hay[k..k + |needle|];
      ContainsAt(hay[1..], needle, k - 1);
    }
  }

  lemma ContainsEmpty(hay: string)
    ensures Contains(hay, "")
  {
  }

  function DigitChar(d: nat): (c: char)
    requires d < 10
    ensures '0' <= c <= '9'
  {
    ('0' as int + d) as char
  }

  /// Decimal rendering of a natural number, as `%d` prints it.
  function NatToString(n: nat): (r: string)
    ensures |r| >= 1
    ensures forall i :: 0 <= i < |r| ==> '0' <= r[i] <= '9'
    ensures r[0] == '0' ==> n == 0
  {
    if n < 10 then [DigitChar(n)] else NatToString(n / 10) + [DigitChar(n % 10)]
  }

  /// `%d` for a possibly negative integer.
  function IntToString(n: int): (r: string)
    ensures |r| >= 1
  {
    if n < 0 then "-" + NatToString(-n) else NatToString(n)
  }

  /// Reads back a string of decimal digits.
  function DigitsValue(s: string): nat
    requires forall i :: 0 <= i < |s| ==> '0' <= s[i] <= '9'
  {
    if s == "" then 0 else DigitsValue(s[..|s| - 1]) * 10 + (s[|s| - 1] as int - '0' as int)
  }

  /// `NatToString` loses nothing: its digits read back as the number.
  lemma {:induction false} NatToStringValue(n: nat)
    ensures DigitsValue(NatToString(n)) == n
  {
    if n >= 10 {
      NatToStringValue(n / 10);
      var r := NatToString(n);
      assert r[..|r| - 1] == NatToString(n / 10);
    }
  }

  lemma NatToStringInjective(a: nat, b: nat)
    requires NatToString(a) == NatToString(b)
    ensures a == b
  {
    NatToStringValue(a);
    NatToStringValue(b);
  }
}
