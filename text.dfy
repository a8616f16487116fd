/** The string primitives the agents rely on: Python's `in`, `lower()`,
    `strip()`, `split()` and `replace()`, written out over `seq<char>`. */
module Text {

  /** The characters Python's `str.isspace` accepts (what `split()` and `strip()` cut at). */
  predicate IsSpace(c: char) {
    c == ' ' || c == '\t' || c == '\n' || c == '\r' || c == '\U{000B}' || c == '\U{000C}'
    || ('\U{001C}' <= c <= '\U{001F}') || c == '\U{0085}' || c == '\U{00A0}' || c == '\U{1680}'
    || ('\U{2000}' <= c <= '\U{200A}') || c == '\U{2028}' || c == '\U{2029}' || c == '\U{202F}'
    || c == '\U{205F}' || c == '\U{3000}'
  }

  /** Lower-case of one character (ASCII letters only). */
  function LowerChar(c: char): (r: char)
    ensures 'A' <= c <= 'Z' ==> 'a' <= r <= 'z'
    ensures !('A' <= c <= 'Z') ==> r == c
  {
    if 'A' <= c <= 'Z' then (c as int - 'A' as int + 'a' as int) as char else c
  }

  /** `s.lower()`. */
  function Lower(s: string): (r: string)
    ensures |r| == |s|
    ensures forall i :: 0 <= i < |s| ==> r[i] == LowerChar(s[i])
  {
    if s == [] then [] else [LowerChar(s[0])] + Lower(s[1..])
  }

  /** `s.startswith(p)`. */
  predicate StartsWith(s: string, p: string) {
    |p| <= |s| && s[..|p|] == p
  }

  /** `sub in s`. */
  predicate Contains(s: string, sub: string)
    decreases |s|
  {
    StartsWith(s, sub) || (s != [] && Contains(s[1..], sub))
  }

  /** `re.search(alternative, s, re.IGNORECASE)` for a pattern that is a literal in lower case. */
  predicate ContainsIgnoreCase(s: string, lowerLiteral: string) {
    Contains(Lower(s), lowerLiteral)
  }

  /** `sub` occurs in `s` at index `i`. */
  predicate OccursAt(s: string, sub: string, i: nat) {
    i + |sub| <= |s| && s[i..i + |sub|] == sub
  }

  /** An occurrence at any index makes `sub in s` true. */
  lemma {:induction false} ContainsAt(s: string, sub: string, i: nat)
    requires OccursAt(s, sub, i)
    ensures Contains(s, sub)
    decreases i
  {
    if i == 0 {
      assert s[..|sub|] == sub;
    } else {
      assert s[1..][i - 1..i - 1 + |sub|] == s[i..i + |sub|];
      ContainsAt(s[1..], sub, i - 1);
    }
  }

  /** Drops the leading whitespace (the left half of `strip()`). */
  function TrimStart(s: string): (r: string)
    ensures |r| <= |s| && r == s[|s| - |r|..]
    ensures r != [] ==> !IsSpace(r[0])
  {
    if s != [] && IsSpace(s[0]) then TrimStart(s[1..]) else s
  }

  /** Drops the trailing whitespace (the right half of `strip()`). */
  function TrimEnd(s: string): (r: string)
    ensures |r| <= |s| && r == s[..|r|]
    ensures r != [] ==> !IsSpace(r[|r| - 1])
  {
    if s != [] && IsSpace(s[|s| - 1]) then TrimEnd(s[..|s| - 1]) else s
  }

  /** `s.strip()`. */
  function Strip(s: string): (r: string)
    ensures r != [] ==> !IsSpace(r[0]) && !IsSpace(r[|r| - 1])
  {
    TrimEnd(TrimStart(s))
  }

  /** The length of the leading run of non-space characters. */
  function WordLength(s: string): (n: nat)
    ensures n <= |s|
    ensures forall i :: 0 <= i < n ==> !IsSpace(s[i])
    ensures n < |s| ==> IsSpace(s[n])
  {
    if s == [] || IsSpace(s[0]) then 0 else 1 + WordLength(s[1..])
  }

  /** `s.split()`: the maximal runs of non-whitespace characters, in order. */
  function Words(s: string): (ws: seq<string>)
    ensures forall k :: 0 <= k < |ws| ==> ws[k] != [] && forall i :: 0 <= i < |ws[k]| ==> !IsSpace(ws[k][i])
    decreases |s|
  {
    if s == [] then []
    else if IsSpace(s[0]) then Words(s[1..])
    else
      var n := WordLength(s);
      [s[..n]] + Words(s[n..])
  }

  /** `len(s.split())`. */
  function WordCount(s: string): nat {
    |Words(s)|
  }

  /** A string that is all whitespace has no words, and one with a non-space character has at least one. */
  lemma {:induction false} WordCountZeroIffBlank(s: string)
    ensures WordCount(s) == 0 <==> forall i :: 0 <= i < |s| ==> IsSpace(s[i])
    decreases |s|
  {
    if s != [] && IsSpace(s[0]) {
      WordCountZeroIffBlank(s[1..]);
      assert forall i :: 1 <= i < |s| ==> s[i] == s[1..][i - 1];
    }
  }

  /** `s.split(sep)` for a one-character separator: always at least one piece. */
  function SplitOn(s: string, sep: char): (parts: seq<string>)
    ensures |parts| >= 1
    ensures forall k :: 0 <= k < |parts| ==> forall i :: 0 <= i < |parts[k]| ==> parts[k][i] != sep
    decreases |s|
  {
    if s == [] then [[]]
    else
      var rest := SplitOn(s[1..], sep);
      if s[0] == sep then [[]] + rest else [[s[0]] + rest[0]] + rest[1..]
  }

  /** `s.replace(pat, rep)`: every non-overlapping occurrence, left to right. */
  function ReplaceAll(s: string, pat: string, rep: string): string
    requires pat != []
    decreases |s|
  {
    if |s| < |pat| then s
    else if s[..|pat|] == pat then rep + ReplaceAll(s[|pat|..], pat, rep)
    else [s[0]] + ReplaceAll(s[1..], pat, rep)
  }

  /** Replacing a pattern that does not occur changes nothing. */
  lemma {:induction false} ReplaceAbsent(s: string, pat: string, rep: string)
    requires pat != [] && !Contains(s, pat)
    ensures ReplaceAll(s, pat, rep) == s
    decreases |s|
  {
    if |s| >= |pat| {
      assert !StartsWith(s, pat);
      ReplaceAbsent(s[1..], pat, rep);
    }
  }

  /** A string that contains `sub` has an occurrence of it at some index. */
  lemma {:induction false} ContainsOccurs(s: string, sub: string)
    ensures Contains(s, sub) ==> exists i: nat :: OccursAt(s, sub, i)
    decreases |s|
  {
    if StartsWith(s, sub) {
      assert OccursAt(s, sub, 0);
    } else if s != [] {
      ContainsOccurs(s[1..], sub);
      if Contains(s[1..], sub) {
        var i: nat :| OccursAt(s[1..], sub, i);
        OccursAppend([s[0]], s[1..], sub, i);
        assert [s[0]] + s[1..] == s;
      }
    }
  }

  /** An occurrence in `y` is an occurrence in `x + y`, shifted by `|x|`, and conversely. */
  lemma OccursAppend(x: string, y: string, sub: string, i: nat)
    ensures OccursAt(x + y, sub, |x| + i) <==> OccursAt(y, sub, i)
  {
    if i + |sub| <= |y| {
      assert (x + y)[|x| + i..|x| + i + |sub|] == y[i..i + |sub|];
    }
  }

  /** The first `m` characters of the result, `m` at most the pattern's length, either hold a character of
      `rep` or are the first `m` characters of the input: copied characters come first. */
  lemma {:induction false} ReplaceCopiedPrefix(s: string, pat: string, rep: string, m: nat)
    requires pat != [] && rep != []
    requires m <= |pat| && m <= |ReplaceAll(s, pat, rep)|
    ensures || (exists j :: 0 <= j < m && ReplaceAll(s, pat, rep)[j] in rep)
            || (m <= |s| && ReplaceAll(s, pat, rep)[..m] == s[..m])
    decreases |s|
  {
    var r := ReplaceAll(s, pat, rep);
    if |s| >= |pat| && m > 0 {
      if s[..|pat|] == pat {
        assert r[0] == rep[0];
      } else {
        var t := ReplaceAll(s[1..], pat, rep);
        assert r == [s[0]] + t;
        ReplaceCopiedPrefix(s[1..], pat, rep, m - 1);
        if exists j :: 0 <= j < m - 1 && t[j] in rep {
          var j :| 0 <= j < m - 1 && t[j] in rep;
          assert r[j + 1] == t[j];
        } else {
          assert r[..m] == [s[0]] + t[..m - 1];
          assert s[..m] == [s[0]] + s[1..][..m - 1];
        }
      }
    }
  }

  /** When the replacement is not empty and shares no character with the pattern, `s.replace(pat, rep)`
      leaves no occurrence of the pattern behind. */
  lemma {:induction false} ReplaceRemoves(s: string, pat: string, rep: string)
    requires pat != [] && rep != []
    requires forall c :: c in rep ==> c !in pat
    ensures forall i: nat :: !OccursAt(ReplaceAll(s, pat, rep), pat, i)
    ensures !Contains(ReplaceAll(s, pat, rep), pat)
    decreases |s|
  {
    var r := ReplaceAll(s, pat, rep);
    if |s| < |pat| {
    } else if s[..|pat|] == pat {
      var t := ReplaceAll(s[|pat|..], pat, rep);
      ReplaceRemoves(s[|pat|..], pat, rep);
      assert r == rep + t;
      forall i: nat ensures !OccursAt(r, pat, i) {
        if i < |rep| {
          assert OccursAt(r, pat, i) ==> r[i] == pat[0] by {
            if OccursAt(r, pat, i) {
              assert r[i..i + |pat|][0] == r[i];
            }
          }
          assert r[i] == rep[i] && rep[i] in rep && pat[0] in pat;
        } else {
          OccursAppend(rep, t, pat, i - |rep|);
        }
      }
    } else {
      var t := ReplaceAll(s[1..], pat, rep);
      ReplaceRemoves(s[1..], pat, rep);
      assert r == [s[0]] + t;
      forall i: nat ensures !OccursAt(r, pat, i) {
        if i == 0 {
          if |pat| <= |r| {
            ReplaceCopiedPrefix(s, pat, rep, |pat|);
            assert r[0..|pat|] == r[..|pat|];
          }
        } else {
          OccursAppend([s[0]], t, pat, i - 1);
        }
      }
    }
    ContainsOccurs(r, pat);
  }

  /** Text before the first occurrence of the pattern is kept as it is: `(a + b).replace(pat, rep)` is `a`
      followed by `b.replace(pat, rep)` when no occurrence starts inside `a`. */
  lemma {:induction false} ReplaceKeepsPrefix(a: string, b: string, pat: string, rep: string)
    requires pat != []
    requires forall i: nat :: i < |a| ==> !OccursAt(a + b, pat, i)
    ensures ReplaceAll(a + b, pat, rep) == a + ReplaceAll(b, pat, rep)
    decreases |a|
  {
    if a == [] {
      assert a + b == b;
    } else {
      var s := a + b;
      var a' := a[1..];
      assert s == [a[0]] + (a' + b);
      if |s| < |pat| {
        assert ReplaceAll(b, pat, rep) == b;
      } else {
        assert !OccursAt(s, pat, 0);
        assert ReplaceAll(s, pat, rep) == [a[0]] + ReplaceAll(a' + b, pat, rep);
        forall i: nat | i < |a'| ensures !OccursAt(a' + b, pat, i) {
          OccursAppend([a[0]], a' + b, pat, i);
        }
        ReplaceKeepsPrefix(a', b, pat, rep);
        assert a == [a[0]] + a';
      }
    }
  }

  /** Python's `s[:n] + "..." if len(s) > n else s`. */
  function Truncate(s: string, n: nat): (r: string)
    ensures |s| <= n ==> r == s
    ensures |s| > n ==> |r| == n + 3 && r[..n] == s[..n] && r[n..] == "..."
  {
    if |s| > n then s[..n] + "..." else s
  }

  /** `str(n)` for a natural number. */
  function DecimalString(n: nat): (r: string)
    ensures r != []
    ensures forall i :: 0 <= i < |r| ==> '0' <= r[i] <= '9'
    decreases n
  {
    var d := ['0', '1', '2', '3', '4', '5', '6', '7', '8', '9'];
    if n < 10 then [d[n]] else DecimalString(n / 10) + [d[n % 10]]
  }
}
