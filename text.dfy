/**
 * The JavaScript string primitives the front-end relies on: `trim()`, the
 * `\s` character class, `includes`, `toLowerCase` and a left-to-right
 * substring search (what a regular expression with a literal prefix does).
 */
module Text {
  import opened Types

  /**
   * ECMAScript WhiteSpace and LineTerminator code points: exactly what
   * `String.prototype.trim` removes and what `\s` matches.
   */
  predicate IsWs(c: char)
  {
    || c == ' ' || c == '\t' || c == '\n' || c == '\r'
    || c == '\U{000B}' || c == '\U{000C}' || c == '\U{00A0}' || c == '\U{1680}'
    || ('\U{2000}' <= c <= '\U{200A}')
    || c == '\U{2028}' || c == '\U{2029}' || c == '\U{202F}' || c == '\U{205F}'
    || c == '\U{3000}' || c == '\U{FEFF}'
  }

  /** Every character is whitespace (the empty string included). */
  predicate IsBlank(s: string)
  {
    forall i :: 0 <= i < |s| ==> IsWs(s[i])
  }

  /** `s.trimStart()`: the longest suffix of `s` that does not start with whitespace. */
  function TrimStart(s: string): (r: string)
    ensures |r| <= |s| && r == s[|s| - |r|..]
    ensures forall i :: 0 <= i < |s| - |r| ==> IsWs(s[i])
    ensures r == [] || !IsWs(r[0])
  {
    if s == [] || !IsWs(s[0]) then s
    else
      var r := TrimStart(s[1..]);
      assert forall i :: 1 <= i < |s| - |r| ==> s[i] == s[1..][i - 1];
      r
  }

  /** `s.trimEnd()`: the longest prefix of `s` that does not end with whitespace. */
  function TrimEnd(s: string): (r: string)
    ensures |r| <= |s| && r == s[..|r|]
    ensures forall i :: |r| <= i < |s| ==> IsWs(s[i])
    ensures r == [] || !IsWs(r[|r| - 1])
  {
    if s == [] || !IsWs(s[|s| - 1]) then s
    else
      var r := TrimEnd(s[..|s| - 1]);
      assert forall i :: |r| <= i < |s| - 1 ==> s[i] == s[..|s| - 1][i];
      r
  }

  /**
   * `s.trim()`: `s` without its leading and trailing whitespace. It is empty
   * exactly when `s` is blank, which is how the source tests `s.trim()` for
   * truthiness. `TrimIsInfix` fixes its value.
   */
  function Trim(s: string): (r: string)
    ensures |r| <= |s|
    ensures r == [] <==> IsBlank(s)
    ensures r != [] ==> !IsWs(r[0]) && !IsWs(r[|r| - 1])
  {
    TrimEnd(TrimStart(s))
  }

  /**
   * The trimmed text is the part of `s` between a blank prefix and a blank
   * suffix. With `Trim`'s own contract (no whitespace at either end of a
   * non-empty result) this determines it.
   */
  lemma TrimIsInfix(s: string)
    ensures exists a ::
      && 0 <= a && a + |Trim(s)| <= |s| && Trim(s) == s[a..a + |Trim(s)|]
      && IsBlank(s[..a]) && IsBlank(s[a + |Trim(s)|..])
  {
    var t := TrimStart(s);
    var r := TrimEnd(t);
    var a := |s| - |t|;
    assert IsBlank(s[..a]) by {
      forall i | 0 <= i < a ensures IsWs(s[..a][i]) {
        assert s[..a][i] == s[i];
      }
    }
    assert r == s[a..a + |r|];
    var tail := s[a + |r|..];
    assert IsBlank(tail) by {
      forall i | 0 <= i < |tail| ensures IsWs(tail[i]) {
        assert tail[i] == t[|r| + i];
      }
    }
  }

  /** `p` occurs in `s` starting at index `k`. */
  predicate IsAt(s: string, p: string, k: int)
  {
    0 <= k && k + |p| <= |s| && s[k..k + |p|] == p
  }

  /**
   * `s.indexOf(p, from)` as an option: the first index at or after `from`
   * where `p` occurs.
   */
  function FindFrom(s: string, p: string, from: nat): (r: Option<nat>)
    ensures r.Some? ==> from <= r.value && IsAt(s, p, r.value)
    ensures r.Some? ==> forall m :: from <= m < r.value ==> !IsAt(s, p, m)
    ensures r.None? ==> forall m :: from <= m ==> !IsAt(s, p, m)
    decreases |s| - from
  {
    if from + |p| > |s| then None
    else if s[from..from + |p|] == p then Some(from)
    else
      assert p != [];
      FindFrom(s, p, from + 1)
  }

  /** The first occurrence at or after `from` is what the search finds. */
  lemma FindFromFirst(s: string, p: string, from: nat, k: nat)
    requires from <= k && IsAt(s, p, k)
    requires forall m :: from <= m < k ==> !IsAt(s, p, m)
    ensures FindFrom(s, p, from) == Some(k)
  {
  }

  /** `s.includes(p)` */
  predicate Contains(s: string, p: string)
  {
    exists k :: 0 <= k <= |s| && IsAt(s, p, k)
  }

  /** `includes` agrees with the search: it holds exactly when the search from the start finds something. */
  lemma ContainsIffFound(s: string, p: string)
    ensures Contains(s, p) <==> FindFrom(s, p, 0).Some?
  {
    var r := FindFrom(s, p, 0);
    if r.Some? {
      assert IsAt(s, p, r.value);
    }
  }

  /**
   * Case mapping of one character, for the ASCII letters. (The keywords the
   * source compares against are ASCII; see the README for why non-ASCII case
   * mapping cannot change which of them a text contains.)
   */
  function LowerChar(c: char): char
  {
    if 'A' <= c <= 'Z' then (c as int + 32) as char else c
  }

  /** `s.toLowerCase()`, character by character. */
  function ToLower(s: string): string
  {
    seq(|s|, i requires 0 <= i < |s| => LowerChar(s[i]))
  }

  /** Lower-casing twice is lower-casing once. */
  lemma ToLowerIdempotent(s: string)
    ensures ToLower(ToLower(s)) == ToLower(s)
  {
    var once := ToLower(s);
    var twice := ToLower(once);
    forall i | 0 <= i < |s| ensures twice[i] == once[i] {
      var c := s[i];
      if 'A' <= c <= 'Z' {
        assert once[i] == (c as int + 32) as char;
      }
    }
  }

  /** An occurrence survives lower-casing: if `s` contains `p`, the lower-cased `s` contains the lower-cased `p`. */
  lemma ContainsToLower(s: string, p: string)
    requires Contains(s, p)
    ensures Contains(ToLower(s), ToLower(p))
  {
    var k :| 0 <= k <= |s| && IsAt(s, p, k);
    var ls, lp := ToLower(s), ToLower(p);
    assert ls[k..k + |p|] == lp by {
      forall i | 0 <= i < |p| ensures ls[k..k + |p|][i] == lp[i] {
        assert s[k..k + |p|][i] == p[i];
      }
    }
    assert IsAt(ls, lp, k);
  }

  function DigitChar(d: nat): char
    requires d < 10
  {
    ('0' as int + d) as char
  }

  /** `String(n)` for a natural number: its decimal digits. */
  function NatToDecimal(n: nat): string
  {
    if n < 10 then [DigitChar(n)] else NatToDecimal(n / 10) + [DigitChar(n % 10)]
  }
}
