/**
 * The string operations the site relies on: ASCII case mapping
 * (`toLowerCase`/`toUpperCase`), `String.prototype.startsWith`,
 * `String.prototype.includes`, `String.prototype.replace` with a string
 * pattern, and `String.prototype.trim`.
 */
module Text {

  function LowerChar(c: char): char {
    if 'A' <= c <= 'Z' then (c as int + 32) as char else c
  }

  function UpperChar(c: char): char {
    if 'a' <= c <= 'z' then (c as int - 32) as char else c
  }

  /** `s.toLowerCase()`, restricted to the ASCII letters. */
  function Lower(s: string): (r: string)
    ensures |r| == |s|
    ensures forall i :: 0 <= i < |s| ==> r[i] == LowerChar(s[i])
  {
    if s == [] then [] else [LowerChar(s[0])] + Lower(s[1..])
  }

  /** Lowering twice is lowering once. */
  lemma LowerIdempotent(s: string)
    ensures Lower(Lower(s)) == Lower(s)
  {
  }

  /** `s.startsWith(prefix)` */
  predicate StartsWith(s: string, prefix: string) {
    |prefix| <= |s| && s[..|prefix|] == prefix
  }

  /** `q` occurs in `s` starting at index `i`. */
  ghost predicate OccursAt(s: string, q: string, i: int) {
    0 <= i && i + |q| <= |s| && s[i..i + |q|] == q
  }

  /** `s.includes(q)`: scans `s` from the left for an occurrence of `q`. */
  function Includes(s: string, q: string): bool
    decreases |s|
  {
    if StartsWith(s, q) then true
    else if s == [] then false
    else Includes(s[1..], q)
  }

  /** `Includes` holds exactly when `q` occurs somewhere in `s`. */
  lemma {:induction false} IncludesIffOccurs(s: string, q: string)
    ensures Includes(s, q) <==> exists i :: OccursAt(s, q, i)
    decreases |s|
  {
    if StartsWith(s, q) {
      assert OccursAt(s, q, 0);
    } else if s == [] {
    } else {
      IncludesIffOccurs(s[1..], q);
      if Includes(s[1..], q) {
        var i :| OccursAt(s[1..], q, i);
        assert s[1..][i..i + |q|] == s[i + 1..i + 1 + |q|];
        assert OccursAt(s, q, i + 1);
      }
      forall i | OccursAt(s, q, i) ensures Includes(s[1..], q) {
        assert i != 0;
        assert s[1..][i - 1..i - 1 + |q|] == s[i..i + |q|];
        assert OccursAt(s[1..], q, i - 1);
      }
    }
  }

  /** Every string includes the empty string. */
  lemma IncludesEmpty(s: string)
    ensures Includes(s, "")
  {
    assert StartsWith(s, "");
  }

  /** `s.replace(pattern, replacement)` with a string pattern: only the first occurrence is replaced. */
  function ReplaceFirst(s: string, pattern: string, replacement: string): (r: string)
    ensures StartsWith(s, pattern) ==> r == replacement + s[|pattern|..]
    ensures !Includes(s, pattern) ==> r == s
    decreases |s|
  {
    if StartsWith(s, pattern) then replacement + s[|pattern|..]
    else if s == [] then s
    else [s[0]] + ReplaceFirst(s[1..], pattern, replacement)
  }

  /**
   * The characters `trim` removes: the ECMAScript WhiteSpace and
   * LineTerminator code points (every space separator of Unicode 15 included).
   */
  predicate IsWhiteSpace(c: char) {
    || c == '\t' || c == '\n' || c == '\U{000B}' || c == '\U{000C}' || c == '\r' || c == ' '
    || c == '\U{00A0}' || c == '\U{1680}' || ('\U{2000}' <= c <= '\U{200A}')
    || c == '\U{2028}' || c == '\U{2029}' || c == '\U{202F}' || c == '\U{205F}'
    || c == '\U{3000}' || c == '\U{FEFF}'
  }

  function TrimStart(s: string): (r: string)
    ensures r == [] || !IsWhiteSpace(r[0])
  {
    if s != [] && IsWhiteSpace(s[0]) then TrimStart(s[1..]) else s
  }

  function TrimEnd(s: string): (r: string)
    ensures |r| <= |s| && r == s[..|r|]
  {
    if s != [] && IsWhiteSpace(s[|s| - 1]) then TrimEnd(s[..|s| - 1]) else s
  }

  /** `s.trim()` */
  function Trim(s: string): string {
    TrimEnd(TrimStart(s))
  }

  /** The JavaScript test `!s.trim()`: the input holds nothing but white space. */
  predicate IsBlank(s: string) {
    Trim(s) == []
  }

  ghost predicate AllWhiteSpace(s: string) {
    forall i :: 0 <= i < |s| ==> IsWhiteSpace(s[i])
  }

  lemma {:induction false} TrimStartEmpty(s: string)
    ensures TrimStart(s) == [] <==> AllWhiteSpace(s)
  {
    if s != [] {
      TrimStartEmpty(s[1..]);
      if IsWhiteSpace(s[0]) {
        assert AllWhiteSpace(s) <==> AllWhiteSpace(s[1..]) by {
          if AllWhiteSpace(s[1..]) {
            forall i | 0 <= i < |s| ensures IsWhiteSpace(s[i]) {
              if i > 0 { assert s[i] == s[1..][i - 1]; }
            }
          }
        }
      }
    }
  }

  /** Trimming the end of a string that starts with a non-space character keeps that character. */
  lemma {:induction false} TrimEndKeepsFirst(s: string)
    requires s != [] && !IsWhiteSpace(s[0])
    ensures TrimEnd(s) != []
    decreases |s|
  {
    if IsWhiteSpace(s[|s| - 1]) {
      assert |s| > 1;
      TrimEndKeepsFirst(s[..|s| - 1]);
    }
  }

  /** A string is blank exactly when every character of it is white space. */
  lemma BlankIffAllWhiteSpace(s: string)
    ensures IsBlank(s) <==> AllWhiteSpace(s)
  {
    TrimStartEmpty(s);
    var t := TrimStart(s);
    if t != [] {
      TrimEndKeepsFirst(t);
    }
  }
}
