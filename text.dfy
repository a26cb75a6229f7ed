/** String operations the client and the server rely on: JavaScript's `trim`,
    `join("")` and the removal of every asterisk, and Python's `lower` and `in`. */
module Text {

  /** The white space JavaScript's `String.prototype.trim` removes: the ASCII
      spaces and line breaks, no-break space, the byte-order mark, the line and
      paragraph separators and the Unicode space separators. */
  predicate IsSpace(c: char) {
    || c == ' ' || c == '\t' || c == '\n' || c == '\r' || c == '\U{000B}' || c == '\U{000C}'
    || c == '\U{00A0}' || c == '\U{1680}' || ('\U{2000}' <= c <= '\U{200A}')
    || c == '\U{2028}' || c == '\U{2029}' || c == '\U{202F}' || c == '\U{205F}'
    || c == '\U{3000}' || c == '\U{FEFF}'
  }

  /** Empty or made only of white space: the strings for which `!s.trim()` holds. */
  predicate IsBlank(s: string) {
    forall k :: 0 <= k < |s| ==> IsSpace(s[k])
  }

  /** Neither starts nor ends with white space. */
  predicate IsTrimmed(s: string) {
    s == [] || (!IsSpace(s[0]) && !IsSpace(s[|s| - 1]))
  }

  /** Drops the leading white space. */
  function TrimStart(s: string): (r: string)
    ensures |r| <= |s|
  {
    if s != [] && IsSpace(s[0]) then TrimStart(s[1..]) else s
  }

  /** `TrimStart` keeps a suffix, drops only white space and stops at the
      first other character. */
  lemma {:induction false} TrimStartSpec(s: string)
    ensures var r := TrimStart(s);
      && r == s[|s| - |r|..]
      && (forall k :: 0 <= k < |s| - |r| ==> IsSpace(s[k]))
      && (r == [] || !IsSpace(r[0]))
  {
    if s != [] && IsSpace(s[0]) {
      TrimStartSpec(s[1..]);
      assert forall k :: 1 <= k < |s| ==> s[k] == s[1..][k - 1];
    }
  }

  /** Drops the trailing white space. */
  function TrimEnd(s: string): (r: string)
    ensures |r| <= |s|
  {
    if s != [] && IsSpace(s[|s| - 1]) then TrimEnd(s[..|s| - 1]) else s
  }

  /** `TrimEnd` keeps a prefix, drops only white space and stops at the last
      other character. */
  lemma {:induction false} TrimEndSpec(s: string)
    ensures var r := TrimEnd(s);
      && r == s[..|r|]
      && (forall k :: |r| <= k < |s| ==> IsSpace(s[k]))
      && (r == [] || !IsSpace(r[|r| - 1]))
  {
    if s != [] && IsSpace(s[|s| - 1]) {
      TrimEndSpec(s[..|s| - 1]);
    }
  }

  /** `s.trim()`: the leading, then the trailing white space dropped. */
  function Trim(s: string): (r: string)
    ensures |r| <= |s|
  {
    TrimEnd(TrimStart(s))
  }

  /** `Trim` keeps the slice of `s` between its leading and its trailing white
      space: the result neither starts nor ends with white space, and
      everything dropped on either side is white space. */
  lemma TrimSpec(s: string)
    ensures var i := |s| - |TrimStart(s)|;
      && IsTrimmed(Trim(s))
      && i + |Trim(s)| <= |s|
      && Trim(s) == s[i..i + |Trim(s)|]
      && forall k :: 0 <= k < |s| && !(i <= k < i + |Trim(s)|) ==> IsSpace(s[k])
  {
    var t := TrimStart(s);
    TrimStartSpec(s);
    TrimEndSpec(t);
    var r := TrimEnd(t);
    var i := |s| - |t|;
    assert r == s[i..i + |r|] by {
      assert t == s[i..] && r == t[..|r|];
    }
    if r != [] {
      assert r[0] == t[0];
    }
    forall k | 0 <= k < |s| && !(i <= k < i + |r|)
      ensures IsSpace(s[k])
    {
      if i <= k {
        assert s[k] == t[k - i];
      }
    }
  }

  /** A string trims to the empty string exactly when it is blank, which is
      when `!s.trim()` holds in JavaScript. */
  lemma TrimEmptyIffBlank(s: string)
    ensures Trim(s) == [] <==> IsBlank(s)
  {
    TrimSpec(s);
  }

  /** Trimming a trimmed string changes nothing. */
  lemma TrimTrimmed(s: string)
    requires IsTrimmed(s)
    ensures Trim(s) == s
  {
    assert TrimStart(s) == s;
    assert TrimEnd(s) == s;
  }

  /** Trimming twice is trimming once. */
  lemma TrimIdempotent(s: string)
    ensures Trim(Trim(s)) == Trim(s)
  {
    TrimSpec(s);
    TrimTrimmed(Trim(s));
  }

  /** `parts.join("")`. */
  function Concat(parts: seq<string>): string {
    if parts == [] then [] else parts[0] + Concat(parts[1..])
  }

  /** Python's `str.lower` restricted to ASCII letters. */
  function LowerChar(c: char): (d: char)
    ensures ('A' <= c <= 'Z') ==> 'a' <= d <= 'z' && d as int - c as int == 32
    ensures !('A' <= c <= 'Z') ==> d == c
  {
    if 'A' <= c <= 'Z' then (c as int + 32) as char else c
  }

  function Lower(s: string): (r: string)
    ensures |r| == |s|
    ensures forall k :: 0 <= k < |s| ==> r[k] == LowerChar(s[k])
  {
    if s == [] then [] else [LowerChar(s[0])] + Lower(s[1..])
  }

  /** Lower-casing twice is lower-casing once. */
  lemma LowerIdempotent(s: string)
    ensures Lower(Lower(s)) == Lower(s)
  {
    var l := Lower(s);
    assert forall k :: 0 <= k < |l| ==> Lower(l)[k] == l[k];
  }

  /** `part` occurs in `text` starting at index `i`. */
  predicate OccursAt(text: string, part: string, i: int) {
    0 <= i && i + |part| <= |text| && text[i..i + |part|] == part
  }

  /** Python's `part in text`. */
  function Contains(text: string, part: string): (b: bool)
    ensures b <==> exists i :: OccursAt(text, part, i)
    decreases |text|
  {
    if |part| > |text| then false
    else if text[..|part|] == part then (assert OccursAt(text, part, 0); true)
    else
      var rest := Contains(text[1..], part);
      assert forall i :: OccursAt(text[1..], part, i) <==> OccursAt(text, part, i + 1) by {
        forall i ensures OccursAt(text[1..], part, i) <==> OccursAt(text, part, i + 1) {
          if 0 <= i && i + |part| <= |text[1..]| {
            assert text[1..][i..i + |part|] == text[i + 1..i + 1 + |part|];
          }
        }
      }
      assert !OccursAt(text, part, 0);
      assert (exists i :: OccursAt(text, part, i)) ==> exists i :: OccursAt(text[1..], part, i) by {
        if exists i :: OccursAt(text, part, i) {
          var i :| OccursAt(text, part, i);
          assert OccursAt(text[1..], part, i - 1);
        }
      }
      rest
  }

  /** `s.replace(...)` with a global pattern for one character: every
      occurrence of `c` removed. */
  function Without(s: string, c: char): (r: string)
    ensures |r| <= |s|
  {
    if s == [] then []
    else if s[0] == c then Without(s[1..], c)
    else [s[0]] + Without(s[1..], c)
  }

  /** `Without` removes every occurrence of `c`, keeps every other character
      as often as it occurs, and leaves a string without `c` as it is. */
  lemma {:induction false} WithoutSpec(s: string, c: char)
    ensures c !in Without(s, c)
    ensures forall d :: d != c ==> multiset(Without(s, c))[d] == multiset(s)[d]
    ensures c !in s ==> Without(s, c) == s
  {
    if s != [] {
      WithoutSpec(s[1..], c);
      assert s == [s[0]] + s[1..];
    }
  }

  /** Removal works piece by piece, so it commutes with concatenation. */
  lemma {:induction false} WithoutAppend(a: string, b: string, c: char)
    ensures Without(a + b, c) == Without(a, c) + Without(b, c)
  {
    if a == [] {
      assert a + b == b;
    } else {
      assert (a + b)[1..] == a[1..] + b;
      WithoutAppend(a[1..], b, c);
    }
  }
}
