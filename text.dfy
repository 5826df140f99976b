/** String operations with the meaning Python gives them on `str`:
    `in` (substring search), `startswith`, `lower`, `strip`, `split()`
    and `replace(old, "")`. Strings are sequences of characters. */
module Text {

  /** Whitespace as `str.isspace`, `str.strip()` and `str.split()` see it:
      the ASCII controls 9-13 and 28-31, the space, and the Unicode
      separators Python also counts. */
  predicate IsSpace(c: char) {
    var n := c as int;
    n == 0x20 || (0x09 <= n <= 0x0D) || (0x1C <= n <= 0x1F) || n == 0x85 || n == 0xA0 ||
    n == 0x1680 || (0x2000 <= n <= 0x200A) || n == 0x2028 || n == 0x2029 ||
    n == 0x202F || n == 0x205F || n == 0x3000
  }

  predicate AllSpace(s: string) {
    forall i :: 0 <= i < |s| ==> IsSpace(s[i])
  }

  predicate StartsWith(s: string, prefix: string) {
    |prefix| <= |s| && s[..|prefix|] == prefix
  }

  /** `part` occurs in `s` starting at index `i`. */
  predicate OccursAt(s: string, part: string, i: int) {
    0 <= i && i + |part| <= |s| && s[i..i + |part|] == part
  }

  /** Python's `part in s`; a regular expression made of literal characters
      is found by `re.search` exactly when this holds. */
  predicate Contains(s: string, part: string) {
    exists i :: 0 <= i <= |s| && OccursAt(s, part, i)
  }

  lemma ContainsAt(s: string, part: string, i: int)
    requires OccursAt(s, part, i)
    ensures Contains(s, part)
  {
  }

  /** A substring of a substring is a substring. */
  lemma ContainsTransitive(s: string, middle: string, part: string)
    requires Contains(s, middle) && Contains(middle, part)
    ensures Contains(s, part)
  {
    var i :| 0 <= i <= |s| && OccursAt(s, middle, i);
    var j :| 0 <= j <= |middle| && OccursAt(middle, part, j);
    SliceOfSlice(s, i, i + |middle|, j, j + |part|);
    assert OccursAt(s, part, i + j);
  }

  lemma SliceOfSlice(s: string, a: int, b: int, c: int, d: int)
    requires 0 <= a <= b <= |s| && 0 <= c <= d <= b - a
    ensures s[a..b][c..d] == s[a + c..a + d]
  {
    forall k | 0 <= k < d - c
      ensures s[a..b][c..d][k] == s[a + c..a + d][k]
    {
    }
  }

  lemma NothingInEmpty(part: string)
    requires part != []
    ensures !Contains([], part)
  {
  }

  /** ASCII upper case to lower case; every other character is kept. */
  function LowerChar(c: char): char {
    if 'A' <= c <= 'Z' then (c as int + 32) as char else c
  }

  predicate IsLower(s: string) {
    forall i :: 0 <= i < |s| ==> !('A' <= s[i] <= 'Z')
  }

  /** `s.lower()` restricted to the ASCII letters. */
  function Lower(s: string): (r: string)
    ensures |r| == |s| && IsLower(r)
  {
    seq(|s|, i requires 0 <= i < |s| => LowerChar(s[i]))
  }

  lemma LowerOfLower(s: string)
    ensures IsLower(s) ==> Lower(s) == s
    ensures Lower(Lower(s)) == Lower(s)
  {
  }

  /** `s.lstrip()`: drops the leading whitespace. */
  function TrimStart(s: string): (r: string)
    ensures |r| <= |s| && r == s[|s| - |r|..]
    ensures AllSpace(s[..|s| - |r|])
    ensures r != [] ==> !IsSpace(r[0])
  {
    if s != [] && IsSpace(s[0]) then TrimStart(s[1..]) else s
  }

  /** `s.rstrip()`: drops the trailing whitespace. */
  function TrimEnd(s: string): (r: string)
    ensures |r| <= |s| && r == s[..|r|]
    ensures AllSpace(s[|r|..])
    ensures r != [] ==> !IsSpace(r[|r| - 1])
  {
    if s != [] && IsSpace(s[|s| - 1]) then
      var r := TrimEnd(s[..|s| - 1]);
      assert s[|r|..] == s[..|s| - 1][|r|..] + [s[|s| - 1]];
      r
    else s
  }

  /** `s.strip()`. */
  function Strip(s: string): (r: string)
    ensures |r| <= |s|
    ensures r == [] <==> AllSpace(s)
    ensures r != [] ==> !IsSpace(r[0]) && !IsSpace(r[|r| - 1])
  {
    TrimEnd(TrimStart(s))
  }

  /** Trailing whitespace is trimmed only from the part after a
      non-space character. */
  lemma {:induction false} TrimEndAfterWord(u: string, rest: string)
    requires u == [] || !IsSpace(u[|u| - 1])
    ensures TrimEnd(u + rest) == u + TrimEnd(rest)
    decreases |rest|
  {
    if rest == [] {
      assert u + rest == u;
    } else if IsSpace(rest[|rest| - 1]) {
      assert (u + rest)[..|u + rest| - 1] == u + rest[..|rest| - 1];
      TrimEndAfterWord(u, rest[..|rest| - 1]);
    } else {
      assert (u + rest)[|u + rest| - 1] == rest[|rest| - 1];
    }
  }

  /** `s.strip()` is a contiguous piece of `s`. */
  lemma StripIsInfix(s: string)
    ensures Contains(s, Strip(s))
  {
    var t := TrimStart(s);
    var a := |s| - |t|;
    SliceOfSlice(s, a, |s|, 0, |Strip(s)|);
    assert OccursAt(s, Strip(s), a);
  }

  /** The longest prefix of `s` without whitespace. */
  function TakeWord(s: string): (r: string)
    ensures |r| <= |s| && r == s[..|r|]
    ensures forall i :: 0 <= i < |r| ==> !IsSpace(r[i])
    ensures |r| == |s| || IsSpace(s[|r|])
  {
    if s == [] || IsSpace(s[0]) then [] else [s[0]] + TakeWord(s[1..])
  }

  /** `tok` is the first whitespace-separated token of `s`, found at `k`. */
  predicate TokenAt(s: string, tok: string, k: int) {
    0 <= k && k + |tok| <= |s| && tok != [] &&
    AllSpace(s[..k]) && s[k..k + |tok|] == tok &&
    (forall i :: 0 <= i < |tok| ==> !IsSpace(tok[i])) &&
    (k + |tok| == |s| || IsSpace(s[k + |tok|]))
  }

  /** `s.split()[0]`, or None where Python raises IndexError because
      `s` holds no token at all. */
  function FirstToken(s: string): (r: Option<string>)
    ensures r.None? <==> AllSpace(s)
    ensures r.Some? ==> exists k :: TokenAt(s, r.value, k)
  {
    var t := TrimStart(s);
    if t == [] then None
    else
      var w := TakeWord(t);
      assert TokenAt(s, w, |s| - |t|) by {
        assert s[|s| - |t|..][..|w|] == s[|s| - |t|..|s| - |t| + |w|];
      }
      Some(w)
  }

  /** A token that is followed by whitespace or by nothing is the first
      token of what it starts. */
  lemma {:induction false} FirstTokenOfWord(tok: string, rest: string)
    requires tok != [] && forall i :: 0 <= i < |tok| ==> !IsSpace(tok[i])
    requires rest == [] || IsSpace(rest[0])
    ensures FirstToken(tok + rest) == Some(tok)
  {
    var s := tok + rest;
    assert TrimStart(s) == s;
    TakeWordOfWord(tok, rest);
  }

  lemma {:induction false} TakeWordOfWord(tok: string, rest: string)
    requires forall i :: 0 <= i < |tok| ==> !IsSpace(tok[i])
    requires rest == [] || IsSpace(rest[0])
    ensures TakeWord(tok + rest) == tok
  {
    if tok != [] {
      assert (tok + rest)[1..] == tok[1..] + rest;
      TakeWordOfWord(tok[1..], rest);
    }
  }

  /** `s.replace(c, "")` for a single character `c`: every occurrence of
      `c` is deleted and the other characters keep their multiplicity. */
  function RemoveChar(s: string, c: char): (r: string)
    ensures c !in r
    ensures forall d :: d != c ==> multiset(r)[d] == multiset(s)[d]
  {
    if s == [] then []
    else
      assert s == [s[0]] + s[1..];
      (if s[0] == c then [] else [s[0]]) + RemoveChar(s[1..], c)
  }

  lemma {:induction false} RemoveCharAbsent(s: string, c: char)
    requires c !in s
    ensures RemoveChar(s, c) == s
  {
    if s != [] {
      RemoveCharAbsent(s[1..], c);
    }
  }

  lemma {:induction false} RemoveCharConcat(a: string, b: string, c: char)
    ensures RemoveChar(a + b, c) == RemoveChar(a, c) + RemoveChar(b, c)
  {
    if a != [] {
      assert (a + b)[1..] == a[1..] + b;
      RemoveCharConcat(a[1..], b, c);
      var head := if a[0] == c then [] else [a[0]];
      assert RemoveChar(a + b, c) == head + RemoveChar(a[1..] + b, c);
    } else {
      assert a + b == b;
    }
  }

  /** Deleting `c` from a text of whitespace and `c` leaves whitespace. */
  lemma {:induction false} RemoveCharLeavesSpace(s: string, c: char)
    requires forall i :: 0 <= i < |s| ==> IsSpace(s[i]) || s[i] == c
    ensures AllSpace(RemoveChar(s, c))
  {
    if s != [] {
      RemoveCharLeavesSpace(s[1..], c);
    }
  }

  /** `s.replace(part, "")`: deletes every occurrence of `part`, scanning
      left to right without overlaps, as Python does. */
  function RemoveAll(s: string, part: string): (r: string)
    requires part != []
    ensures |r| <= |s|
    decreases |s|
  {
    if |s| < |part| then s
    else if s[..|part|] == part then RemoveAll(s[|part|..], part)
    else [s[0]] + RemoveAll(s[1..], part)
  }

  /** Where `part` does not occur nothing is removed. */
  lemma {:induction false} RemoveAllAbsent(s: string, part: string)
    requires part != [] && !Contains(s, part)
    ensures RemoveAll(s, part) == s
    decreases |s|
  {
    if |s| >= |part| {
      assert !OccursAt(s, part, 0);
      assert !Contains(s[1..], part) by {
        if Contains(s[1..], part) {
          var i :| 0 <= i <= |s| - 1 && OccursAt(s[1..], part, i);
          SliceOfSlice(s, 1, |s|, i, i + |part|);
          assert OccursAt(s, part, i + 1);
        }
      }
      RemoveAllAbsent(s[1..], part);
    }
  }

  /** The scan goes left to right: text before the first "www." is kept,
      that occurrence is dropped, and the scan resumes right after it. */
  lemma {:induction false} RemoveAllFirstWww(a: string, b: string)
    requires !Contains(a, "www.")
    ensures RemoveAll(a + "www." + b, "www.") == a + RemoveAll(b, "www.")
    decreases |a|
  {
    var s := a + "www." + b;
    if a == [] {
      assert s == "www." + b;
      assert s[..4] == "www." && s[4..] == b;
    } else {
      assert s[..4] != "www." by {
        if |a| >= 4 {
          assert s[..4] == a[..4];
          assert !OccursAt(a, "www.", 0);
        } else {
          assert s[3] == 'w';
        }
      }
      assert s[1..] == a[1..] + "www." + b;
      assert !Contains(a[1..], "www.") by {
        if Contains(a[1..], "www.") {
          var i :| 0 <= i <= |a| - 1 && OccursAt(a[1..], "www.", i);
          SliceOfSlice(a, 1, |a|, i, i + 4);
          assert OccursAt(a, "www.", i + 1);
        }
      }
      RemoveAllFirstWww(a[1..], b);
      assert a == [a[0]] + a[1..];
    }
  }

  datatype Option<+T> = None | Some(value: T)
}
