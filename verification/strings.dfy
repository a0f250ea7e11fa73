/** The Python `str` operations the program relies on, stated over
    `seq<char>`: substring containment (`sub in s`), `replace(pat, "")`,
    `split(' ')`, `split()`, `strip()`, `rstrip(c)` and ASCII `lower()`. */
module Strings {

  /** `p` is a prefix of `s` (Python `s.startswith(p)`). */
  predicate IsPrefix(p: string, s: string) {
    |p| <= |s| && s[..|p|] == p
  }

  /** `sub` occurs in `s` starting at index `i`. */
  predicate OccursAt(s: string, sub: string, i: int) {
    0 <= i && i + |sub| <= |s| && s[i..i + |sub|] == sub
  }

  /** Python `sub in s`: the empty string is in every string. */
  predicate Contains(s: string, sub: string)
    decreases |s|
  {
    IsPrefix(sub, s) || (|s| > 0 && Contains(s[1..], sub))
  }

  /** Every occurrence is found by the left-to-right scan. */
  lemma {:induction false} OccursAtContains(s: string, sub: string, i: int)
    requires OccursAt(s, sub, i)
    ensures Contains(s, sub)
    decreases i
  {
    if i == 0 {
      assert s[..|sub|] == s[0..|sub|];
    } else {
      assert s[1..][i - 1..i - 1 + |sub|] == s[i..i + |sub|];
      OccursAtContains(s[1..], sub, i - 1);
    }
  }

  /** What the scan finds is an occurrence. */
  lemma {:induction false} ContainsOccurs(s: string, sub: string) returns (i: nat)
    requires Contains(s, sub)
    ensures OccursAt(s, sub, i)
    decreases |s|
  {
    if IsPrefix(sub, s) {
      i := 0;
    } else {
      var j := ContainsOccurs(s[1..], sub);
      assert s[1..][j..j + |sub|] == s[j + 1..j + 1 + |sub|];
      i := j + 1;
    }
  }

  /** Containment is exactly the existence of an occurrence. */
  lemma ContainsIff(s: string, sub: string)
    ensures Contains(s, sub) <==> exists i :: OccursAt(s, sub, i)
  {
    if Contains(s, sub) {
      var i := ContainsOccurs(s, sub);
    }
    if exists i :: OccursAt(s, sub, i) {
      var i :| OccursAt(s, sub, i);
      OccursAtContains(s, sub, i);
    }
  }

  /** A one-character needle is found exactly when the character occurs. */
  lemma ContainsChar(s: string, c: char)
    ensures Contains(s, [c]) <==> c in s
  {
    if Contains(s, [c]) {
      var i := ContainsOccurs(s, [c]);
      assert s[i] == s[i..i + 1][0];
    }
    if c in s {
      var i :| 0 <= i < |s| && s[i] == c;
      assert s[i..i + 1] == [c];
      OccursAtContains(s, [c], i);
    }
  }

  /** Whoever contains `a + b` contains both `a` and `b`. */
  lemma ContainsParts(s: string, a: string, b: string)
    requires Contains(s, a + b)
    ensures Contains(s, a) && Contains(s, b)
  {
    var i := ContainsOccurs(s, a + b);
    assert s[i..i + |a|] == (a + b)[..|a|];
    assert s[i + |a|..i + |a| + |b|] == (a + b)[|a|..];
    OccursAtContains(s, a, i);
    OccursAtContains(s, b, i + |a|);
  }

  /** Both halves of a concatenation are contained in it. */
  lemma ContainsHalves(x: string, y: string)
    ensures Contains(x + y, x) && Contains(x + y, y)
  {
    assert (x + y)[0..|x|] == x;
    assert (x + y)[|x|..|x| + |y|] == y;
    OccursAtContains(x + y, x, 0);
    OccursAtContains(x + y, y, |x|);
  }

  /** Containment is transitive. */
  lemma ContainsTrans(s: string, mid: string, sub: string)
    requires Contains(s, mid) && Contains(mid, sub)
    ensures Contains(s, sub)
  {
    var i := ContainsOccurs(s, mid);
    var j := ContainsOccurs(mid, sub);
    assert s[i..i + |mid|] == mid;
    var w := s[i + j..i + j + |sub|];
    var v := mid[j..j + |sub|];
    forall k | 0 <= k < |sub|
      ensures w[k] == v[k]
    {
      assert s[i + j + k] == s[i..i + |mid|][j + k];
    }
    assert w == v;
    OccursAtContains(s, sub, i + j);
  }

  /** Python `s.replace(pat, "")`: deletes the occurrences of `pat` found by a
      left-to-right, non-overlapping scan. Characters outside `pat` are never
      deleted; an empty `pat` leaves `s` as it is. */
  function RemoveAll(s: string, pat: string): (r: string)
    ensures |r| <= |s|
    decreases |s|
  {
    if |pat| == 0 || |s| == 0 then s
    else if IsPrefix(pat, s) then RemoveAll(s[|pat|..], pat)
    else [s[0]] + RemoveAll(s[1..], pat)
  }

  /** Deleting occurrences of `pat` only drops characters, and keeps every
      character outside `pat` as often as it was. */
  lemma {:induction false} RemoveAllCounts(s: string, pat: string)
    ensures multiset(RemoveAll(s, pat)) <= multiset(s)
    ensures forall c :: c !in pat ==> multiset(RemoveAll(s, pat))[c] == multiset(s)[c]
    decreases |s|
  {
    if |pat| > 0 && |s| > 0 {
      if IsPrefix(pat, s) {
        assert s == pat + s[|pat|..];
        RemoveAllCounts(s[|pat|..], pat);
      } else {
        assert s == [s[0]] + s[1..];
        RemoveAllCounts(s[1..], pat);
      }
    }
  }

  /** Removing a one-character pattern removes every copy of it. */
  lemma {:induction false} RemoveCharGone(s: string, c: char)
    ensures c !in RemoveAll(s, [c])
    decreases |s|
  {
    if |s| != 0 {
      RemoveCharGone(s[1..], c);
      if !IsPrefix([c], s) {
        assert s[0] != c by { assert s[..1] == [s[0]]; }
      }
    }
  }

  /** One step of deleting a single character. */
  lemma RemoveCharStep(s: string, c: char)
    requires |s| > 0
    ensures RemoveAll(s, [c]) == (if s[0] == c then [] else [s[0]]) + RemoveAll(s[1..], [c])
  {
    assert IsPrefix([c], s) <==> s[0] == c by {
      assert s[..1] == [s[0]];
    }
  }

  /** Deleting a single character distributes over concatenation. */
  lemma {:induction false} RemoveCharConcat(a: string, b: string, c: char)
    ensures RemoveAll(a + b, [c]) == RemoveAll(a, [c]) + RemoveAll(b, [c])
    decreases |a|
  {
    if |a| > 0 {
      var s := a + b;
      assert s[1..] == a[1..] + b;
      RemoveCharStep(s, c);
      RemoveCharStep(a, c);
      RemoveCharConcat(a[1..], b, c);
    } else {
      assert a + b == b;
    }
  }

  /** No character of `w` belongs to `pat`. */
  predicate Disjoint(w: string, pat: string) {
    forall k :: 0 <= k < |w| ==> w[k] !in pat
  }

  /** A prefix made of characters outside `pat` stays a prefix. */
  lemma {:induction false} PrefixSurvives(q: string, s: string, pat: string)
    requires IsPrefix(q, s) && Disjoint(q, pat)
    ensures IsPrefix(q, RemoveAll(s, pat))
    decreases |q|
  {
    if |q| > 0 && |pat| > 0 {
      assert s[0] == q[0];
      assert s[0] !in pat;
      assert pat[0] in pat;
      assert !IsPrefix(pat, s);
      assert IsPrefix(q[1..], s[1..]) by {
        assert s[1..][..|q| - 1] == s[..|q|][1..];
      }
      PrefixSurvives(q[1..], s[1..], pat);
      assert q == [q[0]] + q[1..];
    }
  }

  /** Deleting `pat` never destroys an occurrence of a needle made of
      characters outside `pat`. */
  lemma {:induction false} RemoveAllKeeps(s: string, pat: string, sub: string)
    requires Contains(s, sub) && Disjoint(sub, pat)
    ensures Contains(RemoveAll(s, pat), sub)
    decreases |s|
  {
    var i := ContainsOccurs(s, sub);
    if |pat| == 0 || |s| == 0 || |sub| == 0 {
      if |sub| == 0 {
        assert IsPrefix(sub, RemoveAll(s, pat));
      }
    } else if i == 0 {
      assert IsPrefix(sub, s) by { assert s[..|sub|] == s[0..|sub|]; }
      PrefixSurvives(sub, s, pat);
    } else if IsPrefix(pat, s) {
      assert s[i] !in pat by { assert s[i] == sub[0]; }
      assert forall k :: 0 <= k < |pat| ==> s[k] == pat[k] by {
        assert s[..|pat|] == pat;
      }
      assert i >= |pat|;
      var s' := s[|pat|..];
      assert s'[i - |pat|..i - |pat| + |sub|] == s[i..i + |sub|];
      OccursAtContains(s', sub, i - |pat|);
      RemoveAllKeeps(s', pat, sub);
    } else {
      assert s[1..][i - 1..i - 1 + |sub|] == s[i..i + |sub|];
      OccursAtContains(s[1..], sub, i - 1);
      RemoveAllKeeps(s[1..], pat, sub);
      var r := RemoveAll(s, pat);
      assert r[1..] == RemoveAll(s[1..], pat);
    }
  }

  /** Python `s.split(sep)` with a one-character separator: the pieces
      between separators, empty pieces included. */
  function SplitOn(s: string, sep: char): (r: seq<string>)
    ensures |r| >= 1
    ensures forall i :: 0 <= i < |r| ==> sep !in r[i]
    decreases |s|
  {
    if |s| == 0 then [""]
    else
      var rest := SplitOn(s[1..], sep);
      if s[0] == sep then [""] + rest
      else [[s[0]] + rest[0]] + rest[1..]
  }

  /** Python `sep.join(ws)`. */
  function Join(ws: seq<string>, sep: string): string
    decreases |ws|
  {
    if |ws| == 0 then ""
    else if |ws| == 1 then ws[0]
    else ws[0] + sep + Join(ws[1..], sep)
  }

  /** Joining the pieces back with the separator gives the original. */
  lemma {:induction false} JoinSplitOn(s: string, sep: char)
    ensures Join(SplitOn(s, sep), [sep]) == s
    decreases |s|
  {
    if |s| > 0 {
      JoinSplitOn(s[1..], sep);
      var rest := SplitOn(s[1..], sep);
      if s[0] == sep {
        assert ([""] + rest)[1..] == rest;
      } else {
        var w := [[s[0]] + rest[0]] + rest[1..];
        assert w[1..] == rest[1..];
      }
    }
  }

  /** A piece without the separator is not split. */
  lemma {:induction false} SplitOnWord(w: string, sep: char)
    requires sep !in w
    ensures SplitOn(w, sep) == [w]
    decreases |w|
  {
    if |w| > 0 {
      SplitOnWord(w[1..], sep);
      assert w == [w[0]] + w[1..];
    }
  }

  /** A separator splits the string into the pieces of its two sides. */
  lemma {:induction false} SplitOnConcat(a: string, b: string, sep: char)
    ensures SplitOn(a + [sep] + b, sep) == SplitOn(a, sep) + SplitOn(b, sep)
    decreases |a|
  {
    var s := a + [sep] + b;
    if |a| == 0 {
      assert s[1..] == b;
    } else {
      assert s[1..] == a[1..] + [sep] + b;
      SplitOnConcat(a[1..], b, sep);
    }
  }

  /** Splitting a separator-joined list of separator-free pieces gives the
      pieces back. */
  lemma {:induction false} SplitOnJoin(ws: seq<string>, sep: char)
    requires |ws| >= 1
    requires forall i :: 0 <= i < |ws| ==> sep !in ws[i]
    ensures SplitOn(Join(ws, [sep]), sep) == ws
    decreases |ws|
  {
    if |ws| == 1 {
      SplitOnWord(ws[0], sep);
    } else {
      SplitOnJoin(ws[1..], sep);
      SplitOnWord(ws[0], sep);
      SplitOnConcat(ws[0], Join(ws[1..], [sep]), sep);
      assert ws == [ws[0]] + ws[1..];
    }
  }

  /** Python `str.isspace()` for one character. */
  predicate IsSpace(c: char) {
    var n := c as int;
    (9 <= n <= 13) || (28 <= n <= 32) || n == 0x85 || n == 0xA0 || n == 0x1680
    || (0x2000 <= n <= 0x200A) || n == 0x2028 || n == 0x2029 || n == 0x202F
    || n == 0x205F || n == 0x3000
  }

  predicate NoSpace(w: string) {
    forall i :: 0 <= i < |w| ==> !IsSpace(w[i])
  }

  /** The length of the run of non-whitespace characters `s` starts with. */
  function TokenLen(s: string): (n: nat)
    ensures n <= |s|
    ensures forall i :: 0 <= i < n ==> !IsSpace(s[i])
    ensures n < |s| ==> IsSpace(s[n])
    decreases |s|
  {
    if |s| == 0 || IsSpace(s[0]) then 0 else 1 + TokenLen(s[1..])
  }

  /** Python `s.split()`: the maximal runs of non-whitespace characters. */
  function SplitWs(s: string): (r: seq<string>)
    ensures forall i :: 0 <= i < |r| ==> |r[i]| > 0 && NoSpace(r[i])
    decreases |s|
  {
    if |s| == 0 then []
    else if IsSpace(s[0]) then SplitWs(s[1..])
    else
      var n := TokenLen(s);
      [s[..n]] + SplitWs(s[n..])
  }

  lemma {:induction false} TokenLenWord(w: string, t: string)
    requires NoSpace(w)
    requires |t| == 0 || IsSpace(t[0])
    ensures TokenLen(w + t) == |w|
    decreases |w|
  {
    if |w| > 0 {
      assert (w + t)[1..] == w[1..] + t;
      TokenLenWord(w[1..], t);
    } else {
      assert w + t == t;
    }
  }

  /** A whitespace-free word followed by a space is the first token. */
  lemma SplitWsWord(w: string, rest: string)
    requires |w| > 0 && NoSpace(w)
    ensures SplitWs(w + " " + rest) == [w] + SplitWs(rest)
    ensures SplitWs(w) == [w]
  {
    var s := w + " " + rest;
    TokenLenWord(w, " " + rest);
    assert s == w + (" " + rest);
    assert s[..|w|] == w;
    assert s[|w|..] == " " + rest;
    assert (" " + rest)[1..] == rest;
    TokenLenWord(w, "");
    assert w + "" == w;
    assert w[|w|..] == "";
  }

  /** Splitting space-joined tokens gives the tokens back. */
  lemma {:induction false} SplitWsJoin(ws: seq<string>)
    requires forall i :: 0 <= i < |ws| ==> |ws[i]| > 0 && NoSpace(ws[i])
    ensures SplitWs(Join(ws, " ")) == ws
    decreases |ws|
  {
    if |ws| == 1 {
      SplitWsWord(ws[0], "");
    } else if |ws| > 1 {
      SplitWsJoin(ws[1..]);
      SplitWsWord(ws[0], Join(ws[1..], " "));
      assert ws == [ws[0]] + ws[1..];
    }
  }

  /** Python `s.lstrip()`. */
  function StripLeft(s: string): (r: string)
    ensures |r| <= |s| && r == s[|s| - |r|..]
    ensures |r| == 0 || !IsSpace(r[0])
    ensures forall i :: 0 <= i < |s| - |r| ==> IsSpace(s[i])
    decreases |s|
  {
    if |s| > 0 && IsSpace(s[0]) then StripLeft(s[1..]) else s
  }

  /** Python `s.rstrip()`. */
  function StripRight(s: string): (r: string)
    ensures |r| <= |s| && r == s[..|r|]
    ensures |r| == 0 || !IsSpace(r[|r| - 1])
    ensures forall i :: |r| <= i < |s| ==> IsSpace(s[i])
    decreases |s|
  {
    if |s| > 0 && IsSpace(s[|s| - 1]) then StripRight(s[..|s| - 1]) else s
  }

  /** Python `s.strip()`. */
  function Strip(s: string): string {
    StripRight(StripLeft(s))
  }

  /** Python `s.rstrip(c)` for one character `c`: drops every trailing `c`. */
  function RStripChar(s: string, c: char): (r: string)
    ensures |r| <= |s| && r == s[..|r|]
    ensures |r| == 0 || r[|r| - 1] != c
    ensures forall i :: |r| <= i < |s| ==> s[i] == c
    decreases |s|
  {
    if |s| > 0 && s[|s| - 1] == c then RStripChar(s[..|s| - 1], c) else s
  }

  function LowerChar(c: char): char {
    if 'A' <= c <= 'Z' then (c as int - 'A' as int + 'a' as int) as char else c
  }

  /** Python `s.lower()` restricted to ASCII letters. */
  function Lower(s: string): (r: string)
    ensures |r| == |s|
    ensures forall i :: 0 <= i < |s| ==> r[i] == LowerChar(s[i])
  {
    seq(|s|, i requires 0 <= i < |s| => LowerChar(s[i]))
  }
}
