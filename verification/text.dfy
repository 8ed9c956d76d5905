/**
 String primitives that the action's regular expressions and string
 methods are built from: JavaScript whitespace, `trim()`, index search,
 occurrence counting, `String.prototype.split` on a one-character
 separator, literal and ASCII-case-insensitive substring search.
 */
module Text {

  /** JavaScript's `\s` and the set `trim()` removes: the ECMAScript
      WhiteSpace and LineTerminator code points. */
  predicate IsWhitespace(c: char)
  {
    c == '\t' || c == '\n' || c == '\U{B}' || c == '\U{C}' || c == '\r' || c == ' '
    || c == '\U{A0}' || c == '\U{1680}' || ('\U{2000}' <= c <= '\U{200A}')
    || c == '\U{2028}' || c == '\U{2029}' || c == '\U{202F}' || c == '\U{205F}'
    || c == '\U{3000}' || c == '\U{FEFF}'
  }

  predicate AllWhitespace(s: string)
  {
    forall i :: 0 <= i < |s| ==> IsWhitespace(s[i])
  }

  /** Removes the leading whitespace. */
  function TrimStart(s: string): string
  {
    if |s| > 0 && IsWhitespace(s[0]) then TrimStart(s[1..]) else s
  }

  /** Removes the trailing whitespace. */
  function TrimEnd(s: string): string
  {
    if |s| > 0 && IsWhitespace(s[|s| - 1]) then TrimEnd(s[..|s| - 1]) else s
  }

  /** `TrimStart` keeps the longest suffix that does not start with
      whitespace: what it drops is all whitespace. */
  lemma {:induction false} TrimStartShape(s: string)
    ensures |TrimStart(s)| <= |s|
    ensures s == s[..|s| - |TrimStart(s)|] + TrimStart(s)
    ensures AllWhitespace(s[..|s| - |TrimStart(s)|])
    ensures TrimStart(s) == [] || !IsWhitespace(TrimStart(s)[0])
  {
    if |s| > 0 && IsWhitespace(s[0]) {
      TrimStartShape(s[1..]);
      var r := TrimStart(s[1..]);
      assert s[..|s| - |r|] == [s[0]] + s[1..][..|s| - 1 - |r|];
    }
  }

  /** `TrimEnd` keeps the longest prefix that does not end with
      whitespace: what it drops is all whitespace. */
  lemma {:induction false} TrimEndShape(s: string)
    ensures |TrimEnd(s)| <= |s|
    ensures s == TrimEnd(s) + s[|TrimEnd(s)|..]
    ensures AllWhitespace(s[|TrimEnd(s)|..])
    ensures TrimEnd(s) == [] || !IsWhitespace(TrimEnd(s)[|TrimEnd(s)| - 1])
  {
    if |s| > 0 && IsWhitespace(s[|s| - 1]) {
      var init := s[..|s| - 1];
      TrimEndShape(init);
      var r := TrimEnd(init);
      assert TrimEnd(s) == r;
      assert s == init + [s[|s| - 1]];
      assert init == r + init[|r|..];
      assert s[|r|..] == init[|r|..] + [s[|s| - 1]];
      forall i | 0 <= i < |s[|r|..]|
        ensures IsWhitespace(s[|r|..][i])
      {
        if i < |init[|r|..]| {
          assert s[|r|..][i] == init[|r|..][i];
        }
      }
    }
  }

  /** Neither end of `s` is whitespace. */
  predicate IsTrimmed(s: string)
  {
    s == [] || (!IsWhitespace(s[0]) && !IsWhitespace(s[|s| - 1]))
  }

  /** `String.prototype.trim`. */
  function Trim(s: string): (r: string)
    ensures IsTrimmed(r)
  {
    TrimStartShape(s);
    TrimEndShape(TrimStart(s));
    var r := TrimEnd(TrimStart(s));
    assert r != [] ==> r[0] == TrimStart(s)[0];
    r
  }

  /** `trim()` keeps a slice of its input and drops only whitespace
      before and after it. With `IsTrimmed`, this pins the result down. */
  lemma TrimDropsOnlyEndWhitespace(s: string)
    ensures exists a, b :: 0 <= a <= b <= |s| && Trim(s) == s[a..b] && AllWhitespace(s[..a]) && AllWhitespace(s[b..])
  {
    TrimStartShape(s);
    var u := TrimStart(s);
    TrimEndShape(u);
    var r := TrimEnd(u);
    var a := |s| - |u|;
    var b := a + |r|;
    assert s[a..] == u;
    assert s[a..b] == r;
    assert s[b..] == u[|r|..];
  }

  /** Whitespace in front of a string makes no difference to `TrimStart`. */
  lemma {:induction false} TrimStartSkipsWhitespace(w: string, v: string)
    requires AllWhitespace(w)
    ensures TrimStart(w + v) == TrimStart(v)
  {
    if w != [] {
      var wv := w + v;
      assert IsWhitespace(w[0]);
      assert wv[0] == w[0];
      assert wv[1..] == w[1..] + v;
      assert AllWhitespace(w[1..]) by {
        forall i | 0 <= i < |w| - 1 ensures IsWhitespace(w[1..][i]) {
          assert w[1..][i] == w[i + 1];
        }
      }
      assert TrimStart(wv) == TrimStart(wv[1..]);
      TrimStartSkipsWhitespace(w[1..], v);
    } else {
      assert w + v == v;
    }
  }

  /** Position of the first `c` in `s`, or `|s|` when there is none. */
  function IndexOf(s: string, c: char): (i: nat)
    ensures i <= |s|
    ensures forall j :: 0 <= j < i ==> s[j] != c
    ensures i < |s| ==> s[i] == c
  {
    if s == [] then 0 else if s[0] == c then 0 else 1 + IndexOf(s[1..], c)
  }

  /** The three properties of `IndexOf` determine it. */
  lemma IndexOfUnique(s: string, c: char, i: nat)
    requires i <= |s|
    requires forall j :: 0 <= j < i ==> s[j] != c
    requires i < |s| ==> s[i] == c
    ensures IndexOf(s, c) == i
  {
  }

  /** Leading whitespace shifts the first occurrence of a
      non-whitespace character. */
  lemma {:induction false} IndexOfAfterWhitespace(w: string, u: string, c: char)
    requires AllWhitespace(w) && !IsWhitespace(c)
    ensures IndexOf(w + u, c) == |w| + IndexOf(u, c)
  {
    if w != [] {
      assert (w + u)[0] == w[0];
      assert (w + u)[1..] == w[1..] + u;
      assert AllWhitespace(w[1..]) by {
        forall i | 0 <= i < |w| - 1 ensures IsWhitespace(w[1..][i]) {
          assert w[1..][i] == w[i + 1];
        }
      }
      IndexOfAfterWhitespace(w[1..], u, c);
    } else {
      assert w + u == u;
    }
  }

  /** The number of occurrences of `c` in `s`. */
  function CountOf(s: string, c: char): nat
  {
    if s == [] then 0 else (if s[0] == c then 1 else 0) + CountOf(s[1..], c)
  }

  lemma {:induction false} CountOfConcat(a: string, b: string, c: char)
    ensures CountOf(a + b, c) == CountOf(a, c) + CountOf(b, c)
  {
    if a == [] {
      assert a + b == b;
    } else {
      assert (a + b)[0] == a[0];
      assert (a + b)[1..] == a[1..] + b;
      CountOfConcat(a[1..], b, c);
    }
  }

  lemma {:induction false} CountOfAbsent(s: string, c: char)
    requires forall k :: 0 <= k < |s| ==> s[k] != c
    ensures CountOf(s, c) == 0
  {
    if s != [] {
      assert forall k :: 0 <= k < |s| - 1 ==> s[1..][k] == s[k + 1];
      CountOfAbsent(s[1..], c);
    }
  }

  /** Counting on both sides of an occurrence of `c` at `i`. */
  lemma CountOfAround(s: string, c: char, i: nat)
    requires i < |s| && s[i] == c
    ensures CountOf(s, c) == CountOf(s[..i], c) + 1 + CountOf(s[i + 1..], c)
  {
    assert s == s[..i] + ([c] + s[i + 1..]);
    CountOfConcat(s[..i], [c] + s[i + 1..], c);
    assert ([c] + s[i + 1..])[1..] == s[i + 1..];
  }

  /** Leading whitespace holds no non-whitespace character. */
  lemma CountOfTrimStart(s: string, c: char)
    requires !IsWhitespace(c)
    ensures CountOf(TrimStart(s), c) == CountOf(s, c)
  {
    TrimStartShape(s);
    var next := TrimStart(s);
    var w := s[..|s| - |next|];
    CountOfAbsent(w, c);
    CountOfConcat(w, next, c);
  }

  /** `s.split(c)` for a one-character separator: the pieces between
      consecutive occurrences of `c`. */
  function Split(s: string, c: char): (r: seq<string>)
    ensures |r| == CountOf(s, c) + 1
    ensures forall k :: 0 <= k < |r| ==> c !in r[k]
    decreases |s|
  {
    var i := IndexOf(s, c);
    if i == |s| then
      CountOfAbsent(s, c);
      [s]
    else
      CountOfAround(s, c, i);
      CountOfAbsent(s[..i], c);
      [s[..i]] + Split(s[i + 1..], c)
  }

  /** One step of `Split`, at the first occurrence `i` of `c`. */
  lemma SplitAtFirst(s: string, c: char, i: nat)
    requires i < |s| && IndexOf(s, c) == i
    ensures Split(s, c) == [s[..i]] + Split(s[i + 1..], c)
  {
  }

  /** `Split` of a string without `c`. */
  lemma SplitWithout(s: string, c: char)
    requires IndexOf(s, c) == |s|
    ensures Split(s, c) == [s]
  {
  }

  /** `parts.join(c)`. */
  function Join(parts: seq<string>, c: char): string
  {
    if |parts| == 0 then []
    else if |parts| == 1 then parts[0]
    else parts[0] + [c] + Join(parts[1..], c)
  }

  /** Joining the pieces of a split gives back the string. */
  lemma {:induction false} JoinSplit(s: string, c: char)
    ensures Join(Split(s, c), c) == s
    decreases |s|
  {
    var i := IndexOf(s, c);
    if i < |s| {
      JoinSplit(s[i + 1..], c);
      assert s == s[..i] + [c] + s[i + 1..];
    }
  }

  /** Splitting a join of separator-free pieces gives back the pieces. */
  lemma {:induction false} SplitJoin(parts: seq<string>, c: char)
    requires |parts| > 0
    requires forall k :: 0 <= k < |parts| ==> c !in parts[k]
    ensures Split(Join(parts, c), c) == parts
  {
    var p0 := parts[0];
    assert c !in p0;
    if |parts| == 1 {
      IndexOfUnique(p0, c, |p0|);
    } else {
      var tail := Join(parts[1..], c);
      var s := p0 + [c] + tail;
      assert Join(parts, c) == s;
      IndexOfUnique(s, c, |p0|);
      assert s[..|p0|] == p0;
      assert s[|p0| + 1..] == tail;
      SplitJoin(parts[1..], c);
      assert Split(s, c) == [p0] + Split(tail, c);
    }
  }

  predicate StartsWith(s: string, prefix: string)
  {
    |prefix| <= |s| && s[..|prefix|] == prefix
  }

  /** A literal occurrence of `p` somewhere in `s` (a regex without
      special characters, matched with `RegExp.prototype.test`). */
  predicate Contains(s: string, p: string)
  {
    exists i | 0 <= i <= |s| - |p| :: OccursAt(s, p, i)
  }

  predicate OccursAt(s: string, p: string, i: int)
  {
    0 <= i <= |s| - |p| && s[i..i + |p|] == p
  }

  /** ASCII lower-casing of one character; every other character is
      its own case-folded form. */
  function FoldCase(c: char): char
  {
    if 'A' <= c <= 'Z' then (c as int + 32) as char else c
  }

  /** `c.toUpperCase()` restricted to ASCII letters. */
  function UpperAscii(c: char): char
  {
    if 'a' <= c <= 'z' then (c as int - 32) as char else c
  }

  /** `s.toUpperCase()` on ASCII text: the same text as the `/i` flag
      sees it, with no lower-case letter left. */
  function ToUpperAscii(s: string): (r: string)
    ensures EqualsIgnoringCase(r, s)
    ensures forall k :: 0 <= k < |r| ==> !('a' <= r[k] <= 'z')
  {
    seq(|s|, k requires 0 <= k < |s| => UpperAscii(s[k]))
  }

  predicate EqualsIgnoringCase(a: string, b: string)
  {
    |a| == |b| && forall k :: 0 <= k < |a| ==> FoldCase(a[k]) == FoldCase(b[k])
  }

  /** An occurrence of `p` in `s` under the `/i` flag. */
  predicate ContainsIgnoringCase(s: string, p: string)
  {
    exists i | 0 <= i <= |s| - |p| :: OccursIgnoringCaseAt(s, p, i)
  }

  predicate OccursIgnoringCaseAt(s: string, p: string, i: int)
  {
    0 <= i <= |s| - |p| && EqualsIgnoringCase(s[i..i + |p|], p)
  }

  /** Text around an occurrence never hides it. */
  lemma ContainsIgnoringCaseInContext(before: string, s: string, after: string, p: string)
    requires ContainsIgnoringCase(s, p)
    ensures ContainsIgnoringCase(before + s + after, p)
  {
    var i :| 0 <= i <= |s| - |p| && OccursIgnoringCaseAt(s, p, i);
    var t := before + s + after;
    assert t[|before| + i..|before| + i + |p|] == s[i..i + |p|];
    assert OccursIgnoringCaseAt(t, p, |before| + i);
  }

  /** A literal occurrence in the middle of a string. */
  lemma ContainsInContext(before: string, p: string, after: string)
    ensures Contains(before + p + after, p)
  {
    var t := before + p + after;
    assert t[|before|..|before| + |p|] == p;
    assert OccursAt(t, p, |before|);
  }
}
