/** The JavaScript string operations the core relies on, stated on `seq<char>`:
    `trim`, `startsWith`, `endsWith`, `includes`, `indexOf`, `replace` with a string
    pattern (first occurrence only), `toLowerCase` and `split` on a one-character
    separator. */
module Text {
  import opened Wrappers

  /** The characters removed by `String.prototype.trim` and matched by the regular
      expression class `\s`: the white-space and line-terminator characters of
      ECMAScript (tab, line feed, vertical tab, form feed and carriage return are
      U+0009 to U+000D). */
  predicate IsSpace(c: char) {
    ('\t' <= c <= '\r') || c == ' ' || c == '\U{A0}' || c == '\U{1680}'
    || ('\U{2000}' <= c <= '\U{200A}') || c == '\U{2028}' || c == '\U{2029}'
    || c == '\U{202F}' || c == '\U{205F}' || c == '\U{3000}' || c == '\U{FEFF}'
  }

  /** The regular expression class `\d` (ASCII digits only). */
  predicate IsDigit(c: char) {
    '0' <= c <= '9'
  }

  predicate AllSpace(s: string) {
    forall i :: 0 <= i < |s| ==> IsSpace(s[i])
  }

  /** `s` without its leading white space. */
  function TrimStart(s: string): string
    decreases |s|
  {
    if |s| > 0 && IsSpace(s[0]) then TrimStart(s[1..]) else s
  }

  /** `s` without its trailing white space. */
  function TrimEnd(s: string): string
    decreases |s|
  {
    if |s| > 0 && IsSpace(s[|s| - 1]) then TrimEnd(s[..|s| - 1]) else s
  }

  /** `s.trim()`: white space removed from both ends. */
  function Trim(s: string): string {
    TrimEnd(TrimStart(s))
  }

  /** `TrimStart` drops a white-space prefix, all of it, and nothing else. */
  lemma {:induction false} TrimStartSplits(s: string) returns (pre: string)
    ensures s == pre + TrimStart(s) && AllSpace(pre)
    ensures TrimStart(s) == [] || !IsSpace(TrimStart(s)[0])
    decreases |s|
  {
    if |s| > 0 && IsSpace(s[0]) {
      var p := TrimStartSplits(s[1..]);
      pre := [s[0]] + p;
      assert s == [s[0]] + s[1..];
      assert pre + TrimStart(s) == [s[0]] + (p + TrimStart(s[1..]));
      forall i | 0 <= i < |pre| ensures IsSpace(pre[i]) {
        if i > 0 {
          assert pre[i] == p[i - 1];
        }
      }
    } else {
      pre := [];
      assert pre + TrimStart(s) == s;
    }
  }

  /** `TrimEnd` drops a white-space suffix, all of it, and nothing else. */
  lemma {:induction false} TrimEndSplits(s: string) returns (post: string)
    ensures s == TrimEnd(s) + post && AllSpace(post)
    ensures TrimEnd(s) == [] || !IsSpace(TrimEnd(s)[|TrimEnd(s)| - 1])
    decreases |s|
  {
    if |s| > 0 && IsSpace(s[|s| - 1]) {
      var q := TrimEndSplits(s[..|s| - 1]);
      post := q + [s[|s| - 1]];
      assert s == s[..|s| - 1] + [s[|s| - 1]];
      assert TrimEnd(s) + post == (TrimEnd(s[..|s| - 1]) + q) + [s[|s| - 1]];
      forall i | 0 <= i < |post| ensures IsSpace(post[i]) {
        if i < |q| {
          assert post[i] == q[i];
        }
      }
    } else {
      post := [];
      assert TrimEnd(s) + post == s;
    }
  }

  /** Trimming drops only white space, and only at the two ends: the text is the
      trimmed text between two white-space runs, and the trimmed text neither starts
      nor ends with white space. */
  lemma TrimSplits(s: string) returns (pre: string, post: string)
    ensures s == pre + Trim(s) + post
    ensures AllSpace(pre) && AllSpace(post)
    ensures Trim(s) == [] || (!IsSpace(Trim(s)[0]) && !IsSpace(Trim(s)[|Trim(s)| - 1]))
  {
    pre := TrimStartSplits(s);
    var u := TrimStart(s);
    post := TrimEndSplits(u);
    var t := Trim(s);
    assert u == t + post;
    if t != [] {
      assert t[0] == u[0];
    }
    assert pre + (t + post) == pre + t + post;
  }

  /** The result is empty exactly for an all-white-space text. */
  lemma TrimShape(s: string)
    ensures Trim(s) == [] <==> AllSpace(s)
    ensures Trim(s) != [] ==> !IsSpace(Trim(s)[0]) && !IsSpace(Trim(s)[|Trim(s)| - 1])
  {
    var pre, post := TrimSplits(s);
    var t := Trim(s);
    if t == [] {
      assert s == pre + post;
      forall i | 0 <= i < |s| ensures IsSpace(s[i]) {
        if i >= |pre| {
          assert s[i] == post[i - |pre|];
        }
      }
    } else {
      assert s[|pre|] == t[0];
    }
  }

  /** A white-space prefix is dropped by `TrimStart`. */
  lemma {:induction false} TrimStartPadded(pre: string, rest: string)
    requires AllSpace(pre)
    requires rest == [] || !IsSpace(rest[0])
    ensures TrimStart(pre + rest) == rest
    decreases |pre|
  {
    if pre != [] {
      assert (pre + rest)[1..] == pre[1..] + rest;
      assert (pre + rest)[0] == pre[0];
      TrimStartPadded(pre[1..], rest);
    } else {
      assert pre + rest == rest;
    }
  }

  /** A white-space suffix is dropped by `TrimEnd`. */
  lemma {:induction false} TrimEndPadded(rest: string, post: string)
    requires AllSpace(post)
    requires rest == [] || !IsSpace(rest[|rest| - 1])
    ensures TrimEnd(rest + post) == rest
    decreases |post|
  {
    if post != [] {
      var s := rest + post;
      assert s[..|s| - 1] == rest + post[..|post| - 1];
      assert s[|s| - 1] == post[|post| - 1];
      TrimEndPadded(rest, post[..|post| - 1]);
    } else {
      assert rest + post == rest;
    }
  }

  /** Trimming removes exactly the white-space padding around a trimmed text. */
  lemma TrimPadded(pre: string, x: string, post: string)
    requires AllSpace(pre) && AllSpace(post)
    requires x != [] && !IsSpace(x[0]) && !IsSpace(x[|x| - 1])
    ensures Trim(pre + x + post) == x
  {
    assert pre + x + post == pre + (x + post);
    assert (x + post)[0] == x[0];
    TrimStartPadded(pre, x + post);
    TrimEndPadded(x, post);
  }

  function Lower(c: char): (l: char)
    ensures IsSpace(l) <==> IsSpace(c)
  {
    if 'A' <= c <= 'Z' then (c as int + 32) as char else c
  }

  /** `s.toLowerCase()` for the ASCII letters. */
  function ToLower(s: string): (r: string)
    ensures |r| == |s|
    ensures forall i :: 0 <= i < |s| ==> r[i] == Lower(s[i])
  {
    seq(|s|, i requires 0 <= i < |s| => Lower(s[i]))
  }

  /** `s.startsWith(p)` */
  predicate StartsWith(s: string, p: string) {
    |p| <= |s| && s[..|p|] == p
  }

  /** `s.endsWith(p)` */
  predicate EndsWith(s: string, p: string) {
    |p| <= |s| && s[|s| - |p|..] == p
  }

  predicate OccursAt(s: string, p: string, j: int) {
    0 <= j && j + |p| <= |s| && s[j..j + |p|] == p
  }

  /** The first occurrence of `p` in `s` at or after position `i`. */
  function IndexFrom(s: string, p: string, i: nat): (r: Option<nat>)
    requires i <= |s|
    decreases |s| - i
    ensures r.Some? ==> i <= r.value && OccursAt(s, p, r.value)
    ensures r.Some? ==> forall j :: i <= j < r.value ==> !OccursAt(s, p, j)
    ensures r.None? ==> forall j :: i <= j ==> !OccursAt(s, p, j)
  {
    if i + |p| > |s| then None
    else if s[i..i + |p|] == p then Some(i)
    else IndexFrom(s, p, i + 1)
  }

  /** `s.indexOf(p)`, with -1 as `None` */
  function IndexOf(s: string, p: string): (r: Option<nat>)
    ensures r.Some? ==> OccursAt(s, p, r.value) && forall j :: 0 <= j < r.value ==> !OccursAt(s, p, j)
    ensures r.None? ==> forall j :: !OccursAt(s, p, j)
  {
    IndexFrom(s, p, 0)
  }

  /** `s.includes(p)` */
  predicate Contains(s: string, p: string)
    ensures Contains(s, p) <==> exists j :: OccursAt(s, p, j)
  {
    IndexOf(s, p).Some?
  }

  /** `s.toLowerCase().includes(w)` */
  predicate ContainsLower(s: string, w: string) {
    Contains(ToLower(s), w)
  }

  /** `s.replace(p, rep)` with a string pattern: only the first occurrence is replaced. */
  function ReplaceFirst(s: string, p: string, rep: string): (r: string)
    ensures !Contains(s, p) ==> r == s
    ensures StartsWith(s, p) ==> r == rep + s[|p|..]
    ensures Contains(s, p) ==>
      exists i :: OccursAt(s, p, i) && (forall k :: 0 <= k < i ==> !OccursAt(s, p, k))
        && r == s[..i] + rep + s[i + |p|..]
  {
    match IndexOf(s, p)
    case None => s
    case Some(i) =>
      assert StartsWith(s, p) ==> OccursAt(s, p, 0);
      s[..i] + rep + s[i + |p|..]
  }

  /** Lower-casing commutes with trimming, because it maps white space to white space
      and nothing else to white space. */
  lemma {:induction false} TrimStartLower(s: string)
    ensures ToLower(TrimStart(s)) == TrimStart(ToLower(s))
    decreases |s|
  {
    if |s| > 0 {
      assert ToLower(s)[1..] == ToLower(s[1..]);
      TrimStartLower(s[1..]);
    }
  }

  lemma {:induction false} TrimEndLower(s: string)
    ensures ToLower(TrimEnd(s)) == TrimEnd(ToLower(s))
    decreases |s|
  {
    if |s| > 0 {
      assert ToLower(s)[..|s| - 1] == ToLower(s[..|s| - 1]);
      TrimEndLower(s[..|s| - 1]);
    }
  }

  lemma LowerTrim(s: string)
    ensures ToLower(Trim(s)) == Trim(ToLower(s))
  {
    TrimStartLower(s);
    TrimEndLower(TrimStart(s));
  }

  /** Trimming removes characters and adds none. */
  lemma TrimKeepsAbsent(s: string, c: char)
    requires c !in s
    ensures c !in Trim(s)
  {
    var pre, post := TrimSplits(s);
    var t := Trim(s);
    forall i | 0 <= i < |t| ensures t[i] != c {
      assert t[i] == s[|pre| + i];
    }
  }

  /** An occurrence in the middle part of `x + y + z` is an occurrence of the whole. */
  lemma OccursInMiddle(x: string, y: string, z: string, w: string, j: int)
    requires OccursAt(y, w, j)
    ensures OccursAt(x + y + z, w, |x| + j)
  {
    var s := x + y + z;
    forall k | 0 <= k < |w| ensures s[|x| + j + k] == w[k] {
      assert y[j..j + |w|][k] == y[j + k];
    }
    assert s[|x| + j..|x| + j + |w|] == w;
  }

  /** An occurrence of the whole that lies inside the middle part is one of the part. */
  lemma OccursWithinMiddle(x: string, y: string, z: string, w: string, j: int)
    requires |x| <= j && j + |w| <= |x| + |y|
    requires OccursAt(x + y + z, w, j)
    ensures OccursAt(y, w, j - |x|)
  {
    var s := x + y + z;
    forall k | 0 <= k < |w| ensures y[j - |x| + k] == w[k] {
      assert s[j..j + |w|][k] == s[j + k];
    }
    assert y[j - |x|..j - |x| + |w|] == w;
  }

  /** A word that starts and ends with a character other than white space occurs in a
      text iff it occurs in the trimmed text. */
  lemma ContainsTrimmed(s: string, w: string)
    requires w != [] && !IsSpace(w[0]) && !IsSpace(w[|w| - 1])
    ensures Contains(Trim(s), w) <==> Contains(s, w)
  {
    var pre, post := TrimSplits(s);
    var t := Trim(s);
    if Contains(t, w) {
      var j :| OccursAt(t, w, j);
      OccursInMiddle(pre, t, post, w, j);
    }
    if Contains(s, w) {
      var j :| OccursAt(s, w, j);
      var e := j + |w| - 1;
      assert s[j..j + |w|][0] == s[j] && s[j..j + |w|][|w| - 1] == s[e];
      assert !IsSpace(s[j]) && !IsSpace(s[e]);
      assert |pre| <= j by {
        assert forall i :: 0 <= i < |pre| ==> s[i] == pre[i];
      }
      assert e < |pre| + |t| by {
        assert forall i :: |pre| + |t| <= i < |s| ==> s[i] == post[i - |pre| - |t|];
      }
      OccursWithinMiddle(pre, t, post, w, j);
    }
  }

  /** `s.split(c)` for a one-character separator `c`. */
  function Split(s: string, c: char): (parts: seq<string>)
    ensures |parts| >= 1
    ensures forall i :: 0 <= i < |parts| ==> c !in parts[i]
    decreases |s|
  {
    match IndexOf(s, [c])
    case None =>
      assert forall j :: 0 <= j < |s| ==> !OccursAt(s, [c], j) && s[j..j + 1] == [s[j]];
      [s]
    case Some(i) =>
      assert forall j :: 0 <= j < i ==> !OccursAt(s, [c], j) && s[j..j + 1] == [s[j]];
      assert s[i..i + 1] == [c];
      [s[..i]] + Split(s[i + 1..], c)
  }

  /** `parts.join(c)` */
  function Join(parts: seq<string>, c: char): string
    requires |parts| >= 1
  {
    if |parts| == 1 then parts[0] else parts[0] + [c] + Join(parts[1..], c)
  }

  /** Splitting and joining on the same separator are inverse to each other. */
  lemma {:induction false} JoinSplit(s: string, c: char)
    ensures Join(Split(s, c), c) == s
    decreases |s|
  {
    match IndexOf(s, [c])
    case None =>
    case Some(i) =>
      assert s[i..i + 1] == [c];
      JoinSplit(s[i + 1..], c);
      assert s == s[..i] + [c] + s[i + 1..];
  }

  /** The first separator of `p + [c] + rest` is the one after `p` when `p` has none. */
  lemma IndexOfSeparator(p: string, rest: string, c: char)
    requires c !in p
    ensures IndexOf(p + [c] + rest, [c]) == Some(|p|)
  {
    var s := p + [c] + rest;
    assert OccursAt(s, [c], |p|) by {
      assert s[|p|..|p| + 1] == [c];
    }
    forall j | 0 <= j < |p| ensures !OccursAt(s, [c], j) {
      assert s[j..j + 1] == [p[j]];
    }
  }

  /** A text without the separator has no separator to find. */
  lemma IndexOfAbsent(p: string, c: char)
    requires c !in p
    ensures IndexOf(p, [c]) == None
  {
    forall j | 0 <= j < |p| ensures !OccursAt(p, [c], j) {
      assert p[j..j + 1] == [p[j]];
    }
  }

  lemma {:induction false} SplitJoin(parts: seq<string>, c: char)
    requires |parts| >= 1
    requires forall i :: 0 <= i < |parts| ==> c !in parts[i]
    ensures Split(Join(parts, c), c) == parts
  {
    var p := parts[0];
    if |parts| == 1 {
      IndexOfAbsent(p, c);
    } else {
      var rest := Join(parts[1..], c);
      var s := p + [c] + rest;
      IndexOfSeparator(p, rest, c);
      assert s[..|p|] == p;
      assert s[|p| + 1..] == rest;
      SplitJoin(parts[1..], c);
      assert Split(s, c) == [p] + parts[1..];
    }
  }
}
