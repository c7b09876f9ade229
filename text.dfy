/** Python `str` operations used by the chatbot, for the ASCII subset of
    characters: `strip`, `upper`, `lower`, `startswith`, `endswith`, `in`,
    `find`, `split` and `join`. */
module Text {
  import opened Outcomes

  /** `str.isspace()` on an ASCII character: space, `\t`, `\n`, `\v`, `\f`,
      `\r` and the separators `\x1c`..`\x1f`. The `\s` class of Python's `re`
      module uses the same set. */
  predicate IsSpace(c: char) {
    var n := c as int;
    n == 32 || 9 <= n <= 13 || 28 <= n <= 31
  }

  predicate AllSpace(s: string) {
    forall i | 0 <= i < |s| :: IsSpace(s[i])
  }

  /** Neither end of `s` is whitespace (vacuous for the empty string). */
  predicate Trimmed(s: string) {
    |s| == 0 || (!IsSpace(s[0]) && !IsSpace(s[|s| - 1]))
  }

  /** `s.lstrip()`: drops the leading whitespace, keeps the rest. */
  function TrimLeft(s: string): (r: string)
    ensures |r| <= |s|
    ensures |r| == 0 || !IsSpace(r[0])
  {
    if |s| > 0 && IsSpace(s[0]) then TrimLeft(s[1..]) else s
  }

  /** What `lstrip` keeps is a suffix. */
  lemma {:induction false} TrimLeftSuffix(s: string)
    ensures TrimLeft(s) == s[|s| - |TrimLeft(s)|..]
    decreases |s|
  {
    if |s| > 0 && IsSpace(s[0]) {
      TrimLeftSuffix(s[1..]);
    }
  }

  /** What `lstrip` drops is whitespace. */
  lemma {:induction false} TrimLeftDropsSpace(s: string)
    ensures AllSpace(s[..|s| - |TrimLeft(s)|])
    decreases |s|
  {
    if |s| > 0 && IsSpace(s[0]) {
      TrimLeftDropsSpace(s[1..]);
      var r := TrimLeft(s);
      assert s[1..][..|s[1..]| - |r|] == s[1..|s| - |r|];
    }
  }

  /** `s.rstrip()`: drops the trailing whitespace, keeps the rest. */
  function TrimRight(s: string): (r: string)
    ensures |r| <= |s|
    ensures |r| == 0 || !IsSpace(r[|r| - 1])
  {
    if |s| > 0 && IsSpace(s[|s| - 1]) then TrimRight(s[..|s| - 1]) else s
  }

  /** What `rstrip` keeps is a prefix. */
  lemma {:induction false} TrimRightPrefix(s: string)
    ensures TrimRight(s) == s[..|TrimRight(s)|]
    decreases |s|
  {
    if |s| > 0 && IsSpace(s[|s| - 1]) {
      TrimRightPrefix(s[..|s| - 1]);
    }
  }

  /** What `rstrip` drops is whitespace. */
  lemma {:induction false} TrimRightDropsSpace(s: string)
    ensures AllSpace(s[|TrimRight(s)|..])
    decreases |s|
  {
    if |s| > 0 && IsSpace(s[|s| - 1]) {
      TrimRightDropsSpace(s[..|s| - 1]);
      var r := TrimRight(s);
      assert s[..|s| - 1][|r|..] == s[|r|..|s| - 1];
    }
  }

  /** `s.strip()`. */
  function Strip(s: string): (r: string)
    ensures Trimmed(r)
    ensures |r| <= |s|
  {
    var l := TrimLeft(s);
    var r := TrimRight(l);
    TrimRightPrefix(l);
    assert |r| > 0 ==> r[0] == l[0];
    r
  }

  /** `s.strip()` is a slice of `s` with only whitespace cut away on either side. */
  lemma StripMiddle(s: string)
    ensures exists i, j :: 0 <= i <= j <= |s| && Strip(s) == s[i..j] && AllSpace(s[..i]) && AllSpace(s[j..])
  {
    var l := TrimLeft(s);
    var r := TrimRight(l);
    var i := |s| - |l|;
    var j := i + |r|;
    TrimLeftSuffix(s);
    TrimLeftDropsSpace(s);
    TrimRightPrefix(l);
    TrimRightDropsSpace(l);
    assert l == s[i..];
    assert r == s[i..j];
    assert l[|r|..] == s[j..];
  }

  /** A text strips to nothing exactly when it is all whitespace. */
  lemma StripEmpty(s: string)
    ensures |Strip(s)| == 0 <==> AllSpace(s)
  {
    var l := TrimLeft(s);
    var r := TrimRight(l);
    TrimLeftSuffix(s);
    if |r| == 0 {
      TrimLeftDropsSpace(s);
      TrimRightDropsSpace(l);
      assert l[|r|..] == l;
      AllSpaceConcat(s[..|s| - |l|], l);
      assert s == s[..|s| - |l|] + l;
    } else {
      assert l[0] == s[|s| - |l|];
    }
  }

  lemma AllSpaceConcat(a: string, b: string)
    requires AllSpace(a) && AllSpace(b)
    ensures AllSpace(a + b)
  {
  }

  /** Leading whitespace does not survive `lstrip`. */
  lemma {:induction false} TrimLeftSpacePrefix(a: string, x: string)
    requires AllSpace(a)
    ensures TrimLeft(a + x) == TrimLeft(x)
    decreases |a|
  {
    if |a| > 0 {
      assert (a + x)[1..] == a[1..] + x;
      TrimLeftSpacePrefix(a[1..], x);
    } else {
      assert a + x == x;
    }
  }

  /** Once `lstrip` reaches non-space text, what follows is kept as is. */
  lemma {:induction false} TrimLeftAppend(m: string, x: string)
    requires |TrimLeft(m)| > 0
    ensures TrimLeft(m + x) == TrimLeft(m) + x
    decreases |m|
  {
    if IsSpace(m[0]) {
      assert (m + x)[1..] == m[1..] + x;
      TrimLeftAppend(m[1..], x);
    }
  }

  /** Trailing whitespace does not survive `rstrip`. */
  lemma {:induction false} TrimRightSpaceSuffix(x: string, b: string)
    requires AllSpace(b)
    ensures TrimRight(x + b) == TrimRight(x)
    decreases |b|
  {
    if |b| > 0 {
      var bb := b[..|b| - 1];
      assert (x + b)[..|x + b| - 1] == x + bb;
      TrimRightSpaceSuffix(x, bb);
    } else {
      assert x + b == x;
    }
  }

  /** Stripping ignores whitespace padding on either side: the text a
      pattern like `\s*(.*?)\s*` brackets strips to the same string as the
      text with its padding. */
  lemma StripPadded(a: string, m: string, b: string)
    requires AllSpace(a) && AllSpace(b)
    ensures Strip(a + m + b) == Strip(m)
  {
    assert a + m + b == a + (m + b);
    TrimLeftSpacePrefix(a, m + b);
    var lm := TrimLeft(m);
    if |lm| > 0 {
      TrimLeftAppend(m, b);
      TrimRightSpaceSuffix(lm, b);
    } else {
      assert AllSpace(m) by {
        TrimLeftDropsSpace(m);
        assert m == m[..|m| - |lm|] + lm;
      }
      assert AllSpace(m + b);
      TrimLeftSpacePrefix(m + b, []);
      assert m + b + [] == m + b;
    }
  }

  /** Python's `str.upper()` on one ASCII character. */
  function UpperChar(c: char): char {
    if 'a' <= c <= 'z' then (c as int - 32) as char else c
  }

  /** Python's `str.lower()` on one ASCII character. */
  function LowerChar(c: char): char {
    if 'A' <= c <= 'Z' then (c as int + 32) as char else c
  }

  /** `s.upper()`: the string with every letter replaced by its capital. */
  function Upper(s: string): (r: string)
    ensures |r| == |s| && forall i | 0 <= i < |s| :: r[i] == UpperChar(s[i])
  {
    seq(|s|, i requires 0 <= i < |s| => UpperChar(s[i]))
  }

  /** `s.lower()`. */
  function Lower(s: string): (r: string)
    ensures |r| == |s| && forall i | 0 <= i < |s| :: r[i] == LowerChar(s[i])
  {
    seq(|s|, i requires 0 <= i < |s| => LowerChar(s[i]))
  }

  /** `s.startswith(p)`. */
  predicate StartsWith(s: string, p: string) {
    |p| <= |s| && s[..|p|] == p
  }

  /** `s.endswith(p)`. */
  predicate EndsWith(s: string, p: string) {
    |p| <= |s| && s[|s| - |p|..] == p
  }

  /** `p` occurs in `s` starting at index `i`. */
  predicate OccursAt(s: string, p: string, i: nat) {
    i + |p| <= |s| && s[i..i + |p|] == p
  }

  /** `s.find(p, start)`: the first index at or after `start` where `p`
      occurs, if any. */
  function IndexOf(s: string, p: string, start: nat): (r: Option<nat>)
    ensures r.Some? ==> start <= r.value && OccursAt(s, p, r.value)
    ensures r.Some? ==> forall j | start <= j < r.value :: !OccursAt(s, p, j)
    ensures r.None? ==> forall j | start <= j :: !OccursAt(s, p, j)
    decreases |s| - start
  {
    if start + |p| > |s| then None
    else if OccursAt(s, p, start) then Some(start)
    else IndexOf(s, p, start + 1)
  }

  /** `p in s` for strings. */
  predicate Contains(s: string, p: string) {
    IndexOf(s, p, 0).Some?
  }

  lemma ContainsOccurs(s: string, p: string, i: nat)
    requires OccursAt(s, p, i)
    ensures Contains(s, p)
  {
  }

  lemma StartsWithAppend(a: string, b: string)
    ensures StartsWith(a + b, a)
  {
    assert (a + b)[..|a|] == a;
  }

  lemma ContainsMiddle(a: string, b: string, c: string)
    ensures Contains(a + b + c, b)
  {
    assert (a + b + c)[|a|..|a| + |b|] == b;
    ContainsOccurs(a + b + c, b, |a|);
  }

  /** `s.split(sep)` for a one-character separator: the maximal pieces
      between separators, one more than there are separators. */
  function Split(s: string, sep: char): (r: seq<string>)
    ensures |r| >= 1
    ensures forall k | 0 <= k < |r| :: sep !in r[k]
    decreases |s|
  {
    match IndexOf(s, [sep], 0)
    case None =>
      assert sep !in s by {
        forall i | 0 <= i < |s| ensures s[i] != sep {
          assert !OccursAt(s, [sep], i) && s[i..i + 1] == [s[i]];
        }
      }
      [s]
    case Some(i) =>
      assert sep !in s[..i] by {
        forall j | 0 <= j < i ensures s[j] != sep {
          assert !OccursAt(s, [sep], j) && s[j..j + 1] == [s[j]];
        }
      }
      [s[..i]] + Split(s[i + 1..], sep)
  }

  /** `sep.join(parts)`. */
  function Join(parts: seq<string>, sep: string): string {
    if |parts| == 0 then ""
    else if |parts| == 1 then parts[0]
    else parts[0] + sep + Join(parts[1..], sep)
  }

  /** Splitting on a character and joining with it gives the string back. */
  lemma {:induction false} JoinSplit(s: string, sep: char)
    ensures Join(Split(s, sep), [sep]) == s
    decreases |s|
  {
    match IndexOf(s, [sep], 0)
    case None =>
    case Some(i) =>
      var rest := Split(s[i + 1..], sep);
      JoinSplit(s[i + 1..], sep);
      assert Split(s, sep) == [s[..i]] + rest;
      assert s[i..i + 1] == [sep];
      assert s == s[..i] + [sep] + s[i + 1..];
  }

  /** The texts `f` gives for the elements of `es`, one after another:
      what a loop doing `s += f(e)` for each `e` builds. */
  function ConcatMap<E>(f: E -> string, es: seq<E>): string
    decreases |es|
  {
    if |es| == 0 then "" else ConcatMap(f, es[..|es| - 1]) + f(es[|es| - 1])
  }

  /** The text for two runs of elements is the two texts one after another,
      in order. */
  lemma {:induction false} ConcatMapAppend<E>(f: E -> string, a: seq<E>, b: seq<E>)
    ensures ConcatMap(f, a + b) == ConcatMap(f, a) + ConcatMap(f, b)
    decreases |b|
  {
    if |b| == 0 {
      assert a + b == a;
    } else {
      var n := |b| - 1;
      var ab := a + b;
      assert ab[..|ab| - 1] == a + b[..n];
      assert ab[|ab| - 1] == b[n];
      ConcatMapAppend(f, a, b[..n]);
      AppendAssoc(ConcatMap(f, a), ConcatMap(f, b[..n]), f(b[n]));
    }
  }

  lemma AppendAssoc<T>(a: seq<T>, b: seq<T>, c: seq<T>)
    ensures a + b + c == a + (b + c)
  {
  }

  /** One more element adds its text at the end. */
  lemma ConcatMapSnoc<E>(f: E -> string, es: seq<E>, j: nat)
    requires j < |es|
    ensures ConcatMap(f, es[..j + 1]) == ConcatMap(f, es[..j]) + f(es[j])
  {
    assert es[..j + 1][..j] == es[..j];
  }

  /** The text of every element occurs in the text of the whole run. */
  lemma ConcatMapHasEach<E>(f: E -> string, es: seq<E>, i: nat)
    requires i < |es|
    ensures Contains(ConcatMap(f, es), f(es[i]))
  {
    var pre := es[..i];
    var post := es[i + 1..];
    assert es == pre + [es[i]] + post;
    ConcatMapAppend(f, pre + [es[i]], post);
    ConcatMapAppend(f, pre, [es[i]]);
    assert ConcatMap(f, [es[i]]) == f(es[i]) by {
      assert [es[i]][..0] == [];
    }
    ContainsMiddle(ConcatMap(f, pre), f(es[i]), ConcatMap(f, post));
  }

  /** Text found in `b` is found in `a + b`. */
  lemma ContainsAfter(a: string, b: string, p: string)
    requires Contains(b, p)
    ensures Contains(a + b, p)
  {
    var i := IndexOf(b, p, 0).value;
    assert (a + b)[|a| + i..|a| + i + |p|] == b[i..i + |p|];
    ContainsOccurs(a + b, p, |a| + i);
  }
}
