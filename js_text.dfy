/**
 * The pieces of JavaScript value and string semantics that the lead pipeline
 * relies on: truthiness, String() conversion, String.prototype.trim, split
 * on a one-character separator, startsWith, includes/indexOf, a
 * first-occurrence replace, and the entry list of a FormData object.
 */
module JsText {
  import opened Wrappers

  /** A JavaScript value as far as the pipeline distinguishes them. */
  datatype JsValue = Undefined | Null | True | Str(s: string)

  /** `!!v` in JavaScript. */
  predicate Truthy(v: JsValue) {
    match v
    case Undefined => false
    case Null => false
    case True => true
    case Str(s) => s != ""
  }

  /** `String(v)`, which is also what a template literal and FormData.append do. */
  function ToString(v: JsValue): (r: string)
    ensures v.Str? ==> r == v.s
    ensures Truthy(v) ==> r != ""
  {
    match v
    case Undefined => "undefined"
    case Null => "null"
    case True => "true"
    case Str(s) => s
  }

  /** WhiteSpace and LineTerminator code points of ECMAScript (the set behind `trim` and `\s`). */
  predicate IsWhiteSpace(c: char) {
    || c == '\t' || c == '\n' || c == '\U{000B}' || c == '\U{000C}' || c == '\r'
    || c == ' ' || c == '\U{00A0}' || c == '\U{1680}'
    || ('\U{2000}' <= c <= '\U{200A}')
    || c == '\U{2028}' || c == '\U{2029}' || c == '\U{202F}' || c == '\U{205F}'
    || c == '\U{3000}' || c == '\U{FEFF}'
  }

  predicate AllWhiteSpace(s: string) {
    forall i :: 0 <= i < |s| ==> IsWhiteSpace(s[i])
  }

  function TrimStart(s: string): (r: string)
    ensures |r| <= |s| && r == s[|s| - |r|..]
    ensures r == [] || !IsWhiteSpace(r[0])
    ensures AllWhiteSpace(s[..|s| - |r|])
  {
    if s != [] && IsWhiteSpace(s[0]) then TrimStart(s[1..]) else s
  }

  function TrimEnd(s: string): (r: string)
    ensures |r| <= |s| && r == s[..|r|]
    ensures r == [] || !IsWhiteSpace(r[|r| - 1])
    ensures AllWhiteSpace(s[|r|..])
  {
    if s != [] && IsWhiteSpace(s[|s| - 1]) then TrimEnd(s[..|s| - 1]) else s
  }

  /** `s.trim()`. */
  function Trim(s: string): (r: string)
    ensures |r| <= |s|
    ensures r == [] || (!IsWhiteSpace(r[0]) && !IsWhiteSpace(r[|r| - 1]))
  {
    TrimEnd(TrimStart(s))
  }

  lemma {:induction false} TrimStartOfPadded(pad: string, m: string)
    requires AllWhiteSpace(pad)
    requires m == [] || !IsWhiteSpace(m[0])
    ensures TrimStart(pad + m) == m
    decreases |pad|
  {
    if pad == [] {
      assert pad + m == m;
    } else {
      assert (pad + m)[1..] == pad[1..] + m;
      TrimStartOfPadded(pad[1..], m);
    }
  }

  lemma {:induction false} TrimEndOfPadded(m: string, pad: string)
    requires AllWhiteSpace(pad)
    requires m == [] || !IsWhiteSpace(m[|m| - 1])
    ensures TrimEnd(m + pad) == m
    decreases |pad|
  {
    if pad == [] {
      assert m + pad == m;
    } else {
      assert (m + pad)[..|m + pad| - 1] == m + pad[..|pad| - 1];
      TrimEndOfPadded(m, pad[..|pad| - 1]);
    }
  }

  /** Trim removes exactly the white space around the text and nothing inside it. */
  lemma {:induction false} TrimOfPadded(before: string, m: string, after: string)
    requires AllWhiteSpace(before) && AllWhiteSpace(after)
    requires m == [] || (!IsWhiteSpace(m[0]) && !IsWhiteSpace(m[|m| - 1]))
    ensures Trim(before + m + after) == m
  {
    assert before + m + after == before + (m + after);
    if m == [] {
      assert m + after == after;
      assert before + after == (before + after) + [];
      TrimStartOfPadded(before + after, []);
    } else {
      TrimStartOfPadded(before, m + after);
    }
    TrimEndOfPadded(m, after);
  }

  /** Trimming twice is trimming once. */
  lemma {:induction false} TrimIdempotent(s: string)
    ensures Trim(Trim(s)) == Trim(s)
  {
    var t := Trim(s);
    assert TrimStart(t) == t;
    assert TrimEnd(t) == t;
  }

  /** `s.split(sep)` for a one-character separator: never empty, pieces free of the separator. */
  function Split(s: string, sep: char): (parts: seq<string>)
    ensures |parts| >= 1
    ensures forall i :: 0 <= i < |parts| ==> sep !in parts[i]
    decreases |s|
  {
    if s == [] then [[]]
    else
      var rest := Split(s[1..], sep);
      if s[0] == sep then [[]] + rest
      else [[s[0]] + rest[0]] + rest[1..]
  }

  /** `parts.join(sep)`. */
  function Join(parts: seq<string>, sep: char): string
    requires |parts| >= 1
    decreases |parts|
  {
    if |parts| == 1 then parts[0] else parts[0] + [sep] + Join(parts[1..], sep)
  }

  /** Joining the pieces of a split gives back the string. */
  lemma {:induction false} JoinSplit(s: string, sep: char)
    ensures Join(Split(s, sep), sep) == s
    decreases |s|
  {
    if s != [] {
      var rest := Split(s[1..], sep);
      JoinSplit(s[1..], sep);
      if s[0] == sep {
        assert Split(s, sep) == [[]] + rest;
        assert ([[]] + rest)[1..] == rest;
      } else {
        var parts := [[s[0]] + rest[0]] + rest[1..];
        assert Split(s, sep) == parts;
        if |rest| == 1 {
          assert Join(parts, sep) == [s[0]] + rest[0];
        } else {
          assert parts[1..] == rest[1..];
          assert Join(rest, sep) == rest[0] + [sep] + Join(rest[1..], sep);
          assert Join(parts, sep) == [s[0]] + (rest[0] + [sep] + Join(rest[1..], sep));
        }
        assert s == [s[0]] + s[1..];
      }
    }
  }

  /** There is one more piece than there are separators. */
  lemma {:induction false} SplitCount(s: string, sep: char)
    ensures |Split(s, sep)| == multiset(s)[sep] + 1
    decreases |s|
  {
    if s != [] {
      SplitCount(s[1..], sep);
      assert s == [s[0]] + s[1..];
      assert multiset(s) == multiset([s[0]]) + multiset(s[1..]);
    }
  }

  /** A piece without the separator is split off whole. */
  lemma {:induction false} SplitPrefix(a: string, sep: char, t: string)
    requires sep !in a
    ensures Split(a + [sep] + t, sep) == [a] + Split(t, sep)
    decreases |a|
  {
    var s := a + [sep] + t;
    if a == [] {
      assert s[1..] == t;
    } else {
      assert s[1..] == a[1..] + [sep] + t;
      SplitPrefix(a[1..], sep, t);
      assert [a[0]] + a[1..] == a;
    }
  }

  lemma {:induction false} SplitWhole(a: string, sep: char)
    requires sep !in a
    ensures Split(a, sep) == [a]
    decreases |a|
  {
    if a != [] {
      SplitWhole(a[1..], sep);
      assert [a[0]] + a[1..] == a;
    }
  }

  /** Splitting a join of separator-free pieces gives back the pieces. */
  lemma {:induction false} SplitJoin(parts: seq<string>, sep: char)
    requires |parts| >= 1
    requires forall i :: 0 <= i < |parts| ==> sep !in parts[i]
    ensures Split(Join(parts, sep), sep) == parts
    decreases |parts|
  {
    if |parts| == 1 {
      SplitWhole(parts[0], sep);
    } else {
      SplitJoin(parts[1..], sep);
      SplitPrefix(parts[0], sep, Join(parts[1..], sep));
      assert [parts[0]] + parts[1..] == parts;
    }
  }

  /** `s.startsWith(p)`. */
  predicate StartsWith(s: string, p: string) {
    |p| <= |s| && s[..|p|] == p
  }

  predicate OccursAt(s: string, pat: string, i: nat) {
    i + |pat| <= |s| && s[i..i + |pat|] == pat
  }

  /** `s.indexOf(pat, from)`, with None for -1. */
  function IndexOfFrom(s: string, pat: string, from: nat): (r: Option<nat>)
    ensures r.Some? ==> from <= r.value && OccursAt(s, pat, r.value)
    ensures r.Some? ==> forall j :: from <= j < r.value ==> !OccursAt(s, pat, j)
    ensures r.None? ==> forall j :: from <= j ==> !OccursAt(s, pat, j)
    decreases |s| - from
  {
    if from + |pat| > |s| then None
    else if OccursAt(s, pat, from) then Some(from)
    else IndexOfFrom(s, pat, from + 1)
  }

  function IndexOf(s: string, pat: string): Option<nat> {
    IndexOfFrom(s, pat, 0)
  }

  /** `s.includes(pat)`. */
  predicate Contains(s: string, pat: string) {
    IndexOf(s, pat).Some?
  }

  /** `s.replace(pat, rep)` with a string pattern: only the first occurrence is replaced. */
  function ReplaceFirst(s: string, pat: string, rep: string): string {
    match IndexOf(s, pat)
    case None => s
    case Some(i) => s[..i] + rep + s[i + |pat|..]
  }

  /** Without an occurrence, replace changes nothing. */
  lemma ReplaceFirstAbsent(s: string, pat: string, rep: string)
    requires !Contains(s, pat)
    ensures ReplaceFirst(s, pat, rep) == s
  {
  }

  /**
   * With `pat` first occurring right after `pre`, replace swaps exactly that
   * occurrence and keeps the text on both sides.
   */
  lemma ReplaceFirstAt(pre: string, pat: string, post: string, rep: string)
    requires forall j :: 0 <= j < |pre| ==> !OccursAt(pre + pat + post, pat, j)
    ensures Contains(pre + pat + post, pat)
    ensures ReplaceFirst(pre + pat + post, pat, rep) == pre + rep + post
  {
    var s := pre + pat + post;
    assert s[|pre|..|pre| + |pat|] == pat;
    assert OccursAt(s, pat, |pre|);
    var r := IndexOf(s, pat);
    assert r.Some? && r.value == |pre|;
    assert s[..|pre|] == pre;
    assert s[|pre| + |pat|..] == post;
  }

  /** No string occurs twice. */
  predicate Distinct(keys: seq<string>) {
    forall i, j :: 0 <= i < j < |keys| ==> keys[i] != keys[j]
  }

  predicate Disjoint(a: seq<string>, b: seq<string>) {
    forall x :: x in a ==> x !in b
  }

  lemma DisjointConcat(a: seq<string>, b: seq<string>, c: seq<string>)
    requires Disjoint(a, c) && Disjoint(b, c)
    ensures Disjoint(a + b, c)
  {
  }

  lemma DistinctConcat(a: seq<string>, b: seq<string>)
    requires Distinct(a) && Distinct(b) && Disjoint(a, b)
    ensures Distinct(a + b)
  {
    forall i, j | 0 <= i < j < |a + b| ensures (a + b)[i] != (a + b)[j] {
      if i < |a| <= j {
        assert (a + b)[i] == a[i] && (a + b)[j] == b[j - |a|];
        assert a[i] in a;
      }
    }
  }

  /** The entries of a FormData object, each value already converted to a string by `append`. */
  type FormData = seq<(string, string)>

  /** `formData.get(key)`: the value of the first entry with that name, None for null. */
  function FormDataGet(fd: FormData, key: string): Option<string>
    decreases |fd|
  {
    if fd == [] then None
    else if fd[0].0 == key then Some(fd[0].1)
    else FormDataGet(fd[1..], key)
  }

  /** `get` gives null exactly when no entry has that name. */
  lemma {:induction false} FormDataGetNone(fd: FormData, key: string)
    ensures FormDataGet(fd, key).None? <==> forall i :: 0 <= i < |fd| ==> fd[i].0 != key
    decreases |fd|
  {
    if fd != [] && fd[0].0 != key {
      FormDataGetNone(fd[1..], key);
      assert forall i :: 1 <= i < |fd| ==> fd[i] == fd[1..][i - 1];
    }
  }

  /** `get` on entries appended after others: the earlier entries win. */
  lemma {:induction false} FormDataGetConcat(a: FormData, b: FormData, key: string)
    ensures FormDataGet(a + b, key) == if FormDataGet(a, key).Some? then FormDataGet(a, key) else FormDataGet(b, key)
    decreases |a|
  {
    if a != [] {
      assert (a + b)[0] == a[0] && (a + b)[1..] == a[1..] + b;
      FormDataGetConcat(a[1..], b, key);
    } else {
      assert a + b == b;
    }
  }

  /** The first entry with a name decides what `get` returns. */
  lemma {:induction false} FormDataGetAt(fd: FormData, i: nat)
    requires i < |fd|
    requires forall j :: 0 <= j < i ==> fd[j].0 != fd[i].0
    ensures FormDataGet(fd, fd[i].0) == Some(fd[i].1)
    decreases i
  {
    if i > 0 {
      assert fd[0].0 != fd[i].0;
      assert fd[1..][i - 1] == fd[i];
      FormDataGetAt(fd[1..], i - 1);
    }
  }
}
