/** The JavaScript string operations the routes rely on: `trim`,
    `toLowerCase`, `includes`, `split` and the UTF-16 `length`. */
module JsText {
  import opened Common

  /** The characters `String.prototype.trim` removes: ECMAScript's
      WhiteSpace and LineTerminator code points. */
  predicate IsSpace(c: char) {
    c == ' ' || c == '\t' || c == '\n' || c == '\r' || c == '\U{000B}' || c == '\U{000C}'
    || c == '\U{00A0}' || c == '\U{FEFF}' || c == '\U{1680}' || ('\U{2000}' <= c <= '\U{200A}')
    || c == '\U{2028}' || c == '\U{2029}' || c == '\U{202F}' || c == '\U{205F}' || c == '\U{3000}'
  }

  predicate AllSpace(t: Text) {
    forall k :: 0 <= k < |t| ==> IsSpace(t[k])
  }

  /** `r` stands at offset `i` of `s` with nothing but white space around it. */
  predicate Padded(s: Text, i: nat, r: Text) {
    i + |r| <= |s| && s[i..i + |r|] == r && AllSpace(s[..i]) && AllSpace(s[i + |r|..])
  }

  /** Neither end of `r` is white space. */
  predicate Trimmed(r: Text) {
    r == [] || (!IsSpace(r[0]) && !IsSpace(r[|r| - 1]))
  }

  /** White space followed by white space is white space. */
  lemma AllSpaceConcat(a: Text, b: Text)
    requires AllSpace(a) && AllSpace(b)
    ensures AllSpace(a + b)
  {
    forall k | 0 <= k < |a + b| ensures IsSpace((a + b)[k]) {
      if k < |a| {
        assert (a + b)[k] == a[k];
      } else {
        assert (a + b)[k] == b[k - |a|];
      }
    }
  }

  /** `s` without its leading white space (used by `parseFloat` and `parseInt`). */
  function TrimStart(s: Text): (r: Text)
    ensures |r| <= |s| && r == s[|s| - |r|..]
    ensures AllSpace(s[..|s| - |r|])
    ensures r == [] || !IsSpace(r[0])
  {
    if s != [] && IsSpace(s[0]) then
      var r := TrimStart(s[1..]);
      assert s[..|s| - |r|] == [s[0]] + s[1..][..|s| - 1 - |r|];
      AllSpaceConcat([s[0]], s[1..][..|s| - 1 - |r|]);
      r
    else
      assert s[..0] == [];
      s
  }

  /** `s` without its trailing white space. */
  function TrimEnd(s: Text): (r: Text)
    ensures |r| <= |s| && r == s[..|r|]
    ensures AllSpace(s[|r|..])
    ensures r == [] || !IsSpace(r[|r| - 1])
  {
    if s != [] && IsSpace(s[|s| - 1]) then
      var init := s[..|s| - 1];
      var r := TrimEnd(init);
      assert s[|r|..] == init[|r|..] + [s[|s| - 1]];
      AllSpaceConcat(init[|r|..], [s[|s| - 1]]);
      r
    else
      assert s[|s|..] == [];
      s
  }

  /** `String.prototype.trim`: the result is `s` with exactly its white
      space at both ends removed. */
  function Trim(s: Text): (r: Text)
    ensures Trimmed(r)
    ensures Padded(s, |s| - |TrimStart(s)|, r)
  {
    var t := TrimStart(s);
    var r := TrimEnd(t);
    TrimmedPrefix(t, r);
    TrimmedSlice(s, t, r, |s| - |t|);
    r
  }

  lemma {:induction false} TrimStartPad(pad: Text, t: Text)
    requires AllSpace(pad) && (t == [] || !IsSpace(t[0]))
    ensures TrimStart(pad + t) == t
  {
    if pad == [] {
      assert pad + t == t;
    } else {
      assert (pad + t)[1..] == pad[1..] + t;
      assert pad[0] == (pad + t)[0];
      TrimStartPad(pad[1..], t);
    }
  }

  lemma {:induction false} TrimEndPad(t: Text, pad: Text)
    requires AllSpace(pad) && (t == [] || !IsSpace(t[|t| - 1]))
    ensures TrimEnd(t + pad) == t
  {
    if pad == [] {
      assert t + pad == t;
    } else {
      assert (t + pad)[..|t + pad| - 1] == t + pad[..|pad| - 1];
      assert pad[|pad| - 1] == (t + pad)[|t + pad| - 1];
      TrimEndPad(t, pad[..|pad| - 1]);
    }
  }

  /** Trimming removes exactly the white space around a trimmed text:
      `trim` has a unique answer. */
  lemma TrimAround(before: Text, m: Text, after: Text)
    requires AllSpace(before) && AllSpace(after) && Trimmed(m)
    ensures Trim(before + m + after) == m
  {
    if m == [] {
      assert before + m + after == (before + after) + [];
      TrimStartPad(before + after, []);
    } else {
      assert before + m + after == before + (m + after);
      TrimStartPad(before, m + after);
      TrimEndPad(m, after);
    }
  }

  /** A prefix of a text that starts with a non-space, ending in a
      non-space, is trimmed. */
  lemma TrimmedPrefix(t: Text, r: Text)
    requires t == [] || !IsSpace(t[0])
    requires |r| <= |t| && r == t[..|r|] && (r == [] || !IsSpace(r[|r| - 1]))
    ensures Trimmed(r)
  {
    if r != [] {
      assert r[0] == t[0];
    }
  }

  /** A prefix `r` of the tail `t` at offset `k`, with white space on
      both sides, is padded in `s`. */
  lemma TrimmedSlice(s: Text, t: Text, r: Text, k: nat)
    requires k <= |s| && t == s[k..] && AllSpace(s[..k])
    requires |r| <= |t| && r == t[..|r|] && AllSpace(t[|r|..])
    ensures Padded(s, k, r)
  {
    assert s[k..k + |r|] == t[..|r|];
    assert s[k + |r|..] == t[|r|..];
  }

  /** `toLowerCase` on one character, for the ASCII and Latin-1 letters. */
  function LowerChar(c: char): char {
    if 'A' <= c <= 'Z' || ('\U{00C0}' <= c <= '\U{00DE}' && c != '\U{00D7}') then
      (c as int + 32) as char
    else c
  }

  /** `String.prototype.toLowerCase`. */
  function Lower(s: Text): (r: Text)
    ensures |r| == |s|
    ensures forall i :: 0 <= i < |s| ==> r[i] == LowerChar(s[i])
  {
    seq(|s|, i requires 0 <= i < |s| => LowerChar(s[i]))
  }

  lemma LowerIdempotent(s: Text)
    ensures Lower(Lower(s)) == Lower(s)
  {
  }

  predicate OccursAt(hay: Text, needle: Text, i: int) {
    0 <= i && i + |needle| <= |hay| && hay[i..i + |needle|] == needle
  }

  /** `hay.includes(needle)`: `needle` occurs somewhere in `hay`. */
  function Contains(hay: Text, needle: Text): (r: bool)
    ensures r <==> exists i :: OccursAt(hay, needle, i)
  {
    if |needle| > |hay| then false
    else if hay[..|needle|] == needle then
      assert OccursAt(hay, needle, 0);
      true
    else
      var r := Contains(hay[1..], needle);
      assert forall i :: OccursAt(hay[1..], needle, i) <==> OccursAt(hay, needle, i + 1);
      assert !OccursAt(hay, needle, 0);
      assert (exists i :: OccursAt(hay, needle, i)) ==> exists i :: OccursAt(hay[1..], needle, i) by {
        if i :| OccursAt(hay, needle, i) {
          assert OccursAt(hay[1..], needle, i - 1);
        }
      }
      r
  }

  /** A text cannot contain a needle whose first character it lacks. */
  lemma AbsentFirstChar(hay: Text, needle: Text)
    requires needle != [] && needle[0] !in hay
    ensures !Contains(hay, needle)
  {
    forall i | 0 <= i && i + |needle| <= |hay|
      ensures !OccursAt(hay, needle, i)
    {
      assert hay[i..i + |needle|][0] == hay[i] && hay[i] in hay;
    }
  }

  /** An occurrence of a text that itself contains `inner` holds an
      occurrence of `inner`. */
  lemma {:induction false} ContainsTransitive(hay: Text, outer: Text, inner: Text)
    requires Contains(hay, outer) && Contains(outer, inner)
    ensures Contains(hay, inner)
  {
    var i :| OccursAt(hay, outer, i);
    var j :| OccursAt(outer, inner, j);
    assert outer == hay[i..i + |outer|];
    assert forall k :: 0 <= k < |inner| ==> hay[i + j + k] == outer[j + k] == inner[k];
    assert hay[i + j..i + j + |inner|] == inner;
    assert OccursAt(hay, inner, i + j);
  }

  /** The number of UTF-16 code units of `s`, which is what a JavaScript
      `length` counts: characters beyond the Basic Multilingual Plane take two. */
  function Utf16Length(s: Text): (n: nat)
    ensures |s| <= n <= 2 * |s|
  {
    if s == [] then 0
    else Utf16Length(s[..|s| - 1]) + (if s[|s| - 1] as int > 0xFFFF then 2 else 1)
  }

  /** The position of the first `c` in `s`, if any (`indexOf`). */
  function IndexOf(s: Text, c: char): (r: Option<nat>)
    ensures r.None? <==> c !in s
    ensures r.Some? ==> r.value < |s| && s[r.value] == c && c !in s[..r.value]
  {
    if s == [] then None
    else if s[0] == c then Some(0)
    else
      match IndexOf(s[1..], c)
      case None => None
      case Some(i) => assert s[..i + 1] == [s[0]] + s[1..][..i]; Some(i + 1)
  }

  /** `s.split(sep)` for a one-character separator. */
  function Split(s: Text, sep: char): (parts: seq<Text>)
    ensures |parts| >= 1
    ensures forall k :: 0 <= k < |parts| ==> sep !in parts[k]
    decreases |s|
  {
    match IndexOf(s, sep)
    case None => [s]
    case Some(i) => [s[..i]] + Split(s[i + 1..], sep)
  }

  /** A split has a second part exactly when the separator occurs. */
  lemma SplitInTwo(s: Text, sep: char)
    ensures |Split(s, sep)| >= 2 <==> sep in s
  {
    match IndexOf(s, sep)
    case None =>
    case Some(i) =>
      assert Split(s, sep) == [s[..i]] + Split(s[i + 1..], sep);
  }

  /** `parts.join(sep)`. */
  function Join(parts: seq<Text>, sep: char): Text {
    if |parts| <= 1 then (if parts == [] then "" else parts[0])
    else parts[0] + [sep] + Join(parts[1..], sep)
  }

  /** A join of two or more parts: the first, the separator, the second,
      then the separator and the rest, if any. */
  lemma JoinSecond(parts: seq<Text>, sep: char)
    requires |parts| >= 2
    ensures Join(parts, sep)
              == parts[0] + [sep] + parts[1] + (if |parts| == 2 then [] else [sep] + Join(parts[2..], sep))
  {
    var tail := parts[1..];
    assert Join(parts, sep) == parts[0] + [sep] + Join(tail, sep);
    if |parts| == 2 {
      assert tail == [parts[1]];
    } else {
      assert tail[0] == parts[1] && tail[1..] == parts[2..];
      assert Join(tail, sep) == tail[0] + [sep] + Join(tail[1..], sep);
    }
  }

  /** Splitting and joining back gives the original text. */
  lemma {:induction false} JoinSplit(s: Text, sep: char)
    ensures Join(Split(s, sep), sep) == s
  {
    if sep in s {
      var i := IndexOf(s, sep).value;
      JoinSplit(s[i + 1..], sep);
      assert Split(s, sep) == [s[..i]] + Split(s[i + 1..], sep);
      assert s == s[..i] + [sep] + s[i + 1..];
    }
  }

  /** Joining separator-free parts and splitting again gives the parts back. */
  lemma {:induction false} SplitJoin(parts: seq<Text>, sep: char)
    requires |parts| >= 1
    requires forall k :: 0 <= k < |parts| ==> sep !in parts[k]
    ensures Split(Join(parts, sep), sep) == parts
  {
    if |parts| > 1 {
      var s := Join(parts, sep);
      var p := parts[0];
      assert s == p + [sep] + Join(parts[1..], sep);
      assert s[|p|] == sep && s[..|p|] == p;
      assert sep in s;
      var i := IndexOf(s, sep).value;
      assert i == |p|;
      SplitJoin(parts[1..], sep);
      assert s[i + 1..] == Join(parts[1..], sep);
    }
  }

  /** Binary order on texts, as the document store compares string
      values: `a` sorts no later than `b`. */
  predicate LexAtMost(a: Text, b: Text) {
    a == [] || (b != [] && (a[0] < b[0] || (a[0] == b[0] && LexAtMost(a[1..], b[1..]))))
  }

  lemma {:induction false} LexTotal(a: Text, b: Text)
    ensures LexAtMost(a, b) || LexAtMost(b, a)
  {
    if a != [] && b != [] && a[0] == b[0] {
      LexTotal(a[1..], b[1..]);
    }
  }

  lemma {:induction false} LexTransitive(a: Text, b: Text, c: Text)
    requires LexAtMost(a, b) && LexAtMost(b, c)
    ensures LexAtMost(a, c)
  {
    if a != [] && b != [] && c != [] && a[0] == b[0] && b[0] == c[0] {
      LexTransitive(a[1..], b[1..], c[1..]);
    }
  }

  /** `parts.join(sep)` for a separator of any length. */
  function JoinWith(parts: seq<Text>, sep: Text): (r: Text)
    ensures parts == [] ==> r == ""
    ensures |parts| == 1 ==> r == parts[0]
  {
    if parts == [] then ""
    else if |parts| == 1 then parts[0]
    else parts[0] + sep + JoinWith(parts[1..], sep)
  }
}
