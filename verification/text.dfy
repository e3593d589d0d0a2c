/** String operations the two chat surfaces build their prompts from:
    Python's `sep.join(parts)`, `str.strip()`, `str.lower()` (ASCII letters)
    and `dict.get(key, default)`. */
module Text {

  /** `sep.join(parts)`: the parts in order, with `sep` between neighbours. */
  function Join(parts: seq<string>, sep: string): string
    decreases |parts|
  {
    if |parts| == 0 then ""
    else if |parts| == 1 then parts[0]
    else parts[0] + sep + Join(parts[1..], sep)
  }

  /** What precedes `parts[i]` in `Join(parts, sep)`: the earlier parts,
      joined, and one separator. */
  function JoinBefore(parts: seq<string>, sep: string, i: nat): string
    requires i <= |parts|
  {
    if i == 0 then "" else Join(parts[..i], sep) + sep
  }

  /** What follows `parts[i]` in `Join(parts, sep)`: one separator and the
      later parts, joined. */
  function JoinAfter(parts: seq<string>, sep: string, i: nat): string
    requires i < |parts|
  {
    if i + 1 == |parts| then "" else sep + Join(parts[i + 1..], sep)
  }

  /** The joined text is every part in its order: part i stands after the
      earlier parts and a separator, and before a separator and the later
      parts. */
  lemma {:induction false} JoinAround(parts: seq<string>, sep: string, i: nat)
    requires i < |parts|
    ensures Join(parts, sep) == JoinBefore(parts, sep, i) + parts[i] + JoinAfter(parts, sep, i)
    decreases i
  {
    if i == 0 {
      if |parts| > 1 {
        assert parts[1..] == parts[i + 1..];
      }
    } else {
      JoinAround(parts[1..], sep, i - 1);
      JoinAroundStep(parts, sep, i);
    }
  }

  /** The step of JoinAround: from the tail's decomposition to the whole
      list's. */
  lemma JoinAroundStep(parts: seq<string>, sep: string, i: nat)
    requires 0 < i < |parts|
    requires Join(parts[1..], sep) ==
             JoinBefore(parts[1..], sep, i - 1) + parts[1..][i - 1] + JoinAfter(parts[1..], sep, i - 1)
    ensures Join(parts, sep) == JoinBefore(parts, sep, i) + parts[i] + JoinAfter(parts, sep, i)
  {
    var tail := parts[1..];
    var before, after := JoinBefore(tail, sep, i - 1), JoinAfter(tail, sep, i - 1);
    assert tail[i - 1] == parts[i];
    assert tail[i..] == parts[i + 1..];
    assert after == JoinAfter(parts, sep, i);
    if i > 1 {
      assert parts[..i][1..] == tail[..i - 1];
      assert Join(parts[..i], sep) == parts[0] + sep + Join(tail[..i - 1], sep);
    }
    assert JoinBefore(parts, sep, i) == parts[0] + sep + before;
    calc {
      Join(parts, sep);
      parts[0] + sep + Join(tail, sep);
      parts[0] + sep + (before + parts[i] + after);
      { SeqAssoc(parts[0] + sep, before, parts[i], after); }
      (parts[0] + sep + before) + parts[i] + after;
    }
  }

  lemma SeqAssoc(a: string, b: string, c: string, d: string)
    ensures a + (b + c + d) == (a + b) + c + d
  {
  }

  /** A text of the shape head + x + mid1 + y + mid2 + z + tail holds x, y
      and z at increasing positions, each exactly once at the stated place. */
  lemma Sections(head: string, x: string, mid1: string, y: string, mid2: string, z: string, tail: string)
    ensures var p := head + x + mid1 + y + mid2 + z + tail;
            var i := |head|;
            var j := i + |x| + |mid1|;
            var k := j + |y| + |mid2|;
            && k + |z| + |tail| == |p|
            && p[..i] == head
            && p[i..i + |x|] == x
            && p[i + |x|..j] == mid1
            && p[j..j + |y|] == y
            && p[j + |y|..k] == mid2
            && p[k..k + |z|] == z
            && p[k + |z|..] == tail
  {
  }

  /** The characters Python's `str.isspace()` accepts, which `str.strip()`
      removes: the ASCII controls 9-13 and 28-31, the space, and the Unicode
      separators NEL, NBSP, OGHAM SPACE MARK, U+2000-U+200A, LINE and
      PARAGRAPH SEPARATOR, NNBSP, MMSP and IDEOGRAPHIC SPACE. */
  predicate IsSpace(c: char)
  {
    || ('\U{0009}' <= c <= '\U{000D}')
    || ('\U{001C}' <= c <= '\U{0020}')
    || c == '\U{0085}' || c == '\U{00A0}' || c == '\U{1680}'
    || ('\U{2000}' <= c <= '\U{200A}')
    || c == '\U{2028}' || c == '\U{2029}' || c == '\U{202F}'
    || c == '\U{205F}' || c == '\U{3000}'
  }

  /** `s.lstrip()`. */
  function StripLeading(s: string): string
    decreases |s|
  {
    if |s| > 0 && IsSpace(s[0]) then StripLeading(s[1..]) else s
  }

  /** `s.rstrip()`. */
  function StripTrailing(s: string): string
    decreases |s|
  {
    if |s| > 0 && IsSpace(s[|s| - 1]) then StripTrailing(s[..|s| - 1]) else s
  }

  /** `s.strip()`. */
  function Strip(s: string): string
  {
    StripTrailing(StripLeading(s))
  }

  /** `s.lstrip()` drops the longest whitespace prefix: what it drops is
      whitespace and what it keeps is empty or starts with a non-space. */
  lemma {:induction false} StripLeadingDropsSpacePrefix(s: string)
    ensures var r := StripLeading(s);
            && |r| <= |s| && r == s[|s| - |r|..]
            && (forall i :: 0 <= i < |s| - |r| ==> IsSpace(s[i]))
            && (r == [] || !IsSpace(r[0]))
    decreases |s|
  {
    if |s| > 0 && IsSpace(s[0]) {
      StripLeadingDropsSpacePrefix(s[1..]);
    }
  }

  /** `s.rstrip()` drops the longest whitespace suffix. */
  lemma {:induction false} StripTrailingDropsSpaceSuffix(s: string)
    ensures var r := StripTrailing(s);
            && |r| <= |s| && r == s[..|r|]
            && (forall i :: |r| <= i < |s| ==> IsSpace(s[i]))
            && (r == [] || !IsSpace(r[|r| - 1]))
    decreases |s|
  {
    if |s| > 0 && IsSpace(s[|s| - 1]) {
      StripTrailingDropsSpaceSuffix(s[..|s| - 1]);
    }
  }

  /** `not s.strip()`: the line is empty once whitespace is stripped. */
  predicate IsBlank(s: string)
  {
    Strip(s) == ""
  }

  /** A line is blank exactly when every character of it is whitespace
      (the empty line included). */
  lemma BlankIffAllSpace(s: string)
    ensures IsBlank(s) <==> forall i :: 0 <= i < |s| ==> IsSpace(s[i])
  {
    StripLeadingDropsSpacePrefix(s);
    StripTrailingDropsSpaceSuffix(StripLeading(s));
  }

  /** `str.lower()` on one character; only the ASCII capitals are mapped. */
  function LowerChar(c: char): char
  {
    if 'A' <= c <= 'Z' then (c as int + 32) as char else c
  }

  /** `s.lower()`, character by character. */
  function Lower(s: string): string
  {
    seq(|s|, i requires 0 <= i < |s| => LowerChar(s[i]))
  }

  /** `m.get(key, default)` on a metadata or message dictionary. */
  function Get(m: map<string, string>, key: string, default: string): string
  {
    if key in m then m[key] else default
  }
}
