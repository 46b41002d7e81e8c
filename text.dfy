/**
 * The string operations the plugins rely on: substring search (Python's `in`),
 * whitespace, `str.strip`, `str.replace('\t', '    ')`, `str.split('\n')` and
 * its inverse `'\n'.join`. Characters are Unicode scalar values; whitespace is
 * the set Python's `str.isspace` uses, which `str.strip` and the `\s` of a
 * `str` pattern share.
 */
module Text {

  /**
   * The characters Python treats as whitespace in `str.isspace`, `str.strip`
   * and the `\s` of a `str` pattern: the ten ASCII ones (tab to carriage
   * return, the four separators U+001C to U+001F, and space), then U+0085,
   * U+00A0, U+1680, U+2000 to U+200A, U+2028, U+2029, U+202F, U+205F and U+3000.
   */
  predicate IsSpace(c: char) {
    || '\t' <= c <= '\r'
    || '\U{1C}' <= c <= ' '
    || c == '\U{85}' || c == '\U{A0}' || c == '\U{1680}'
    || '\U{2000}' <= c <= '\U{200A}'
    || c == '\U{2028}' || c == '\U{2029}' || c == '\U{202F}' || c == '\U{205F}' || c == '\U{3000}'
  }

  predicate OccursAt(s: string, sub: string, i: nat) {
    i + |sub| <= |s| && s[i..i + |sub|] == sub
  }

  /** Python's `sub in s`. */
  predicate Contains(s: string, sub: string)
    decreases |s|
  {
    OccursAt(s, sub, 0) || (s != [] && Contains(s[1..], sub))
  }

  /** `Contains` holds exactly when `sub` occurs at some position of `s`. */
  lemma {:induction false} ContainsOccurs(s: string, sub: string)
    ensures Contains(s, sub) <==> exists i: nat :: i <= |s| && OccursAt(s, sub, i)
    decreases |s|
  {
    if s != [] {
      ContainsOccurs(s[1..], sub);
      if Contains(s[1..], sub) {
        var i: nat :| i <= |s[1..]| && OccursAt(s[1..], sub, i);
        assert s[1..][i..i + |sub|] == s[i + 1..i + 1 + |sub|];
        assert OccursAt(s, sub, i + 1);
      }
      if !OccursAt(s, sub, 0) && exists i: nat :: i <= |s| && OccursAt(s, sub, i) {
        var i: nat :| i <= |s| && OccursAt(s, sub, i);
        assert i > 0;
        assert s[1..][i - 1..i - 1 + |sub|] == s[i..i + |sub|];
        assert OccursAt(s[1..], sub, i - 1);
      }
    }
  }

  /** The literal marker the device prints in front of a rejected command. */
  const ErrMarker: string := "ERR:"

  predicate HasErrMarker(s: string) {
    Contains(s, ErrMarker)
  }

  /** Python's `s.replace('\t', '    ')`. */
  function ReplaceTabs(s: string): (r: string)
    ensures '\t' !in r
  {
    if s == [] then []
    else (if s[0] == '\t' then "    " else [s[0]]) + ReplaceTabs(s[1..])
  }

  /** A string without a tab is left exactly as it is. */
  lemma {:induction false} ReplaceTabsTabFree(s: string)
    ensures '\t' !in s ==> ReplaceTabs(s) == s
    decreases |s|
  {
    if s != [] && '\t' !in s {
      assert '\t' !in s[1..];
      ReplaceTabsTabFree(s[1..]);
      assert [s[0]] + s[1..] == s;
    }
  }

  /** A lone tab becomes four spaces, and any other character stays as it is. */
  lemma ReplaceTabsChar(c: char)
    ensures ReplaceTabs([c]) == if c == '\t' then "    " else [c]
  {
    assert [c][1..] == [];
  }

  /** A non-empty string is replaced as its first character followed by the rest. */
  lemma ReplaceTabsCons(x: char, t: string)
    ensures ReplaceTabs([x] + t) == ReplaceTabs([x]) + ReplaceTabs(t)
  {
    assert ([x] + t)[0] == x && ([x] + t)[1..] == t;
    assert [x][1..] == [];
    assert ReplaceTabs([x][1..]) == [];
  }

  /** The replacement works character by character, so it keeps the order of the text around each tab. */
  lemma {:induction false} ReplaceTabsAppend(a: string, b: string)
    ensures ReplaceTabs(a + b) == ReplaceTabs(a) + ReplaceTabs(b)
    decreases |a|
  {
    if a == [] {
      assert a + b == b;
    } else {
      var x, t := a[0], a[1..];
      assert a == [x] + t;
      assert a + b == [x] + (t + b);
      ReplaceTabsCons(x, t + b);
      ReplaceTabsAppend(t, b);
      ReplaceTabsCons(x, t);
      assert ReplaceTabs([x]) + (ReplaceTabs(t) + ReplaceTabs(b))
          == (ReplaceTabs([x]) + ReplaceTabs(t)) + ReplaceTabs(b);
    }
  }


  ghost predicate CharsFrom(part: string, s: string) {
    forall c :: c in part ==> c in s
  }

  /** Python's `s.split(sep)` for a one-character separator. */
  function Split(s: string, sep: char): (r: seq<string>)
    ensures |r| >= 1
    ensures forall i :: 0 <= i < |r| ==> sep !in r[i] && CharsFrom(r[i], s)
  {
    if s == [] then [""]
    else
      var rest := Split(s[1..], sep);
      if s[0] == sep then [""] + rest
      else [[s[0]] + rest[0]] + rest[1..]
  }

  /** Python's `sep.join(parts)` for a one-character separator. */
  function Join(parts: seq<string>, sep: char): string {
    if |parts| == 0 then ""
    else if |parts| == 1 then parts[0]
    else parts[0] + [sep] + Join(parts[1..], sep)
  }

  /** Joining the pieces of a split with the separator gives back the string. */
  lemma {:induction false} JoinSplit(s: string, sep: char)
    ensures Join(Split(s, sep), sep) == s
  {
    if s != [] {
      var rest := Split(s[1..], sep);
      JoinSplit(s[1..], sep);
      if s[0] == sep {
        calc {
          Join(Split(s, sep), sep);
          Join([""] + rest, sep);
          "" + [sep] + Join(rest, sep);
          [s[0]] + s[1..];
          s;
        }
      } else if |rest| == 1 {
        assert Join(Split(s, sep), sep) == [s[0]] + rest[0];
        assert rest[0] == Join(rest, sep);
      } else {
        var parts := [[s[0]] + rest[0]] + rest[1..];
        assert parts[1..] == rest[1..];
        assert Join(parts, sep) == [s[0]] + rest[0] + [sep] + Join(rest[1..], sep);
        assert Join(rest, sep) == rest[0] + [sep] + Join(rest[1..], sep);
      }
    }
  }

  /** Splitting a join of separator-free pieces gives back the pieces. */
  lemma {:induction false} SplitJoin(parts: seq<string>, sep: char)
    requires |parts| >= 1
    requires forall i :: 0 <= i < |parts| ==> sep !in parts[i]
    ensures Split(Join(parts, sep), sep) == parts
  {
    if |parts| == 1 {
      SplitNoSep(parts[0], sep);
    } else {
      SplitJoin(parts[1..], sep);
      SplitAfter(parts[0], sep, Join(parts[1..], sep));
      assert [parts[0]] + parts[1..] == parts;
    }
  }

  /** A string without the separator splits into itself. */
  lemma {:induction false} SplitNoSep(s: string, sep: char)
    requires sep !in s
    ensures Split(s, sep) == [s]
  {
    if s != [] {
      SplitNoSep(s[1..], sep);
      assert [s[0]] + s[1..] == s;
    }
  }

  /** Splitting `w + [sep] + t`, where `w` has no separator, yields `w` followed by the split of `t`. */
  lemma {:induction false} SplitAfter(w: string, sep: char, t: string)
    requires sep !in w
    ensures Split(w + [sep] + t, sep) == [w] + Split(t, sep)
  {
    if w == [] {
      assert w + [sep] + t == [sep] + t;
      assert ([sep] + t)[1..] == t;
    } else {
      var s := w + [sep] + t;
      assert s[0] == w[0];
      assert s[1..] == w[1..] + [sep] + t;
      SplitAfter(w[1..], sep, t);
      assert [w[0]] + w[1..] == w;
    }
  }

  /** The end of the run of whitespace that starts at `i`. */
  function SpacesEnd(s: string, i: nat): (j: nat)
    requires i <= |s|
    ensures i <= j <= |s|
    ensures forall k :: i <= k < j ==> IsSpace(s[k])
    ensures j < |s| ==> !IsSpace(s[j])
    decreases |s| - i
  {
    if i < |s| && IsSpace(s[i]) then SpacesEnd(s, i + 1) else i
  }

  /** The start of the run of whitespace that ends at `j`, going back no further than `lo`. */
  function SpacesStart(s: string, lo: nat, j: nat): (i: nat)
    requires lo <= j <= |s|
    ensures lo <= i <= j
    ensures forall k :: i <= k < j ==> IsSpace(s[k])
    ensures lo < i ==> !IsSpace(s[i - 1])
    decreases j
  {
    if lo < j && IsSpace(s[j - 1]) then SpacesStart(s, lo, j - 1) else j
  }

  /** Python's `s.strip()`: the text between the leading and the trailing whitespace. */
  function Strip(s: string): (r: string)
    ensures r == [] || (!IsSpace(r[0]) && !IsSpace(r[|r| - 1]))
    ensures exists i, j ::
      && 0 <= i <= j <= |s| && r == s[i..j]
      && (forall k :: 0 <= k < i ==> IsSpace(s[k]))
      && (forall k :: j <= k < |s| ==> IsSpace(s[k]))
  {
    var i := SpacesEnd(s, 0);
    s[i..SpacesStart(s, i, |s|)]
  }
}
