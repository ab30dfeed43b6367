/**
 * The string operations the tool borrows from Foundation: decimal rendering in
 * string interpolation, `components(separatedBy: "\n")`, `replacingOccurrences`
 * of one character, and the last component / extension of a path.
 */
module Text {

  // ---------------------------------------------------------------------------
  // Decimal rendering of integers
  // ---------------------------------------------------------------------------

  function DigitChar(d: nat): (c: char)
    requires d < 10
    ensures '0' <= c <= '9' && c as int - '0' as int == d
  {
    ('0' as int + d) as char
  }

  function DigitValue(c: char): nat
    requires '0' <= c <= '9'
  {
    (c as int - '0' as int) as nat
  }

  predicate AllDigits(s: string) {
    forall i :: 0 <= i < |s| ==> '0' <= s[i] <= '9'
  }

  /** The number a string of decimal digits denotes. */
  function DigitsValue(s: string): nat
    requires AllDigits(s)
  {
    if s == [] then 0 else 10 * DigitsValue(s[..|s| - 1]) + DigitValue(s[|s| - 1])
  }

  /** How `\(n)` renders a non-negative `Int`: its decimal digits, with no leading zero. */
  function NatToString(n: nat): (r: string)
    ensures |r| > 0 && AllDigits(r)
    ensures DigitsValue(r) == n
    ensures r == "0" || r[0] != '0'
  {
    if n < 10 then [DigitChar(n)]
    else
      var r := NatToString(n / 10) + [DigitChar(n % 10)];
      assert r[..|r| - 1] == NatToString(n / 10);
      r
  }

  /** How `\(i)` renders an `Int`: a minus sign before the digits of a negative number. */
  function IntToString(i: int): (r: string)
    ensures |r| > 0
    ensures i >= 0 ==> AllDigits(r) && DigitsValue(r) == i
    ensures i < 0 ==> r[0] == '-' && AllDigits(r[1..]) && DigitsValue(r[1..]) == -i
    ensures i >= 0 ==> r == "0" || r[0] != '0'
    ensures i < 0 ==> |r| >= 2 && r[1] != '0'
    ensures ':' !in r
  {
    if i < 0 then "-" + NatToString(-i) else NatToString(i)
  }

  // ---------------------------------------------------------------------------
  // Splitting a text into lines
  // ---------------------------------------------------------------------------

  function CountOf(s: string, c: char): nat {
    if s == [] then 0 else CountOf(s[..|s| - 1], c) + (if s[|s| - 1] == c then 1 else 0)
  }

  /** The index just after the last newline of `s`, or 0 when there is none. */
  function LineStart(s: string): (k: nat)
    ensures k <= |s|
    ensures '\n' !in s[k..]
    ensures k > 0 ==> s[k - 1] == '\n'
  {
    if s == [] then 0
    else if s[|s| - 1] == '\n' then |s|
    else
      var k := LineStart(s[..|s| - 1]);
      assert s[k..] == s[..|s| - 1][k..] + [s[|s| - 1]];
      k
  }

  /**
   * `s.components(separatedBy: "\n")`: the pieces between newlines, so an empty
   * text and a text without newlines are one piece.
   */
  function SplitLines(s: string): (pieces: seq<string>)
    ensures |pieces| >= 1
  {
    if s == [] then [[]]
    else
      var init := SplitLines(s[..|s| - 1]);
      var c := s[|s| - 1];
      if c == '\n' then init + [[]]
      else init[..|init| - 1] + [init[|init| - 1] + [c]]
  }

  /** The inverse of `SplitLines`: the pieces joined with newlines. */
  function JoinLines(pieces: seq<string>): string
    requires |pieces| >= 1
  {
    if |pieces| == 1 then pieces[0]
    else JoinLines(pieces[..|pieces| - 1]) + "\n" + pieces[|pieces| - 1]
  }

  lemma {:induction false} JoinLinesExtendLast(pieces: seq<string>, c: char)
    requires |pieces| >= 1
    ensures JoinLines(pieces[..|pieces| - 1] + [pieces[|pieces| - 1] + [c]]) == JoinLines(pieces) + [c]
  {
    var n := |pieces|;
    var ext := pieces[..n - 1] + [pieces[n - 1] + [c]];
    if n > 1 {
      assert ext[..n - 1] == pieces[..n - 1];
    }
  }

  /** Splitting at newlines loses nothing: joining the pieces gives the text back. */
  lemma {:induction false} SplitLinesRoundTrip(s: string)
    ensures JoinLines(SplitLines(s)) == s
  {
    if s != [] {
      var init := SplitLines(s[..|s| - 1]);
      SplitLinesRoundTrip(s[..|s| - 1]);
      var c := s[|s| - 1];
      if c == '\n' {
        assert (init + [[]])[..|init|] == init;
      } else {
        JoinLinesExtendLast(init, c);
      }
      assert s[..|s| - 1] + [c] == s;
    }
  }

  /** No piece of a split holds a newline. */
  lemma {:induction false} SplitLinesHaveNoNewline(s: string)
    ensures forall i :: 0 <= i < |SplitLines(s)| ==> '\n' !in SplitLines(s)[i]
  {
    if s != [] {
      var init := SplitLines(s[..|s| - 1]);
      SplitLinesHaveNoNewline(s[..|s| - 1]);
      var c := s[|s| - 1];
      var r := SplitLines(s);
      if c == '\n' {
        assert r == init + [[]];
        forall i | 0 <= i < |r| ensures '\n' !in r[i] {
          if i < |init| { assert r[i] == init[i]; }
        }
      } else {
        assert r == init[..|init| - 1] + [init[|init| - 1] + [c]];
        forall i | 0 <= i < |r| ensures '\n' !in r[i] {
          if i < |init| - 1 { assert r[i] == init[i]; }
        }
      }
    }
  }

  /** There is one more line than there are newlines, and the last line is what follows the last newline. */
  lemma {:induction false} SplitLinesShape(s: string)
    ensures |SplitLines(s)| == CountOf(s, '\n') + 1
    ensures SplitLines(s)[|SplitLines(s)| - 1] == s[LineStart(s)..]
  {
    if s != [] {
      var prefix, c := s[..|s| - 1], s[|s| - 1];
      SplitLinesShape(prefix);
      var init := SplitLines(prefix);
      if c == '\n' {
        assert SplitLines(s) == init + [[]];
        assert LineStart(s) == |s|;
      } else {
        assert SplitLines(s) == init[..|init| - 1] + [init[|init| - 1] + [c]];
        assert LineStart(s) == LineStart(prefix);
        assert s[LineStart(s)..] == prefix[LineStart(prefix)..] + [c];
      }
    }
  }

  // ---------------------------------------------------------------------------
  // Removing a character, path components
  // ---------------------------------------------------------------------------

  /** `s.replacingOccurrences(of: String(c), with: "")`. */
  function RemoveAll(s: string, c: char): (r: string)
    ensures c !in r
    ensures forall x {:trigger CountOf(s, x)} :: x != c ==> CountOf(r, x) == CountOf(s, x)
    ensures |r| == |s| - CountOf(s, c)
  {
    if s == [] then []
    else
      var rest := RemoveAll(s[..|s| - 1], c);
      assert s == s[..|s| - 1] + [s[|s| - 1]];
      if s[|s| - 1] == c then rest else rest + [s[|s| - 1]]
  }

  /** Removing a character keeps the order of what remains: it works piece by piece. */
  lemma {:induction false} RemoveAllAppend(a: string, b: string, c: char)
    ensures RemoveAll(a + b, c) == RemoveAll(a, c) + RemoveAll(b, c)
    decreases |b|
  {
    if b == [] {
      assert a + b == a;
    } else {
      var b', x := b[..|b| - 1], b[|b| - 1];
      var kept := if x == c then [] else [x];
      assert RemoveAll(a + b, c) == RemoveAll(a + b', c) + kept by {
        assert a + b == (a + b') + [x];
        RemoveAllSnoc(a + b', x, c);
      }
      assert RemoveAll(b, c) == RemoveAll(b', c) + kept by {
        assert b == b' + [x];
        RemoveAllSnoc(b', x, c);
      }
      RemoveAllAppend(a, b', c);
      var ra, rb' := RemoveAll(a, c), RemoveAll(b', c);
      assert (ra + rb') + kept == ra + (rb' + kept);
    }
  }

  lemma RemoveAllSnoc(s: string, x: char, c: char)
    ensures RemoveAll(s + [x], c) == RemoveAll(s, c) + (if x == c then [] else [x])
  {
    assert (s + [x])[..|s|] == s;
  }

  /** A single character survives the removal exactly when it is not the one removed. */
  lemma RemoveAllOne(x: char, c: char)
    ensures RemoveAll([x], c) == (if x == c then [] else [x])
  {
    assert [x][..0] == [];
  }

  /** The index just after the last occurrence of `c` in `s`, or 0 when there is none. */
  function AfterLast(s: string, c: char): (k: nat)
    ensures k <= |s|
    ensures c !in s[k..]
    ensures k > 0 ==> s[k - 1] == c
  {
    if s == [] then 0
    else if s[|s| - 1] == c then |s|
    else
      var k := AfterLast(s[..|s| - 1], c);
      assert s[k..] == s[..|s| - 1][k..] + [s[|s| - 1]];
      k
  }

  /** `URL.lastPathComponent` for a path without a trailing slash: the text after the last '/'. */
  function LastPathComponent(path: string): (r: string)
    ensures '/' !in r
    ensures |r| <= |path| && r == path[|path| - |r|..]
    ensures |r| == |path| || path[|path| - |r| - 1] == '/'
  {
    path[AfterLast(path, '/')..]
  }

  /** `URL.pathExtension`: the text after the last '.' of the last path component, or "" when it has no '.'. */
  function PathExtension(path: string): (r: string)
    ensures '.' !in r && '/' !in r
    ensures '.' !in LastPathComponent(path) ==> r == ""
    ensures var name := LastPathComponent(path);
      '.' in name ==> |r| < |name| && r == name[|name| - |r|..] && name[|name| - |r| - 1] == '.'
  {
    var name := LastPathComponent(path);
    var k := AfterLast(name, '.');
    if k == 0 then "" else name[k..]
  }

  /** Text after the last occurrence of `c` does not move that occurrence. */
  lemma {:induction false} AfterLastIgnoresTail(s: string, t: string, c: char)
    requires c !in t
    ensures AfterLast(s + t, c) == AfterLast(s, c)
    decreases |t|
  {
    if t != [] {
      var st := s + t;
      assert st[..|st| - 1] == s + t[..|t| - 1];
      AfterLastIgnoresTail(s, t[..|t| - 1], c);
    } else {
      assert s + t == s;
    }
  }

  /** The text before and after the last `c` of `s`; all of `s` comes after when there is none. */
  function SplitAtLast(s: string, c: char): (parts: (string, string))
    ensures c !in parts.1
  {
    var k := AfterLast(s, c);
    (if k == 0 then "" else s[..k - 1], s[k..])
  }

  /** A mark followed by text without it splits there. */
  lemma SplitAtLastMark(q: string, t: string, c: char)
    requires c !in t
    ensures SplitAtLast(q + [c] + t, c) == (q, t)
  {
    AfterLastIgnoresTail(q + [c], t, c);
    var qc := q + [c];
    assert qc[|qc| - 1] == c;
    var s := q + [c] + t;
    assert s[..|q|] == q && s[|q| + 1..] == t;
  }

  /**
   * The location text `<path>:<line>:<column>` read back: the text after the
   * last colon, the text between the last two, and what precedes them.
   */
  function LocationParts(s: string): (parts: (string, string, string))
    ensures ':' !in parts.1 && ':' !in parts.2
  {
    var (rest, column) := SplitAtLast(s, ':');
    var (path, line) := SplitAtLast(rest, ':');
    (path, line, column)
  }

  /** Joining a path and two colon-free fields with colons reads back as the same three parts. */
  lemma LocationPartsRoundTrip(p: string, a: string, b: string)
    requires ':' !in a && ':' !in b
    ensures LocationParts(p + ":" + a + ":" + b) == (p, a, b)
  {
    SplitAtLastMark(p + ":" + a, b, ':');
    SplitAtLastMark(p, a, ':');
  }

  /** A path ending in `.ext`, with no dot or slash in `ext`, has extension `ext`. */
  lemma PathExtensionOf(p: string, ext: string)
    requires '.' !in ext && '/' !in ext
    ensures PathExtension(p + "." + ext) == ext
  {
    var path := p + "." + ext;
    var k := AfterLast(p, '/');
    var name := p[k..] + "." + ext;
    assert LastPathComponent(path) == name by {
      assert path == p + ("." + ext);
      AfterLastIgnoresTail(p, "." + ext, '/');
    }
    SplitAtLastMark(p[k..], ext, '.');
    assert name[|p[k..]|] == '.';
  }

}
