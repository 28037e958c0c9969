/** String functions behind ZFTool's naming conventions: the Zend word
    filters (underscore/dash to camel case, camel case to dash, separator
    replacement, lower-casing), PHP's lcfirst, rtrim, str_replace and implode.
    Characters are treated as ASCII: only 'A'..'Z' and 'a'..'z' have a case. */
module Words {

  predicate IsUpper(c: char) { 'A' <= c <= 'Z' }
  predicate IsLower(c: char) { 'a' <= c <= 'z' }
  predicate IsDigit(c: char) { '0' <= c <= '9' }

  const UpperLetters := "ABCDEFGHIJKLMNOPQRSTUVWXYZ"
  const LowerLetters := "abcdefghijklmnopqrstuvwxyz"

  /** A word separator of the convention filters. */
  predicate IsSeparator(c: char) { c == '-' || c == '_' }

  function ToUpper(c: char): (u: char)
    ensures !IsLower(u)
    ensures IsLower(c) ==> IsUpper(u)
    ensures IsLower(c) ==> u == UpperLetters[c as int - 'a' as int]
    ensures !IsLower(c) ==> u == c
  {
    if IsLower(c) then (c as int - 32) as char else c
  }

  function ToLower(c: char): (l: char)
    ensures !IsUpper(l)
    ensures IsUpper(c) ==> IsLower(l)
    ensures IsUpper(c) ==> l == LowerLetters[c as int - 'A' as int]
    ensures !IsUpper(c) ==> l == c
  {
    if IsUpper(c) then (c as int + 32) as char else c
  }

  // ---------------------------------------------------------------------
  // Separator to camel case (Word\UnderscoreToCamelCase, Word\DashToCamelCase)
  // ---------------------------------------------------------------------

  /** Drops every `sep` and upper-cases the character after it; `up` says
      whether the next kept character is upper-cased (true at the start,
      which gives the filter's upper-case first letter). */
  function SeparatorToCamelCase(s: string, sep: char, up: bool): (r: string)
    requires !IsUpper(sep)
    ensures sep !in r
    ensures |r| <= |s|
  {
    if s == [] then []
    else if s[0] == sep then SeparatorToCamelCase(s[1..], sep, true)
    else [if up then ToUpper(s[0]) else s[0]] + SeparatorToCamelCase(s[1..], sep, false)
  }

  function UnderscoreToCamelCase(s: string): (r: string)
    ensures '_' !in r
  {
    SeparatorToCamelCase(s, '_', true)
  }

  function DashToCamelCase(s: string): (r: string)
    ensures '-' !in r
  {
    SeparatorToCamelCase(s, '-', true)
  }

  /** Reference definition: camel case with both '-' and '_' as separators. */
  function Camelize(s: string, up: bool): (r: string)
    ensures '-' !in r && '_' !in r
    ensures |r| <= |s|
  {
    if s == [] then []
    else if IsSeparator(s[0]) then Camelize(s[1..], true)
    else [if up then ToUpper(s[0]) else s[0]] + Camelize(s[1..], false)
  }

  /** The name a class-style identifier gets in convention mode. */
  function ConventionName(s: string): (r: string)
    ensures '-' !in r && '_' !in r
  {
    Camelize(s, true)
  }

  /** Underscores first, then dashes, is camel case over both separators. */
  lemma {:induction false} UnderscoreThenDash(s: string, a: bool, b: bool)
    ensures SeparatorToCamelCase(SeparatorToCamelCase(s, '_', a), '-', b) == Camelize(s, a || b)
    decreases |s|
  {
    if s != [] {
      var t := s[1..];
      if s[0] == '_' {
        UnderscoreThenDash(t, true, b);
      } else if s[0] == '-' {
        var x := SeparatorToCamelCase(t, '_', false);
        assert SeparatorToCamelCase(s, '_', a) == ['-'] + x;
        assert (['-'] + x)[1..] == x;
        UnderscoreThenDash(t, false, true);
      } else {
        var x := SeparatorToCamelCase(t, '_', false);
        var c := if a then ToUpper(s[0]) else s[0];
        assert SeparatorToCamelCase(s, '_', a) == [c] + x;
        assert ([c] + x)[1..] == x;
        UnderscoreThenDash(t, false, false);
      }
    }
  }

  /** Turning one separator into the other and then camel-casing on the
      second is camel case over both separators. */
  lemma {:induction false} ReplaceThenCamel(s: string, other: char, sep: char, up: bool)
    requires IsSeparator(sep) && IsSeparator(other) && sep != other
    ensures SeparatorToCamelCase(Replace(s, other, sep), sep, up) == Camelize(s, up)
    decreases |s|
  {
    if s != [] {
      var t := s[1..];
      var h := if s[0] == other then sep else s[0];
      assert Replace(s, other, sep) == [h] + Replace(t, other, sep);
      assert ([h] + Replace(t, other, sep))[1..] == Replace(t, other, sep);
      ReplaceThenCamel(t, other, sep, IsSeparator(s[0]));
    }
  }

  // ---------------------------------------------------------------------
  // Separator replacement (Word\DashToUnderscore, Word\UnderscoreToDash)
  // ---------------------------------------------------------------------

  function Replace(s: string, from: char, to: char): (r: string)
    ensures |r| == |s|
    ensures forall i :: 0 <= i < |s| && s[i] != from ==> r[i] == s[i]
    ensures forall i :: 0 <= i < |s| && s[i] == from ==> r[i] == to
    ensures from != to ==> from !in r
  {
    if s == [] then [] else [if s[0] == from then to else s[0]] + Replace(s[1..], from, to)
  }

  function DashToUnderscore(s: string): (r: string)
    ensures '-' !in r
  {
    Replace(s, '-', '_')
  }

  function UnderscoreToDash(s: string): (r: string)
    ensures '_' !in r
  {
    Replace(s, '_', '-')
  }

  // ---------------------------------------------------------------------
  // Camel case to dash (Word\CamelCaseToDash) and lower-casing
  // ---------------------------------------------------------------------

  /** A dash goes before an upper-case letter that follows a lower-case
      letter or a digit, or that follows an upper-case letter and is itself
      followed by a lower-case one ("HTMLPage" becomes "HTML-Page"). */
  predicate DashBefore(s: string, i: nat)
    requires i < |s|
  {
    0 < i && IsUpper(s[i]) &&
    (IsLower(s[i - 1]) || IsDigit(s[i - 1]) ||
     (IsUpper(s[i - 1]) && i + 1 < |s| && IsLower(s[i + 1])))
  }

  function CamelCaseToDashFrom(s: string, i: nat): (r: string)
    requires i <= |s|
    decreases |s| - i
  {
    if i == |s| then []
    else (if DashBefore(s, i) then "-" else "") + [s[i]] + CamelCaseToDashFrom(s, i + 1)
  }

  /** Word\CamelCaseToDash; CamelCaseToDashOnlyAddsDashes states what it keeps. */
  function CamelCaseToDash(s: string): string
  {
    CamelCaseToDashFrom(s, 0)
  }

  /** `s` without any occurrence of `c`. */
  function Without(s: string, c: char): (r: string)
    ensures c !in r
  {
    if s == [] then [] else (if s[0] == c then [] else [s[0]]) + Without(s[1..], c)
  }

  lemma {:induction false} WithoutConcat(a: string, b: string, c: char)
    ensures Without(a + b, c) == Without(a, c) + Without(b, c)
    decreases |a|
  {
    if a != [] {
      assert (a + b)[1..] == a[1..] + b;
      WithoutConcat(a[1..], b, c);
    } else {
      assert a + b == b;
    }
  }

  lemma {:induction false} CamelCaseToDashFromOnlyAddsDashes(s: string, i: nat)
    requires i <= |s|
    ensures Without(CamelCaseToDashFrom(s, i), '-') == Without(s[i..], '-')
    decreases |s| - i
  {
    if i < |s| {
      var d: string := if DashBefore(s, i) then "-" else "";
      var x := [s[i]];
      var rest := CamelCaseToDashFrom(s, i + 1);
      calc {
        Without(CamelCaseToDashFrom(s, i), '-');
        Without((d + x) + rest, '-');
        { WithoutConcat(d + x, rest, '-'); }
        Without(d + x, '-') + Without(rest, '-');
        { if DashBefore(s, i) { WithoutLeadingDash(x); } else { assert d + x == x; } }
        Without(x, '-') + Without(rest, '-');
        { CamelCaseToDashFromOnlyAddsDashes(s, i + 1); }
        Without(x, '-') + Without(s[i + 1..], '-');
        { WithoutConcat(x, s[i + 1..], '-'); }
        Without(x + s[i + 1..], '-');
        { assert s[i..] == x + s[i + 1..]; }
        Without(s[i..], '-');
      }
    }
  }

  lemma WithoutLeadingDash(y: string)
    ensures Without("-" + y, '-') == Without(y, '-')
  {
    assert ("-" + y)[1..] == y;
  }

  /** CamelCaseToDash only inserts dashes: removing all dashes from its
      result gives the input with its own dashes removed. */
  lemma CamelCaseToDashOnlyAddsDashes(s: string)
    ensures Without(CamelCaseToDash(s), '-') == Without(s, '-')
  {
    CamelCaseToDashFromOnlyAddsDashes(s, 0);
    assert s[0..] == s;
  }

  /** The StringToLower filter, on ASCII letters. */
  function StringToLower(s: string): (r: string)
    ensures |r| == |s|
    ensures forall i :: 0 <= i < |r| ==> !IsUpper(r[i])
    ensures forall i :: 0 <= i < |s| && !IsUpper(s[i]) ==> r[i] == s[i]
    ensures forall i :: 0 <= i < |s| && IsUpper(s[i]) ==> r[i] == LowerLetters[s[i] as int - 'A' as int]
  {
    if s == [] then [] else [ToLower(s[0])] + StringToLower(s[1..])
  }

  /** PHP's lcfirst. */
  function LcFirst(s: string): (r: string)
    ensures |r| == |s|
    ensures 0 < |s| ==> !IsUpper(r[0]) && r[1..] == s[1..]
    ensures 0 < |s| && !IsUpper(s[0]) ==> r == s
    ensures 0 < |s| && IsUpper(s[0]) ==> r[0] == LowerLetters[s[0] as int - 'A' as int]
  {
    if s == [] then [] else [ToLower(s[0])] + s[1..]
  }

  // ---------------------------------------------------------------------
  // PHP string functions: rtrim, str_replace, implode
  // ---------------------------------------------------------------------

  /** PHP's rtrim with a one-character list: strips every trailing `c`. */
  function RTrim(s: string, c: char): (r: string)
    ensures r <= s
    ensures r == [] || r[|r| - 1] != c
    ensures forall i :: |r| <= i < |s| ==> s[i] == c
    decreases |s|
  {
    if 0 < |s| && s[|s| - 1] == c then RTrim(s[..|s| - 1], c) else s
  }

  /** `p` occurs in `s` at position `i`. */
  predicate OccursAt(s: string, p: string, i: int)
  {
    0 <= i && i + |p| <= |s| && s[i..i + |p|] == p
  }

  /** `p` occurs somewhere in `s`. */
  ghost predicate Occurs(s: string, p: string)
  {
    exists i :: OccursAt(s, p, i)
  }

  /** PHP's str_replace: every occurrence of `p`, scanned left to right
      without overlap, is replaced by `q`. */
  function ReplaceAll(s: string, p: string, q: string): (r: string)
    requires 0 < |p|
    ensures |p| == |q| ==> |r| == |s|
    decreases |s|
  {
    if |s| < |p| then s
    else if s[..|p|] == p then q + ReplaceAll(s[|p|..], p, q)
    else [s[0]] + ReplaceAll(s[1..], p, q)
  }

  /** A result that does not start like the replacement starts with the
      input's first character, and the rest is the replacement of the rest. */
  lemma ReplaceAllHead(t: string, p: string, q: string)
    requires 0 < |p| == |q| && 0 < |t|
    ensures ReplaceAll(t, p, q)[0] != q[0] ==>
      ReplaceAll(t, p, q) == [t[0]] + ReplaceAll(t[1..], p, q)
  {
    if |t| < |p| {
      assert t == [t[0]] + t[1..];
    }
  }

  /** Replacing by a different string of the same length changes `s`
      exactly when the pattern occurs in it. */
  lemma {:induction false} ReplaceAllChangesIffOccurs(s: string, p: string, q: string)
    requires 0 < |p| && |p| == |q| && p != q
    ensures ReplaceAll(s, p, q) == s <==> !Occurs(s, p)
    decreases |s|
  {
    var r := ReplaceAll(s, p, q);
    if |s| < |p| {
      assert forall i :: !OccursAt(s, p, i);
    } else if s[..|p|] == p {
      assert OccursAt(s, p, 0);
      assert r[..|p|] == q;
    } else {
      var t := s[1..];
      ReplaceAllChangesIffOccurs(t, p, q);
      OccursInTail(s, p);
      assert r == [s[0]] + ReplaceAll(t, p, q);
      assert s == [s[0]] + t;
      if r == s {
        assert r[1..] == s[1..];
      }
    }
  }

  /** An occurrence that does not start at the front is one in the tail. */
  lemma OccursInTail(s: string, p: string)
    requires 0 < |p| <= |s| && s[..|p|] != p
    ensures Occurs(s, p) <==> Occurs(s[1..], p)
  {
    var t := s[1..];
    if Occurs(s, p) {
      var i :| OccursAt(s, p, i);
      assert i != 0;
      assert t[i - 1..i - 1 + |p|] == s[i..i + |p|];
      assert OccursAt(t, p, i - 1);
    }
    if Occurs(t, p) {
      var j :| OccursAt(t, p, j);
      assert s[j + 1..j + 1 + |p|] == t[j..j + |p|];
      assert OccursAt(s, p, j + 1);
    }
  }

  /** PHP's implode with a one-character glue. */
  function Join(lines: seq<string>, sep: char): (r: string)
    ensures 0 < |lines| ==> lines[0] <= r
    ensures 0 < |lines| ==> var last := lines[|lines| - 1];
      |last| <= |r| && r[|r| - |last|..] == last
    ensures |lines| == 0 ==> r == []
  {
    if |lines| == 0 then []
    else if |lines| == 1 then lines[0]
    else lines[0] + [sep] + Join(lines[1..], sep)
  }

  /** Reference definition: the pieces of `s` between occurrences of `sep`
      (PHP's explode). */
  function Split(s: string, sep: char): (r: seq<string>)
    ensures 0 < |r|
    ensures forall k :: 0 <= k < |r| ==> sep !in r[k]
  {
    if s == [] then [[]]
    else
      var rest := Split(s[1..], sep);
      if s[0] == sep then [[]] + rest
      else [[s[0]] + rest[0]] + rest[1..]
  }

  lemma {:induction false} SplitWithoutSeparator(x: string, sep: char)
    requires sep !in x
    ensures Split(x, sep) == [x]
    decreases |x|
  {
    if x != [] {
      SplitWithoutSeparator(x[1..], sep);
      assert [x[0]] + x[1..] == x;
    }
  }

  lemma {:induction false} SplitAfterFirstLine(x: string, rest: string, sep: char)
    requires sep !in x
    ensures Split(x + [sep] + rest, sep) == [x] + Split(rest, sep)
    decreases |x|
  {
    var s := x + [sep] + rest;
    if x == [] {
      assert s[1..] == rest;
    } else {
      assert s[1..] == x[1..] + [sep] + rest;
      SplitAfterFirstLine(x[1..], rest, sep);
      assert [x[0]] + x[1..] == x;
    }
  }

  /** Splitting joined lines gives the lines back, when none contains the glue. */
  lemma {:induction false} SplitJoin(lines: seq<string>, sep: char)
    requires 0 < |lines|
    requires forall k :: 0 <= k < |lines| ==> sep !in lines[k]
    ensures Split(Join(lines, sep), sep) == lines
    decreases |lines|
  {
    if |lines| == 1 {
      SplitWithoutSeparator(lines[0], sep);
    } else {
      SplitAfterFirstLine(lines[0], Join(lines[1..], sep), sep);
      SplitJoin(lines[1..], sep);
      assert [lines[0]] + lines[1..] == lines;
    }
  }
}
