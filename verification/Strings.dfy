// The string operations that the providers use on paths.
module Strings {
  // The characters that Go's strings.TrimSpace removes.
  const SPACES: set<char> := {
    '\U{0009}', '\U{000A}', '\U{000B}', '\U{000C}', '\U{000D}', ' ', '\U{0085}', '\U{00A0}', '\U{1680}', '\U{2000}',
    '\U{2001}', '\U{2002}', '\U{2003}', '\U{2004}', '\U{2005}', '\U{2006}', '\U{2007}', '\U{2008}', '\U{2009}',
    '\U{200A}', '\U{2028}', '\U{2029}', '\U{202F}', '\U{205F}', '\U{3000}'}

  const SLASH: set<char> := {'/'}

  function TrimLeft(s: string, cut: set<char>): string {
    if s != "" && s[0] in cut then TrimLeft(s[1..], cut) else s
  }

  function TrimRight(s: string, cut: set<char>): string {
    if s != "" && s[|s| - 1] in cut then TrimRight(s[..|s| - 1], cut) else s
  }

  function Trim(s: string, cut: set<char>): string {
    TrimRight(TrimLeft(s, cut), cut)
  }

  function TrimSpace(s: string): string {
    Trim(s, SPACES)
  }

  function TrimSlash(s: string): string {
    Trim(s, SLASH)
  }

  predicate AllIn(s: string, cut: set<char>) {
    forall i :: 0 <= i < |s| ==> s[i] in cut
  }

  // There is nothing to trim.
  predicate Bare(s: string, cut: set<char>) {
    s != "" ==> s[0] !in cut && s[|s| - 1] !in cut
  }

  lemma {:induction false} TrimLeftParts(s: string, cut: set<char>) returns (a: string)
    ensures s == a + TrimLeft(s, cut) && AllIn(a, cut)
    ensures TrimLeft(s, cut) != "" ==> TrimLeft(s, cut)[0] !in cut
  {
    if s != "" && s[0] in cut {
      a := TrimLeftParts(s[1..], cut);
      a := [s[0]] + a;
      assert s == [s[0]] + s[1..];
    } else {
      a := "";
    }
  }

  lemma {:induction false} TrimRightParts(s: string, cut: set<char>) returns (b: string)
    ensures s == TrimRight(s, cut) + b && AllIn(b, cut)
    ensures TrimRight(s, cut) != "" ==> TrimRight(s, cut)[|TrimRight(s, cut)| - 1] !in cut
  {
    if s != "" && s[|s| - 1] in cut {
      b := TrimRightParts(s[..|s| - 1], cut);
      b := b + [s[|s| - 1]];
      assert s == s[..|s| - 1] + [s[|s| - 1]];
    } else {
      b := "";
    }
  }

  // What remains of a string is bare, and only characters of the cut set go.
  lemma TrimParts(s: string, cut: set<char>) returns (a: string, b: string)
    ensures s == a + Trim(s, cut) + b && AllIn(a, cut) && AllIn(b, cut) && Bare(Trim(s, cut), cut)
  {
    a := TrimLeftParts(s, cut);
    var t := TrimLeft(s, cut);
    b := TrimRightParts(t, cut);
    assert Trim(s, cut) != "" ==> t[0] == Trim(s, cut)[0];
    assert s == a + (Trim(s, cut) + b) == a + Trim(s, cut) + b;
  }

  lemma {:induction false} TrimLeftSkips(a: string, s: string, cut: set<char>)
    requires AllIn(a, cut)
    ensures TrimLeft(a + s, cut) == TrimLeft(s, cut)
  {
    if a == "" {
      assert a + s == s;
    } else {
      assert (a + s)[1..] == a[1..] + s;
      assert (a + s)[0] == a[0];
      TrimLeftSkips(a[1..], s, cut);
    }
  }

  lemma {:induction false} TrimRightSkips(s: string, b: string, cut: set<char>)
    requires AllIn(b, cut)
    ensures TrimRight(s + b, cut) == TrimRight(s, cut)
  {
    if b == "" {
      assert s + b == s;
    } else {
      assert (s + b)[..|s + b| - 1] == s + b[..|b| - 1];
      assert (s + b)[|s + b| - 1] == b[|b| - 1];
      TrimRightSkips(s, b[..|b| - 1], cut);
    }
  }

  // The bare part of a string is unique.
  lemma TrimIs(a: string, t: string, b: string, cut: set<char>)
    requires AllIn(a, cut) && AllIn(b, cut) && Bare(t, cut)
    ensures Trim(a + t + b, cut) == t
  {
    assert a + t + b == a + (t + b);
    TrimLeftSkips(a, t + b, cut);
    if t == "" {
      assert t + b == b + "";
      TrimLeftSkips(b, "", cut);
    } else {
      assert (t + b)[0] == t[0];
      TrimRightSkips(t, b, cut);
    }
  }

  lemma TrimBare(t: string, cut: set<char>)
    requires Bare(t, cut)
    ensures Trim(t, cut) == t
  {
  }

  lemma TrimIsBare(s: string, cut: set<char>)
    ensures Bare(Trim(s, cut), cut) && Trim(Trim(s, cut), cut) == Trim(s, cut)
  {
    var a, b := TrimParts(s, cut);
  }

  // Normalising takes spaces off the ends, and then slashes; nothing else goes, and none of them stays.
  lemma NormalizedParts(s: string) returns (a: string, b: string, c: string, d: string)
    ensures s == a + b + TrimSlash(TrimSpace(s)) + c + d
    ensures AllIn(a, SPACES) && AllIn(d, SPACES) && AllIn(b, SLASH) && AllIn(c, SLASH)
    ensures Bare(b + TrimSlash(TrimSpace(s)) + c, SPACES) && Bare(TrimSlash(TrimSpace(s)), SLASH)
    ensures {' ', '\t', '\n', '\r'} <= SPACES && '/' !in SPACES
  {
    a, d := TrimParts(s, SPACES);
    b, c := TrimParts(TrimSpace(s), SLASH);
    assert a + (b + TrimSlash(TrimSpace(s)) + c) + d == a + b + TrimSlash(TrimSpace(s)) + c + d;
  }

  predicate HasPrefix(s: string, prefix: string) {
    prefix <= s
  }

  // strings.Split(s, "/")
  function Split(s: string): (parts: seq<string>)
    ensures |parts| > 0
  {
    if s == "" then [""]
    else
      var rest := Split(s[1..]);
      if s[0] == '/' then [""] + rest else [[s[0]] + rest[0]] + rest[1..]
  }

  function Join(parts: seq<string>): string {
    if parts == [] then "" else if |parts| == 1 then parts[0] else parts[0] + "/" + Join(parts[1..])
  }

  // Splitting loses nothing and leaves no slash in a part.
  lemma {:induction false} SplitJoin(s: string)
    ensures Join(Split(s)) == s
    ensures forall k :: 0 <= k < |Split(s)| ==> '/' !in Split(s)[k]
  {
    if s != "" {
      SplitJoin(s[1..]);
      var rest := Split(s[1..]);
      assert s == [s[0]] + s[1..];
      if s[0] == '/' {
        assert Split(s)[1..] == rest;
      } else {
        assert Split(s)[1..] == rest[1..];
        assert |rest| > 1 ==> [s[0]] + (rest[0] + "/" + Join(rest[1..])) == [s[0]] + rest[0] + "/" + Join(rest[1..]);
      }
    }
  }

  // The segments that the providers refuse in a path for a new secret.
  predicate BadSegment(segment: string) {
    segment in {"", ".", ".."}
  }

  predicate GoodSegments(path: string) {
    forall k :: 0 <= k < |Split(path)| ==> !BadSegment(Split(path)[k])
  }

  // `s[i..j]` is what stands between two slashes, or a slash and an end.
  predicate IsSegment(s: string, i: int, j: int) {
    0 <= i <= j <= |s| && (i == 0 || s[i - 1] == '/') && (j == |s| || s[j] == '/') &&
    forall k :: i <= k < j ==> s[k] != '/'
  }

  // The first segment, and those after it.
  lemma {:induction false} FirstSegment(s: string)
    ensures IsSegment(s, 0, |Split(s)[0]|) && s[..|Split(s)[0]|] == Split(s)[0]
    ensures forall j :: IsSegment(s, 0, j) ==> j == |Split(s)[0]|
  {
    if s != "" && s[0] != '/' {
      FirstSegment(s[1..]);
      var h := |Split(s[1..])[0]|;
      assert s == [s[0]] + s[1..] && s[..h + 1] == [s[0]] + s[1..][..h];
      forall k | 0 <= k < h + 1 ensures s[k] != '/' {
        assert k > 0 ==> s[k] == s[1..][k - 1];
      }
      assert h < |s[1..]| ==> s[h + 1] == s[1..][h];
    }
  }

  predicate LaterPart(s: string, part: string) {
    exists k :: 1 <= k < |Split(s)| && Split(s)[k] == part
  }

  predicate SegmentIs(s: string, i: int, j: int, part: string) {
    IsSegment(s, i, j) && s[i..j] == part
  }

  ghost predicate LaterSegment(s: string, part: string) {
    exists i, j :: i > 0 && SegmentIs(s, i, j, part)
  }

  lemma SegmentShift(s: string, i: int, j: int, part: string)
    requires s != "" && (i > 0 || (i == 0 && s[0] == '/'))
    ensures SegmentIs(s[1..], i, j, part) <==> SegmentIs(s, i + 1, j + 1, part)
  {
  }

  lemma {:induction false} LaterSegments(s: string, part: string)
    ensures LaterPart(s, part) <==> LaterSegment(s, part)
  {
    if s != "" {
      hide *;
      LaterSegments(s[1..], part);
      PartsShift(s, part);
      SegmentsShift(s, part);
    }
  }

  lemma SegmentsShift(s: string, part: string)
    requires s != ""
    ensures LaterSegment(s, part) <==> LaterSegment(s[1..], part) || (s[0] == '/' && part == Split(s[1..])[0])
  {
    var t := s[1..];
    FirstSegment(t);
    hide Split;
    if LaterSegment(s, part) {
      var i, j :| i > 0 && SegmentIs(s, i, j, part);
      SegmentShift(s, i - 1, j - 1, part);
    }
    if LaterSegment(t, part) {
      var i, j :| i > 0 && SegmentIs(t, i, j, part);
      SegmentShift(s, i, j, part);
    }
    if s[0] == '/' && part == Split(t)[0] {
      SegmentShift(s, 0, |part|, part);
    }
  }

  lemma PartsShift(s: string, part: string)
    requires s != ""
    ensures LaterPart(s, part) <==> LaterPart(s[1..], part) || (s[0] == '/' && part == Split(s[1..])[0])
  {
    var parts, rest := Split(s), Split(s[1..]);
    if s[0] == '/' {
      assert forall k :: 0 <= k < |rest| ==> parts[k + 1] == rest[k];
      assert forall k :: 1 <= k < |parts| ==> parts[k] == rest[k - 1];
    } else {
      assert forall k :: 1 <= k < |rest| ==> parts[k] == rest[k];
    }
  }

  // Good segments, without the split: whatever stands between two slashes or a slash and an end is not empty, and not
  // one of the two names that lead elsewhere.
  lemma GoodSegmentsExact(path: string)
    ensures GoodSegments(path) <==>
            forall i, j :: IsSegment(path, i, j) ==> path[i..j] != "" && path[i..j] != "." && path[i..j] != ".."
  {
    FirstSegment(path);
    var first := Split(path)[0];
    forall part ensures LaterPart(path, part) <==> LaterSegment(path, part) {
      LaterSegments(path, part);
    }
    assert SegmentIs(path, 0, |first|, first);
    assert GoodSegments(path) <==> !BadSegment(first) && forall part :: LaterPart(path, part) ==> !BadSegment(part);
    forall i, j | IsSegment(path, i, j) ensures path[i..j] == first || LaterSegment(path, path[i..j]) {
      assert SegmentIs(path, i, j, path[i..j]);
    }
  }

  lemma {:induction false} SlashSplits(s: string)
    requires '/' in s
    ensures |Split(s)| > 1
  {
    if s[0] != '/' {
      assert '/' in s[1..];
      SlashSplits(s[1..]);
    }
  }

  lemma {:induction false} LastSegment(s: string)
    requires s != "" && s[|s| - 1] == '/'
    ensures Split(s)[|Split(s)| - 1] == ""
  {
    if |s| == 1 {
      assert s[1..] == "";
    } else {
      assert s[1..][|s| - 2] == '/';
      LastSegment(s[1..]);
      SlashSplits(s[1..]);
    }
  }

  lemma EndsBad(path: string) returns (k: nat)
    requires path == "" || !Bare(path, SLASH)
    ensures k < |Split(path)| && BadSegment(Split(path)[k])
  {
    if path == "" || path[0] == '/' {
      k := 0;
    } else {
      LastSegment(path);
      k := |Split(path)| - 1;
    }
  }

  // A path with good segments is not empty and has no slash at its ends.
  lemma GoodIsBare(path: string)
    requires GoodSegments(path)
    ensures path != "" && Bare(path, SLASH)
  {
    if path == "" || !Bare(path, SLASH) {
      var k := EndsBad(path);
    }
  }
}
