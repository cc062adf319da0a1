/** String helpers: splitting at a separator and joining with it (used to read
    back request paths and image labels), and ASCII capitalisation. */
module Text {

  /** The pieces of `s` between occurrences of `sep` (as `s.split(sep)`). */
  function Segments(s: string, sep: char): (r: seq<string>)
    ensures |r| >= 1
    ensures forall i :: 0 <= i < |r| ==> sep !in r[i]
  {
    if s == [] then [""]
    else if s[0] == sep then [""] + Segments(s[1..], sep)
    else
      var t := Segments(s[1..], sep);
      [[s[0]] + t[0]] + t[1..]
  }

  /** The pieces joined with `sep` between them (as `xs.join(sep)`). */
  function Join(xs: seq<string>, sep: char): string
    requires |xs| >= 1
  {
    if |xs| == 1 then xs[0] else xs[0] + [sep] + Join(xs[1..], sep)
  }

  predicate NoSep(xs: seq<string>, sep: char)
  {
    forall i :: 0 <= i < |xs| ==> sep !in xs[i]
  }

  lemma JoinCons(x: string, xs: seq<string>, sep: char)
    requires |xs| >= 1
    ensures Join([x] + xs, sep) == x + [sep] + Join(xs, sep)
  {
    assert ([x] + xs)[1..] == xs;
  }

  lemma {:induction false} SegmentsOfPiece(a: string, sep: char)
    requires sep !in a
    ensures Segments(a, sep) == [a]
  {
    if a != [] {
      SegmentsOfPiece(a[1..], sep);
      assert [a[0]] + a[1..] == a;
    }
  }

  lemma {:induction false} SegmentsOfPieceThen(a: string, b: string, sep: char)
    requires sep !in a
    ensures Segments(a + [sep] + b, sep) == [a] + Segments(b, sep)
  {
    var s := a + [sep] + b;
    if a == [] {
      assert s[1..] == b;
    } else {
      assert s[1..] == a[1..] + [sep] + b;
      SegmentsOfPieceThen(a[1..], b, sep);
      assert [a[0]] + a[1..] == a;
    }
  }

  /** Splitting a join gives back the pieces, provided no piece holds the separator. */
  lemma {:induction false} SegmentsOfJoin(xs: seq<string>, sep: char)
    requires |xs| >= 1 && NoSep(xs, sep)
    ensures Segments(Join(xs, sep), sep) == xs
  {
    if |xs| == 1 {
      SegmentsOfPiece(xs[0], sep);
    } else {
      SegmentsOfJoin(xs[1..], sep);
      SegmentsOfPieceThen(xs[0], Join(xs[1..], sep), sep);
      assert [xs[0]] + xs[1..] == xs;
    }
  }

  /** Joining the pieces of a split gives back the string. */
  lemma {:induction false} JoinOfSegments(s: string, sep: char)
    ensures Join(Segments(s, sep), sep) == s
  {
    if s == [] {
    } else if s[0] == sep {
      JoinOfSegments(s[1..], sep);
      JoinCons("", Segments(s[1..], sep), sep);
      assert [s[0]] + s[1..] == s;
    } else {
      var t := Segments(s[1..], sep);
      JoinOfSegments(s[1..], sep);
      var r := [[s[0]] + t[0]] + t[1..];
      assert r[1..] == t[1..];
      if |t| == 1 {
        assert [s[0]] + s[1..] == s;
      } else {
        assert t == [t[0]] + t[1..];
        JoinCons(t[0], t[1..], sep);
        assert Join(r, sep) == [s[0]] + t[0] + [sep] + Join(t[1..], sep);
        assert [s[0]] + s[1..] == s;
      }
    }
  }

  predicate IsLower(c: char) { 'a' <= c <= 'z' }

  predicate IsUpper(c: char) { 'A' <= c <= 'Z' }

  /** `toUpperCase` on one character, over the ASCII letters. */
  function Upper(c: char): (u: char)
    ensures IsLower(c) ==> IsUpper(u) && u as int == c as int - 32
    ensures !IsLower(c) ==> u == c
  {
    if IsLower(c) then (c as int - 32) as char else c
  }

  /** `capitalize`: the first character upper-cased, the rest as it was. */
  function Capitalize(s: string): (r: string)
    requires |s| > 0
    ensures |r| == |s|
    ensures !IsLower(r[0])
    ensures forall i :: 1 <= i < |s| ==> r[i] == s[i]
    ensures IsLower(s[0]) ==> r[0] as int == s[0] as int - 32
    ensures !IsLower(s[0]) ==> r == s
  {
    [Upper(s[0])] + s[1..]
  }

  /** Capitalising twice is capitalising once. */
  lemma CapitalizeIdempotent(s: string)
    requires |s| > 0
    ensures Capitalize(Capitalize(s)) == Capitalize(s)
  {
  }

  /** Capitalising adds no separator that is not an upper-case letter. */
  lemma CapitalizeKeepsSep(s: string, sep: char)
    requires |s| > 0 && sep !in s && !IsUpper(sep)
    ensures sep !in Capitalize(s)
  {
  }
}
