/** Splitting text at a separator and joining it again, as the GLib string functions do. */
module Text {

  /** The position of the first `c`, or the length of the text. */
  function IndexOf(s: string, c: char): (i: nat)
    ensures i <= |s|
    ensures i < |s| ==> s[i] == c
    ensures forall j :: 0 <= j < i ==> s[j] != c
  {
    if s == [] || s[0] == c then 0
    else
      var i := IndexOf(s[1..], c);
      assert forall j :: 1 <= j <= i ==> s[j] == s[1..][j - 1];
      i + 1
  }

  lemma {:induction false} IndexOfUnique(s: string, c: char, i: nat)
    requires i <= |s| && c !in s[..i] && (i < |s| ==> s[i] == c)
    ensures IndexOf(s, c) == i
  {
    assert forall j :: 0 <= j < i ==> s[j] == s[..i][j];
  }

  /** The pieces between separators; always at least one. */
  function Pieces(s: string, sep: char): (r: seq<string>)
    ensures |r| >= 1
    decreases |s|
  {
    var i := IndexOf(s, sep);
    if i == |s| then [s] else [s[..i]] + Pieces(s[i + 1..], sep)
  }

  /** Splitting without a limit: the empty text has no tokens at all. */
  function Split(s: string, sep: char): seq<string> {
    if s == "" then [] else Pieces(s, sep)
  }

  /** At most `max` pieces, the last of which keeps its separators. */
  function PiecesUpTo(s: string, sep: char, max: nat): (r: seq<string>)
    requires max >= 1
    ensures 1 <= |r| <= max
    decreases max
  {
    var i := IndexOf(s, sep);
    if max == 1 || i == |s| then [s] else [s[..i]] + PiecesUpTo(s[i + 1..], sep, max - 1)
  }

  function SplitUpTo(s: string, sep: char, max: nat): seq<string>
    requires max >= 1
  {
    if s == "" then [] else PiecesUpTo(s, sep, max)
  }

  function Join(parts: seq<string>, sep: char): string {
    if parts == [] then ""
    else if |parts| == 1 then parts[0]
    else parts[0] + [sep] + Join(parts[1..], sep)
  }

  /** Every part followed by the separator. */
  function Terminate(parts: seq<string>, sep: char): string {
    if parts == [] then "" else parts[0] + [sep] + Terminate(parts[1..], sep)
  }

  function Count(s: string, c: char): nat {
    if s == [] then 0 else (if s[0] == c then 1 else 0) + Count(s[1..], c)
  }

  lemma {:induction false} JoinFirst(first: string, rest: seq<string>, sep: char)
    requires rest != []
    ensures Join([first] + rest, sep) == first + [sep] + Join(rest, sep)
  {
    assert ([first] + rest)[1..] == rest;
  }

  lemma {:induction false} SplitAt(s: string, i: nat)
    requires i < |s|
    ensures s == s[..i] + [s[i]] + s[i + 1..]
  {
  }

  lemma {:induction false} FirstAndRest(s: string, sep: char)
    requires IndexOf(s, sep) < |s|
    ensures var i := IndexOf(s, sep);
            s == s[..i] + [sep] + s[i + 1..] && Pieces(s, sep) == [s[..i]] + Pieces(s[i + 1..], sep)
  {
    SplitAt(s, IndexOf(s, sep));
  }

  lemma {:induction false} JoinPieces(s: string, sep: char)
    ensures Join(Pieces(s, sep), sep) == s
    decreases |s|
  {
    var i := IndexOf(s, sep);
    if i < |s| {
      FirstAndRest(s, sep);
      JoinPieces(s[i + 1..], sep);
      JoinFirst(s[..i], Pieces(s[i + 1..], sep), sep);
    }
  }

  lemma {:induction false} PiecesHaveNoSeparator(s: string, sep: char)
    ensures forall p :: p in Pieces(s, sep) ==> sep !in p
    decreases |s|
  {
    var i := IndexOf(s, sep);
    if i < |s| {
      PiecesHaveNoSeparator(s[i + 1..], sep);
    } else {
      assert s[..i] == s;
    }
  }

  lemma {:induction false} PieceFirst(p: string, rest: string, sep: char)
    requires sep !in p
    ensures Pieces(p + [sep] + rest, sep) == [p] + Pieces(rest, sep)
  {
    var s := p + [sep] + rest;
    assert s[..|p|] == p && s[|p| + 1..] == rest;
    IndexOfUnique(s, sep, |p|);
  }

  lemma {:induction false} PieceOnly(p: string, sep: char)
    requires sep !in p
    ensures Pieces(p, sep) == [p]
  {
    assert p[..|p|] == p;
    IndexOfUnique(p, sep, |p|);
  }

  lemma {:induction false} PiecesOfJoin(parts: seq<string>, sep: char)
    requires parts != [] && forall p :: p in parts ==> sep !in p
    ensures Pieces(Join(parts, sep), sep) == parts
  {
    if |parts| == 1 {
      PieceOnly(parts[0], sep);
    } else {
      PiecesOfJoin(parts[1..], sep);
      PieceFirst(parts[0], Join(parts[1..], sep), sep);
    }
  }

  lemma {:induction false} PiecesShift(a: string, b: string, sep: char)
    requires IndexOf(a, sep) < |a|
    ensures var i := IndexOf(a, sep);
            Pieces(a + b, sep) == [a[..i]] + Pieces(a[i + 1..] + b, sep)
  {
    var i := IndexOf(a, sep);
    assert a + b == a[..i] + [sep] + (a[i + 1..] + b);
    PieceFirst(a[..i], a[i + 1..] + b, sep);
  }

  /** `whole` continues the last of `pieces` with `more`. */
  predicate Continues(whole: seq<string>, pieces: seq<string>, more: seq<string>)
    requires pieces != []
  {
    whole == pieces[..|pieces| - 1] + more
  }

  lemma {:induction false} ContinuesAfter(first: string, whole: seq<string>, pieces: seq<string>, more: seq<string>)
    requires pieces != [] && Continues(whole, pieces, more)
    ensures Continues([first] + whole, [first] + pieces, more)
  {
    assert ([first] + pieces)[..|pieces|] == [first] + pieces[..|pieces| - 1];
  }

  /** Splitting a longer text continues from the last piece of its beginning. */
  lemma {:induction false} PiecesOfAppend(a: string, b: string, sep: char)
    ensures var ps := Pieces(a, sep);
            Continues(Pieces(a + b, sep), ps, Pieces(ps[|ps| - 1] + b, sep))
    decreases |a|
  {
    var i := IndexOf(a, sep);
    if i < |a| {
      var rest := a[i + 1..];
      var ps := Pieces(rest, sep);
      PiecesOfAppend(rest, b, sep);
      PiecesShift(a, b, sep);
      ContinuesAfter(a[..i], Pieces(rest + b, sep), ps, Pieces(ps[|ps| - 1] + b, sep));
    }
  }

  /** The text is the pieces, each but the last with a separator. */
  predicate Rebuilds(ps: seq<string>, s: string, sep: char)
    requires ps != []
  {
    Terminate(ps[..|ps| - 1], sep) + ps[|ps| - 1] == s
  }

  lemma {:induction false} RebuildsAfter(first: string, rest: seq<string>, tail: string, sep: char)
    requires rest != [] && Rebuilds(rest, tail, sep)
    ensures Rebuilds([first] + rest, first + [sep] + tail, sep)
  {
    var ps, most := [first] + rest, rest[..|rest| - 1];
    assert ps[..|ps| - 1] == [first] + most;
    assert ([first] + most)[1..] == most;
  }

  lemma {:induction false} OnePiece(s: string, sep: char)
    requires IndexOf(s, sep) == |s|
    ensures Rebuilds(Pieces(s, sep), s, sep)
  {
    assert Pieces(s, sep) == [s] && [s][..0] == [];
  }

  lemma {:induction false} PiecesTerminated(s: string, sep: char)
    ensures Rebuilds(Pieces(s, sep), s, sep)
    decreases |s|
  {
    var i := IndexOf(s, sep);
    if i == |s| {
      OnePiece(s, sep);
    } else {
      var first, tail := s[..i], s[i + 1..];
      FirstAndRest(s, sep);
      PiecesTerminated(tail, sep);
      RebuildsAfter(first, Pieces(tail, sep), tail, sep);
    }
  }

  lemma {:induction false} CountAppend(a: string, b: string, c: char)
    ensures Count(a + b, c) == Count(a, c) + Count(b, c)
  {
    if a == [] {
      assert a + b == b;
    } else {
      assert (a + b)[1..] == a[1..] + b;
      CountAppend(a[1..], b, c);
    }
  }

  lemma {:induction false} CountZero(s: string, c: char)
    ensures Count(s, c) == 0 <==> c !in s
  {
    if s != [] { CountZero(s[1..], c); }
  }

  lemma {:induction false} PiecesCount(s: string, sep: char)
    ensures |Pieces(s, sep)| == Count(s, sep) + 1
    decreases |s|
  {
    var i := IndexOf(s, sep);
    CountZero(s[..i], sep);
    if i < |s| {
      assert s == s[..i] + ([sep] + s[i + 1..]);
      CountAppend(s[..i], [sep] + s[i + 1..], sep);
      PiecesCount(s[i + 1..], sep);
    } else {
      assert s[..i] == s;
    }
  }
}
