/** Packages as the daemon hands them around, and their text form in the transaction database. */
module Packages {
  import opened Text

  datatype Option<T> = None | Some(value: T)

  datatype Info =
    | InfoUnknown | Installed | Available | Low | Enhancement | Normal | Bugfix | Important | Security
    | Blocked | Downloading | Updating | Installing | Removing | Cleanup | Obsoleting
    | CollectionInstalled | CollectionAvailable | InfoFinished | Reinstalling | Downgrading
    | Preparing | Decompressing | Untrusted | Trusted

  function InfoText(info: Info): string {
    match info
    case InfoUnknown => "unknown"
    case Installed => "installed"
    case Available => "available"
    case Low => "low"
    case Enhancement => "enhancement"
    case Normal => "normal"
    case Bugfix => "bugfix"
    case Important => "important"
    case Security => "security"
    case Blocked => "blocked"
    case Downloading => "downloading"
    case Updating => "updating"
    case Installing => "installing"
    case Removing => "removing"
    case Cleanup => "cleanup"
    case Obsoleting => "obsoleting"
    case CollectionInstalled => "collection-installed"
    case CollectionAvailable => "collection-available"
    case InfoFinished => "finished"
    case Reinstalling => "reinstalling"
    case Downgrading => "downgrading"
    case Preparing => "preparing"
    case Decompressing => "decompressing"
    case Untrusted => "untrusted"
    case Trusted => "trusted"
  }

  datatype Package = Package(info: Info, id: string, summary: Option<string>)

  /** Four sections, of which the name is not empty. */
  predicate ValidId(id: string) {
    var sections := Split(id, ';');
    |sections| == 4 && sections[0] != ""
  }

  // ----- results -----

  /** The packages that go into the results. */
  function Meaningful(ps: seq<Package>): seq<Package> {
    if ps == [] then []
    else Meaningful(ps[..|ps| - 1]) + (if ps[|ps| - 1].info != InfoFinished then [ps[|ps| - 1]] else [])
  }

  lemma {:induction false} MeaningfulStep(ps: seq<Package>, p: Package)
    ensures Meaningful(ps + [p]) == Meaningful(ps) + (if p.info != InfoFinished then [p] else [])
  {
    assert (ps + [p])[..|ps|] == ps;
  }

  // ----- the package list of a finished transaction -----

  /** The C library prints a missing summary as "(null)". */
  function SummaryText(p: Package): string {
    match p.summary
    case Some(text) => text
    case None => "(null)"
  }

  function Line(p: Package): string {
    InfoText(p.info) + ['\t'] + (p.id + ['\t'] + SummaryText(p))
  }

  function Lines(ps: seq<Package>): seq<string> {
    if ps == [] then [] else [Line(ps[0])] + Lines(ps[1..])
  }

  function ListText(ps: seq<Package>): string { Join(Lines(ps), '\n') }

  function ParseLines(lines: seq<string>): seq<seq<string>> {
    if lines == [] then [] else [SplitUpTo(lines[0], '\t', 3)] + ParseLines(lines[1..])
  }

  function ParseList(text: string): seq<seq<string>> { ParseLines(Split(text, '\n')) }

  function Fields(ps: seq<Package>): seq<seq<string>> {
    if ps == [] then []
    else [[InfoText(ps[0].info), ps[0].id, SummaryText(ps[0])]] + Fields(ps[1..])
  }

  /** A package whose line can be taken apart again. */
  predicate Plain(p: Package) {
    '\t' !in p.id && '\n' !in p.id && '\n' !in SummaryText(p)
  }

  predicate Wordy(text: string) { forall i :: 0 <= i < |text| ==> 'a' <= text[i] <= 'z' || text[i] == '-' }

  predicate IsKind(info: Info) {
    info == InfoUnknown || info == Installed || info == Available || info == Low || info == Enhancement ||
    info == Normal || info == Bugfix || info == Important || info == Security || info == Blocked ||
    info == Untrusted || info == Trusted
  }

  lemma {:induction false} KindIsWordy(info: Info)
    requires IsKind(info)
    ensures Wordy(InfoText(info))
  {
  }

  lemma {:induction false} ActionIsWordy(info: Info)
    requires !IsKind(info)
    ensures Wordy(InfoText(info))
  {
  }

  lemma {:induction false} InfoTextIsWordy(info: Info)
    ensures Wordy(InfoText(info))
  {
    if IsKind(info) { KindIsWordy(info); } else { ActionIsWordy(info); }
  }

  lemma {:induction false} InfoTextHasNoTab(info: Info)
    ensures '\t' !in InfoText(info)
  {
    InfoTextIsWordy(info);
  }

  lemma {:induction false} InfoTextHasNoNewline(info: Info)
    ensures '\n' !in InfoText(info)
  {
    InfoTextIsWordy(info);
  }

  /** Of two fields the first is found again exactly when it holds no separator itself. */
  lemma {:induction false} TwoFieldsExactly(a: string, b: string, sep: char)
    ensures PiecesUpTo(a + [sep] + b, sep, 2) == [a, b] <==> sep !in a
  {
    var rest := a + [sep] + b;
    assert rest[..|a|] == a && rest[|a| + 1..] == b && rest[|a|] == sep;
    var i := IndexOf(rest, sep);
    assert forall j :: 0 <= j < i ==> rest[j] in rest[..i];
    assert i <= |a|;
    assert PiecesUpTo(rest, sep, 2) == [rest[..i], rest[i + 1..]];
    if sep !in a {
      IndexOfUnique(rest, sep, |a|);
    }
  }

  lemma {:induction false} FirstField(a: string, rest: string, sep: char, max: nat)
    requires sep !in a && max >= 2
    ensures PiecesUpTo(a + [sep] + rest, sep, max) == [a] + PiecesUpTo(rest, sep, max - 1)
  {
    var s := a + [sep] + rest;
    assert s[..|a|] == a && s[|a| + 1..] == rest;
    IndexOfUnique(s, sep, |a|);
  }

  lemma {:induction false} LineParsesExactly(p: Package)
    ensures SplitUpTo(Line(p), '\t', 3) == [InfoText(p.info), p.id, SummaryText(p)] <==> '\t' !in p.id
  {
    var info, id, summary := InfoText(p.info), p.id, SummaryText(p);
    InfoTextHasNoTab(p.info);
    assert Line(p) == info + ['\t'] + (id + ['\t'] + summary);
    FirstField(info, id + ['\t'] + summary, '\t', 3);
    TwoFieldsExactly(id, summary, '\t');
    var parsed := PiecesUpTo(id + ['\t'] + summary, '\t', 2);
    assert ([info] + parsed)[1..] == parsed;
    assert [info, id, summary] == [info] + [id, summary];
  }

  lemma {:induction false} LineNewlines(p: Package)
    ensures Count(Line(p), '\n') == Count(p.id, '\n') + Count(SummaryText(p), '\n')
  {
    InfoTextHasNoNewline(p.info);
    CountZero(InfoText(p.info), '\n');
    CountAppend(InfoText(p.info) + ['\t'], p.id + ['\t'] + SummaryText(p), '\n');
    CountAppend(InfoText(p.info), ['\t'], '\n');
    CountAppend(p.id + ['\t'], SummaryText(p), '\n');
    CountAppend(p.id, ['\t'], '\n');
  }

  function NewlinesInside(ps: seq<Package>): nat {
    if ps == [] then 0 else Count(Line(ps[0]), '\n') + NewlinesInside(ps[1..])
  }

  lemma {:induction false} ListNewlines(ps: seq<Package>)
    requires ps != []
    ensures |Lines(ps)| == |ps|
    ensures Count(ListText(ps), '\n') == NewlinesInside(ps) + |ps| - 1
    ensures ListText(ps) != ""
  {
    var lines := Lines(ps);
    if |ps| > 1 {
      ListNewlines(ps[1..]);
      assert lines[1..] == Lines(ps[1..]);
      CountAppend(lines[0] + ['\n'], ListText(ps[1..]), '\n');
      CountAppend(lines[0], ['\n'], '\n');
    }
  }

  lemma {:induction false} NoNewlinesInside(ps: seq<Package>)
    ensures NewlinesInside(ps) == 0 <==> forall p :: p in ps ==> '\n' !in p.id && '\n' !in SummaryText(p)
    ensures NewlinesInside(ps) == 0 <==> forall line :: line in Lines(ps) ==> '\n' !in line
  {
    if ps != [] {
      NoNewlinesInside(ps[1..]);
      LineNewlines(ps[0]);
      CountZero(ps[0].id, '\n');
      CountZero(SummaryText(ps[0]), '\n');
      CountZero(Line(ps[0]), '\n');
      assert ps == [ps[0]] + ps[1..];
    }
  }

  lemma {:induction false} LinesParseExactly(ps: seq<Package>)
    ensures |ParseLines(Lines(ps))| == |ps| == |Fields(ps)|
    ensures ParseLines(Lines(ps)) == Fields(ps) <==> forall p :: p in ps ==> '\t' !in p.id
  {
    if ps != [] {
      LinesParseExactly(ps[1..]);
      LineParsesExactly(ps[0]);
      assert Lines(ps)[1..] == Lines(ps[1..]);
      assert ParseLines(Lines(ps))[1..] == ParseLines(Lines(ps[1..])) && Fields(ps)[1..] == Fields(ps[1..]);
      assert ps == [ps[0]] + ps[1..];
    }
  }

  lemma {:induction false} ParseLinesLength(lines: seq<string>)
    ensures |ParseLines(lines)| == |lines|
  {
    if lines != [] { ParseLinesLength(lines[1..]); }
  }

  /** Printing a package list and parsing the text gives the fields back exactly when no id holds
      a tab or newline and no summary holds a newline. */
  lemma {:induction false} RoundTripExactly(ps: seq<Package>)
    ensures ParseList(ListText(ps)) == Fields(ps) <==> forall p :: p in ps ==> Plain(p)
  {
    if ps != [] {
      var text := ListText(ps);
      ListNewlines(ps);
      NoNewlinesInside(ps);
      LinesParseExactly(ps);
      ParseLinesLength(Pieces(text, '\n'));
      PiecesCount(text, '\n');
      if NewlinesInside(ps) == 0 {
        PiecesOfJoin(Lines(ps), '\n');
      }
    }
  }

  /** Text that was cut into a file list at each ';' is joined again unchanged. */
  lemma {:induction false} FileListRoundTrip(filelist: string)
    ensures Join(Split(filelist, ';'), ';') == filelist
  {
    if filelist != "" { JoinPieces(filelist, ';'); }
  }
}
