/** The loops that print a package list for the database and take it apart in the console. */
module PackageList {
  import opened Text
  import opened Packages

  lemma {:induction false} TerminateJoin(parts: seq<string>, sep: char)
    requires parts != []
    ensures Terminate(parts, sep) == Join(parts, sep) + [sep]
  {
    if |parts| > 1 {
      TerminateJoin(parts[1..], sep);
    } else {
      assert parts[1..] == [];
    }
  }

  lemma {:induction false} TerminateAppend(parts: seq<string>, part: string, sep: char)
    ensures Terminate(parts + [part], sep) == Terminate(parts, sep) + part + [sep]
  {
    if parts == [] {
      assert (parts + [part])[1..] == [];
    } else {
      assert (parts + [part])[1..] == parts[1..] + [part];
      TerminateAppend(parts[1..], part, sep);
    }
  }

  lemma {:induction false} LinesAppend(ps: seq<Package>, p: Package)
    ensures Lines(ps + [p]) == Lines(ps) + [Line(p)]
  {
    if ps == [] {
      assert (ps + [p])[1..] == [];
    } else {
      assert (ps + [p])[1..] == ps[1..] + [p];
      LinesAppend(ps[1..], p);
    }
  }

  lemma {:induction false} LineExamples()
    ensures Line(Package(Installing, "a;1;i386;main", Some("Editor"))) == "installing\ta;1;i386;main\tEditor"
    ensures Line(Package(Removing, "b;2;i386;main", None)) == "removing\tb;2;i386;main\t(null)"
  {
  }

  /** The form of a list. */
  lemma {:induction false} ListExample()
    ensures ListText([Package(Installing, "a;1;i386;main", Some("Editor")), Package(Removing, "b;2;i386;main", None)])
         == "installing\ta;1;i386;main\tEditor\n" + "removing\tb;2;i386;main\t(null)"
  {
    var p, q := Package(Installing, "a;1;i386;main", Some("Editor")), Package(Removing, "b;2;i386;main", None);
    LineExamples();
    LinesAppend([], p);
    LinesAppend([p], q);
    assert [p, q] == [p] + [q] && [p] == [] + [p];
    ListOfTwo(Line(p), Line(q));
  }

  lemma {:induction false} ListOfTwo(a: string, b: string)
    ensures Join([a, b], '\n') == a + ['\n'] + b
  {
    assert [a, b][1..] == [b];
  }

  /** Appends a line for every package and drops the trailing newline. */
  method PackageListToString(ps: seq<Package>) returns (text: string)
    ensures text == ListText(ps)
  {
    text := "";
    for i := 0 to |ps|
      invariant text == Terminate(Lines(ps[..i]), '\n')
    {
      assert ps[..i + 1] == ps[..i] + [ps[i]];
      LinesAppend(ps[..i], ps[i]);
      TerminateAppend(Lines(ps[..i]), Line(ps[i]), '\n');
      text := text + Line(ps[i]) + ['\n'];
    }
    assert ps[..|ps|] == ps;
    if |text| != 0 {
      TerminateJoin(Lines(ps), '\n');
      text := text[..|text| - 1];
    }
  }

  method ParseTransactionData(data: string) returns (entries: seq<seq<string>>)
    ensures entries == ParseList(data)
  {
    var lines := Split(data, '\n');
    entries := [];
    var i := 0;
    while i < |lines|
      invariant i <= |lines|
      invariant entries + ParseLines(lines[i..]) == ParseLines(lines)
    {
      assert lines[i..][1..] == lines[i + 1..];
      entries := entries + [SplitUpTo(lines[i], '\t', 3)];
      i := i + 1;
    }
    assert entries + ParseLines(lines[i..]) == entries;
  }

  /** What is written to the database at the end of a transaction and what the console later reads:
      the loops undo each other exactly on plain packages. */
  method PrintAndParse(ps: seq<Package>) returns (text: string, entries: seq<seq<string>>)
    ensures entries == Fields(ps) <==> forall p :: p in ps ==> Plain(p)
    ensures text == "" <==> ps == []
  {
    text := PackageListToString(ps);
    entries := ParseTransactionData(text);
    RoundTripExactly(ps);
    if ps != [] { ListNewlines(ps); }
  }
}
