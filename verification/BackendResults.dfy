/** The results of an epoch are the packages that were asked for. */
module BackendResults {
  import opened Packages
  import opened BackendModel
  import opened BackendProofs
  import opened BackendGuarantees

  // ----- the packages asked for, told from the calls alone -----

  /** What decides how a call reads as a package. */
  datatype Reading = Reading(role: Role, last: Option<Package>, simultaneous: bool, finished: bool)

  /** The item that a call is about; a finish marks the package that was left active. */
  function ItemsOf(k: Reading, c: Call): seq<Package> {
    match c
    case CallPackage(info, id, summary) =>
      if ValidId(id) then [Package(SimulatedInfo(k.role, info), id, SafeSummary(summary))] else []
    case CallFinished =>
      if !k.finished && !k.simultaneous && k.last.Some? && Active(k.last.value.info)
      then [Package(InfoFinished, k.last.value.id, SafeSummary(k.last.value.summary))] else []
    case _ => []
  }

  function After(k: Reading, c: Call): Reading {
    var items := ItemsOf(k, c);
    Reading(
      if c.CallSetRole? then c.role else k.role,
      if items == [] then k.last else Some(items[0]),
      if c.CallSimultaneous? then c.simultaneous else k.simultaneous,
      k.finished || c.CallFinished?)
  }

  /** The items of all calls up to the first error. */
  function Items(k: Reading, calls: seq<Call>): seq<Package>
    decreases |calls|
  {
    if calls == [] || calls[0].CallError? then []
    else ItemsOf(k, calls[0]) + Items(After(k, calls[0]), calls[1..])
  }

  /** Without the items that only repeat the one before them, and without finish marks. */
  function NewItems(last: Option<Package>, items: seq<Package>): seq<Package>
    decreases |items|
  {
    if items == [] then []
    else
      (if last == Some(items[0]) || items[0].info == InfoFinished then [] else [items[0]])
      + NewItems(Some(items[0]), items[1..])
  }

  /** What is in the results, and what `later` items would add to them. */
  function ResultsWith(s: Stream, later: seq<Package>): seq<Package> {
    s.results + NewItems(s.lastPackage, later)
  }

  function ReadingOf(b: Backend): Reading {
    Reading(b.transactionRole, b.stream.lastPackage, b.stream.simultaneous, b.life.finished)
  }

  // ----- no call but one changes the role of the transaction -----

  lemma {:induction false} SendKeepsRole(b: Backend, item: Package)
    ensures SendPackage(b, item).transactionRole == b.transactionRole
  {
  }

  lemma {:induction false} PackageKeepsRole(b: Backend, info: Info, id: string, summary: Option<string>)
    ensures PackageCall(b, info, id, summary).transactionRole == b.transactionRole
    decreases if info == InfoFinished then 0 else 1
  {
    var item := ItemOf(b, info, id, summary);
    if !Skipped(b, info, id, summary) {
      EmulateShape(b, item);
      if info != InfoFinished && EmulatesFor(b, item) {
        PackageKeepsRole(b, InfoFinished, b.stream.lastPackage.value.id, b.stream.lastPackage.value.summary);
      }
      var b1 := if info != InfoFinished then EmulateFinishedForPackage(b, item) else b;
      SendKeepsRole(Remember(b1, item), item);
    }
  }

  lemma {:induction false} QuietKeepsRole(b: Backend, c: Call)
    requires IsQuietCall(c) && !c.CallSetRole?
    ensures Do(b, c).transactionRole == b.transactionRole
  {
  }

  lemma {:induction false} MessagesKeepRole(b: Backend)
    ensures var r := FinishMessages(b);
            && r.transactionRole == b.transactionRole
            && r.stream == b.stream && r.life == b.life.(errorTimer := false)
            && PackagesIn(r.trace) == PackagesIn(b.trace)
  {
    FinishMessagesEffect(b);
  }

  lemma {:induction false} EmulateKeepsRole(b: Backend)
    ensures EmulateFinished(b).transactionRole == b.transactionRole
  {
    if EmulateFinished(b) != b {
      PackageKeepsRole(b, InfoFinished, b.stream.lastPackage.value.id, b.stream.lastPackage.value.summary);
    }
  }

  lemma {:induction false} FinishedKeepsRole(b: Backend)
    ensures FinishedCall(b).transactionRole == b.transactionRole
  {
    if !b.life.finished {
      var b1 := EmulateFinished(FinishMessages(b));
      MessagesKeepRole(b);
      EmulateKeepsRole(FinishMessages(b));
      QuietKeepsRole(b1, CallAllowCancel(false));
      QuietKeepsRole(SetAllowCancel(b1, false), CallStatus(StatusFinished));
    }
  }

  // ----- what one call adds -----

  /** The stream after a package call, skipped or not. */
  lemma {:induction false} PackageAccepted(b: Backend, info: Info, id: string, summary: Option<string>)
    requires PackageInv(b) && !b.life.setError && ValidId(id)
    ensures var r := PackageCall(b, info, id, summary);
            var item := ItemOf(b, info, id, summary);
            && r.life == b.life && r.stream.simultaneous == b.stream.simultaneous
            && StreamTook(b.stream, r.stream, item)
  {
    if b.stream.lastPackage == Some(ItemOf(b, info, id, summary)) {
      assert PackageCall(b, info, id, summary) == b;
    } else {
      PackageEffect(b, info, id, summary);
    }
  }

  predicate StreamTook(s: Stream, r: Stream, item: Package) {
    && r.lastPackage == Some(item)
    && r.results == s.results + (if s.lastPackage != Some(item) && item.info != InfoFinished then [item] else [])
  }

  lemma {:induction false} StreamListed(s: Stream, r: Stream, item: Package, later: seq<Package>)
    requires StreamTook(s, r, item)
    ensures ResultsWith(r, later) == ResultsWith(s, [item] + later)
  {
    assert ([item] + later)[1..] == later;
    var one := if s.lastPackage == Some(item) || item.info == InfoFinished then [] else [item];
    var more := NewItems(Some(item), later);
    assert NewItems(s.lastPackage, [item] + later) == one + more;
    assert s.results + (one + more) == (s.results + one) + more;
  }

  /** A call that is read as `items` changes the reading and the results accordingly. */
  predicate Taken(b: Backend, c: Call, r: Backend) {
    var items := ItemsOf(ReadingOf(b), c);
    && !r.life.setError && ReadingOf(r) == After(ReadingOf(b), c)
    && (if items == [] then r.stream.results == b.stream.results else StreamTook(b.stream, r.stream, items[0]))
  }

  lemma {:induction false} PackageTaken(b: Backend, info: Info, id: string, summary: Option<string>)
    requires Inv(b) && !b.life.setError
    ensures Taken(b, CallPackage(info, id, summary), PackageCall(b, info, id, summary))
  {
    var c, r := CallPackage(info, id, summary), PackageCall(b, info, id, summary);
    PackageKeepsRole(b, info, id, summary);
    if ValidId(id) {
      PackageAccepted(b, info, id, summary);
      assert ItemsOf(ReadingOf(b), c) == [ItemOf(b, info, id, summary)];
    } else {
      assert r == b && ItemsOf(ReadingOf(b), c) == [];
    }
  }

  predicate LeftActive(b: Backend) {
    !b.stream.simultaneous && b.stream.lastPackage.Some? && Active(b.stream.lastPackage.value.info)
  }

  function FinishMark(b: Backend): Package
    requires b.stream.lastPackage.Some?
  {
    Package(InfoFinished, b.stream.lastPackage.value.id, SafeSummary(b.stream.lastPackage.value.summary))
  }

  lemma {:induction false} EmulateTakes(b: Backend)
    requires PackageInv(b) && !b.life.setError
    ensures var r := EmulateFinished(b);
            if LeftActive(b)
            then r.stream.simultaneous == b.stream.simultaneous && StreamTook(b.stream, r.stream, FinishMark(b))
            else r == b
  {
    if LeftActive(b) {
      var last := b.stream.lastPackage.value;
      PackageAccepted(b, InfoFinished, last.id, last.summary);
      assert EmulateFinished(b) == PackageCall(b, InfoFinished, last.id, last.summary);
    }
  }

  lemma {:induction false} FinishTaken(b: Backend)
    requires Inv(b) && !b.life.setError
    ensures Taken(b, CallFinished, FinishedCall(b))
  {
    if b.life.finished {
      assert ItemsOf(ReadingOf(b), CallFinished) == [];
    } else {
      FinishedKeepsRole(b);
      MessagesKeepRole(b);
      FinishedEffect(b);
      EmulateTakes(FinishMessages(b));
      assert ItemsOf(ReadingOf(b), CallFinished) == if LeftActive(b) then [FinishMark(b)] else [];
    }
  }

  lemma {:induction false} CallTaken(b: Backend, c: Call)
    requires Inv(b) && !b.life.setError && !c.CallError? && OneEpoch(b, [c])
    ensures Taken(b, c, Do(b, c))
  {
    if c.CallSetRole? {
      StartRoleQuiet(b.(transactionRole := c.role), c.role, c.at);
      assert Do(b, c).transactionRole == c.role;
    } else if IsQuietCall(c) {
      QuietCall(b, c);
      QuietKeepsRole(b, c);
    } else if c.CallPackage? {
      PackageTaken(b, c.info, c.id, c.summary);
    } else if c.CallFinished? {
      FinishTaken(b);
    } else {
      assert c.CallReset? ==> Do(b, c) == b;
      assert c.CallErrorTimer? ==> Do(b, c) == b;
    }
  }

  lemma {:induction false} TakenAdds(b: Backend, c: Call, r: Backend, later: seq<Package>)
    requires Taken(b, c, r)
    ensures ResultsWith(r.stream, later) == ResultsWith(b.stream, ItemsOf(ReadingOf(b), c) + later)
  {
    var items := ItemsOf(ReadingOf(b), c);
    if items == [] {
      assert [] + later == later;
    } else {
      assert items == [items[0]];
      StreamListed(b.stream, r.stream, items[0], later);
    }
  }

  lemma {:induction false} NothingAfterError(b: Backend, calls: seq<Call>)
    requires Inv(b) && b.life.setError && OneEpoch(b, calls)
    ensures DoAll(b, calls).stream.results == b.stream.results
    decreases |calls|
  {
    if calls != [] {
      var c := calls[0];
      assert OneEpoch(b, [c]) by { assert [c][1..] == []; }
      DoKeepsInv(b, c);
      LifeStep(b, c);
      OneAfterError(b, c);
      NothingAfterError(Do(b, c), calls[1..]);
    }
  }

  lemma {:induction false} OneAfterError(b: Backend, c: Call)
    requires Inv(b) && b.life.setError && OneEpoch(b, [c])
    ensures Do(b, c).stream.results == b.stream.results
  {
    if IsQuietCall(c) {
      QuietCall(b, c);
    } else if c.CallPackage? {
      PackageAfterError(b, c.info, c.id, c.summary);
    } else if c.CallFinished? {
      FinishAfterError(b);
    } else if c.CallErrorTimer? {
      var b1 := Emit(b, MessageSignal(BackendError));
      EmitQuiet(b, MessageSignal(BackendError));
      FinishAfterError(b1);
    }
  }

  lemma {:induction false} FinishAfterError(b: Backend)
    requires PackageInv(b) && b.life.setError
    ensures FinishedCall(b).stream.results == b.stream.results
  {
    if !b.life.finished {
      var b1 := FinishMessages(b);
      MessagesKeepRole(b);
      FinishedEffect(b);
      EmulateAfterError(b1);
      if EmulateFinished(b1) != b1 {
        PackageAfterError(b1, InfoFinished, b1.stream.lastPackage.value.id, b1.stream.lastPackage.value.summary);
      }
    }
  }

  /** Whatever is called in an epoch, and in whatever order, the results grow by exactly the packages
      asked for before the first error, in order, without repeats and finish marks; the marks that the
      backend adds by itself between packages change nothing. */
  lemma {:induction false} ResultsAreTheItems(b: Backend, calls: seq<Call>)
    requires Inv(b) && !b.life.setError && OneEpoch(b, calls)
    ensures DoAll(b, calls).stream.results == ResultsWith(b.stream, Items(ReadingOf(b), calls))
    decreases |calls|
  {
    if calls != [] {
      var c, rest := calls[0], calls[1..];
      var r := Do(b, c);
      assert OneEpoch(b, [c]) by { assert [c][1..] == []; }
      DoKeepsInv(b, c);
      if c.CallError? {
        ErrorEffect(b, c.code);
        NothingAfterError(r, rest);
      } else {
        CallTaken(b, c);
        ResultsAreTheItems(r, rest);
        TakenAdds(b, c, r, Items(ReadingOf(r), rest));
      }
    }
  }
}
