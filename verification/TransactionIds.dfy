/**
 The generator of transaction ids: a counter that is written to the database at the next idle moment
 or at shutdown, and read back when the database is opened.
 */
module TransactionIds {
  import opened Shared
  import opened Text
  import opened Packages
  import opened Numbers

  function IdText(count: nat, suffix: string): string
    requires count < UINT_RANGE
  {
    "/" + PrintAsInt(count) + "_" + suffix + "_data"
  }

  /** `row` is what the database holds; `issued` lists the ids given out over all restarts. */
  datatype Db = Db(jobCount: nat, savePending: bool, row: string, issued: seq<string>)

  predicate InRange(d: Db) { d.jobCount < UINT_RANGE }

  function Generate(d: Db, suffix: string): Db {
    var count := (d.jobCount + 1) % UINT_RANGE;
    Db(count, true, d.row, d.issued + [IdText(count, suffix)])
  }

  function WriteJobCount(d: Db): Db
    requires InRange(d)
  {
    d.(savePending := false, row := PrintAsInt(d.jobCount))
  }

  function Idle(d: Db): Db
    requires InRange(d)
  {
    if d.savePending then WriteJobCount(d) else d
  }

  /** A row that is no number leaves the counter of the new object at zero. */
  function CountFrom(row: string): nat {
    var r := StrToUint(row);
    if r.Some? then r.value else 0
  }

  /** A database without a config table gets one, with the counter of an older file. */
  function Upgraded(legacy: Option<string>): Db {
    var count := if legacy.None? then 0 else CountFrom(legacy.value);
    Db(count, false, PrintAsInt(count), [])
  }

  /** A clean shutdown writes what is pending; then the database is opened again. */
  function Restart(d: Db): Db
    requires InRange(d)
  {
    var row := Idle(d).row;
    Db(CountFrom(row), false, row, d.issued)
  }

  datatype Event = GenerateEvent(suffix: string) | IdleEvent | RestartEvent

  function Step(d: Db, e: Event): (r: Db)
    requires InRange(d)
    ensures InRange(r)
  {
    match e
    case GenerateEvent(suffix) => Generate(d, suffix)
    case IdleEvent => Idle(d)
    case RestartEvent => Restart(d)
  }

  function Run(d: Db, events: seq<Event>): (r: Db)
    requires InRange(d)
    ensures InRange(r)
    decreases |events|
  {
    if events == [] then d else Run(Step(d, events[0]), events[1..])
  }

  // ----- what is kept -----

  /** The number that the id at position `i` has to carry: the ids known here are the last ones. */
  function NumberAt(d: Db, i: nat): int { d.jobCount - |d.issued| + i + 1 }

  /** Every issued id carries its own number, up to the counter; without a pending write the row
      holds the counter. */
  ghost predicate Sound(d: Db) {
    && d.jobCount < UINT_RANGE && |d.issued| <= d.jobCount
    && (forall i :: 0 <= i < |d.issued| ==> IsIdOf(d.issued[i], NumberAt(d, i)))
    && (!d.savePending ==> d.row == PrintAsInt(d.jobCount))
  }

  ghost predicate IsIdOf(id: string, count: int) {
    0 <= count < UINT_RANGE && exists suffix :: id == IdText(count, suffix)
  }

  /** The text between the slash and the first underscore. */
  function NumberPart(id: string): string {
    if id == "" then "" else id[1..][..IndexOf(id[1..], '_')]
  }

  lemma {:induction false} IdNumber(count: nat, suffix: string)
    requires count < UINT_RANGE
    ensures NumberPart(IdText(count, suffix)) == PrintAsInt(count)
  {
    var p, rest := PrintAsInt(count), suffix + "_data";
    var tail := p + "_" + rest;
    PrintHasNoUnderscore(count);
    assert IdText(count, suffix)[1..] == tail;
    assert tail[..|p|] == p && tail[|p|] == '_';
    IndexOfUnique(tail, '_', |p|);
  }

  lemma {:induction false} IdTellsCount(id: string, m: int, n: int)
    requires IsIdOf(id, m) && IsIdOf(id, n)
    ensures m == n
  {
    var s :| id == IdText(m, s);
    var t :| id == IdText(n, t);
    IdNumber(m, s);
    IdNumber(n, t);
    PrintInjective(m, n);
  }

  /** The conditions under which the counter never runs back: fewer than 2^32 ids, and every restart
      below 2^31. */
  predicate Safe(d: Db, events: seq<Event>)
    requires InRange(d)
    decreases |events|
  {
    events == [] || (CanStep(d, events[0]) && Safe(Step(d, events[0]), events[1..]))
  }

  predicate CanStep(d: Db, e: Event) {
    && (e.GenerateEvent? ==> d.jobCount + 1 < UINT_RANGE)
    && (e.RestartEvent? ==> d.jobCount < INT_RANGE)
  }

  lemma {:induction false} GenerateSound(d: Db, suffix: string)
    requires Sound(d) && d.jobCount + 1 < UINT_RANGE
    ensures Sound(Generate(d, suffix))
  {
    var r, n := Generate(d, suffix), d.jobCount + 1;
    assert r.jobCount == n && r.issued == d.issued + [IdText(n, suffix)];
    assert IsIdOf(IdText(n, suffix), n);
    forall i | 0 <= i < |r.issued| ensures IsIdOf(r.issued[i], NumberAt(r, i)) {
      if i < |d.issued| { assert r.issued[i] == d.issued[i]; }
    }
  }

  lemma {:induction false} StepSound(d: Db, e: Event)
    requires Sound(d) && CanStep(d, e)
    ensures Sound(Step(d, e))
  {
    match e
    case GenerateEvent(suffix) => GenerateSound(d, suffix);
    case IdleEvent =>
    case RestartEvent => CounterReadBack(d.jobCount);
  }

  lemma {:induction false} RunSound(d: Db, events: seq<Event>)
    requires Sound(d) && Safe(d, events)
    ensures Sound(Run(d, events))
    decreases |events|
  {
    if events != [] {
      StepSound(d, events[0]);
      RunSound(Step(d, events[0]), events[1..]);
    }
  }

  predicate AllDistinct(ids: seq<string>) {
    forall i, j :: 0 <= i < j < |ids| ==> ids[i] != ids[j]
  }

  /** Opening a database is a sound start, with the counter that was printed if it is below 2^31. */
  lemma {:induction false} OpenedSound(legacy: Option<string>, count: nat)
    requires count < UINT_RANGE
    ensures Sound(Upgraded(legacy))
    ensures CountFrom(PrintAsInt(count)) == if count < INT_RANGE then count else 0
    ensures count < INT_RANGE ==> Sound(Db(CountFrom(PrintAsInt(count)), false, PrintAsInt(count), []))
  {
    CounterReadBack(count);
    if legacy.Some? { assert StrToUint(legacy.value).Some? ==> StrToUint(legacy.value).value < UINT_RANGE; }
  }

  /** Whatever the suffixes, and however writes and restarts are interleaved, no id comes twice. */
  lemma {:induction false} IdsDistinct(d: Db, events: seq<Event>)
    requires Sound(d) && Safe(d, events)
    ensures AllDistinct(Run(d, events).issued)
  {
    RunSound(d, events);
    var ids := Run(d, events).issued;
    forall i, j | 0 <= i < j < |ids| ensures ids[i] != ids[j] {
      if ids[i] == ids[j] { IdTellsCount(ids[i], NumberAt(Run(d, events), i), NumberAt(Run(d, events), j)); }
    }
  }

  /** A restart keeps the counter exactly when it is below 2^31, or there is nothing to keep. */
  lemma {:induction false} RestartKeepsExactly(d: Db)
    requires Sound(d)
    ensures Restart(d).jobCount == d.jobCount <==> d.jobCount < INT_RANGE
    ensures d.jobCount >= INT_RANGE ==> Restart(d).jobCount == 0
  {
    CounterReadBack(d.jobCount);
  }

  /** Past 2^31 a restart begins again at one: the next id repeats the very first whenever the
      random suffixes agree. */
  lemma {:induction false} LateRestartRepeats(d: Db, suffix: string)
    requires Sound(d) && d.jobCount >= INT_RANGE && IdText(1, suffix) in d.issued
    ensures !AllDistinct(Generate(Restart(d), suffix).issued)
  {
    RestartKeepsExactly(d);
    var ids := Generate(Restart(d), suffix).issued;
    assert ids == d.issued + [IdText(1, suffix)];
    var i :| 0 <= i < |d.issued| && d.issued[i] == IdText(1, suffix);
    assert ids[i] == ids[|d.issued|];
  }

  /** The form of an id. */
  lemma {:induction false} IdExample()
    ensures IdText(12, "abcdeabc") == "/12_abcdeabc_data"
  {
    assert Digits(1) == "1" && Digits(12) == "12";
  }

  // ----- in place -----

  class TransactionDb {
    var jobCount: nat
    var saveId: bool
    var row: string
    ghost var issued: seq<string>

    ghost function View(): Db
      reads this
    {
      Db(jobCount, saveId, row, issued)
    }

    /** Opens a database that already has its config table. */
    constructor (row: string, ghost issued: seq<string>)
      ensures View() == Db(CountFrom(row), false, row, issued)
    {
      this.row, this.saveId, this.issued := row, false, issued;
      var r := StrToUint(row);
      jobCount := if r.Some? then r.value else 0;
    }

    /** Makes the config table of a database that has none, with the counter of the file that was used
        before it, if there is one. */
    constructor Upgrade(legacy: Option<string>)
      ensures View() == Upgraded(legacy)
    {
      var count := 0;
      if legacy.Some? {
        var r := StrToUint(legacy.value);
        count := if r.Some? then r.value else 0;
      }
      jobCount, saveId, row, issued := count, false, PrintAsInt(count), [];
    }

    method DeferWriteJobCount()
      requires InRange(View())
      modifies this
      ensures View() == WriteJobCount(old(View()))
    {
      row := PrintAsInt(jobCount);
      saveId := false;
    }

    /** The string is filled in place; the draws lie between 'a' and 'e'. */
    method GetRandomHexString(draws: seq<char>) returns (text: string)
      requires forall c :: c in draws ==> 'a' <= c < 'f'
      ensures text == draws && '_' !in text
    {
      var filled := new char[|draws|];
      for i := 0 to |draws|
        invariant filled[..i] == draws[..i]
      {
        filled[i] := draws[i];
      }
      text := filled[..];
    }

    method GenerateId(draws: seq<char>) returns (tid: string)
      requires InRange(View()) && |draws| == 8 && forall c :: c in draws ==> 'a' <= c < 'f'
      modifies this
      ensures View() == Generate(old(View()), draws)
      ensures issued == old(issued) + [tid]
    {
      jobCount := (jobCount + 1) % UINT_RANGE;
      if !saveId {
        saveId := true;
      }
      var suffix := GetRandomHexString(draws);
      tid := "/" + PrintAsInt(jobCount) + "_" + suffix + "_data";
      issued := issued + [tid];
    }

    /** Shutting down writes the counter if a write is pending. */
    method Finalize()
      requires InRange(View())
      modifies this
      ensures View() == Idle(old(View()))
    {
      if saveId {
        DeferWriteJobCount();
      }
    }
  }

  /** Closing one object and opening the next is a restart. */
  method Reopen(db: TransactionDb) returns (next: TransactionDb)
    requires InRange(db.View())
    modifies db
    ensures next.View() == Restart(old(db.View()))
    ensures Sound(old(db.View())) && old(db.jobCount) < INT_RANGE ==> next.jobCount == old(db.jobCount)
  {
    ghost var before := db.View();
    db.Finalize();
    next := new TransactionDb(db.row, db.issued);
    if Sound(before) { RestartKeepsExactly(before); }
  }
}
