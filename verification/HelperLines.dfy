/** What the backend does for each line of a helper, with the sections of the line written out. */
module HelperLines {
  import opened Shared
  import opened Text
  import opened Packages
  import opened Numbers
  import opened BackendModel
  import opened BackendProofs
  import opened BackendGuarantees
  import opened HelperModel
  import opened HelperProofs

  predicate TabFree(parts: seq<string>) { forall p :: p in parts ==> '\t' !in p }

  function LineOf(parts: seq<string>): string { Join(parts, '\t') }

  lemma {:induction false} JoinNotEmpty(parts: seq<string>, sep: char)
    requires parts != [] && parts[0] != ""
    ensures Join(parts, sep) != ""
  {
  }

  lemma {:induction false} SectionsOf(parts: seq<string>)
    requires parts != [] && parts[0] != "" && TabFree(parts)
    ensures Split(LineOf(parts), '\t') == parts
  {
    PiecesOfJoin(parts, '\t');
    JoinNotEmpty(parts, '\t');
  }

  /** The backend after a line. */
  function Told(voc: Vocabulary, b: Backend, parts: seq<string>, now: nat): Backend {
    HandleLine(voc, Helper(Idle(), false, false, b, []), LineOf(parts), now).backend
  }

  function Idle(): Child { Child(false, false, false, false, false, false, false, SpawnUnknown, "", "") }

  /** A line that cannot be read is complained about. */
  function Refused(b: Backend): Backend { Message(b, BackendError) }

  function Obeyed(b: Backend, m: Meaning): Backend {
    match m
    case Finish => FinishedCall(b)
    case Act(call) => Do(b, call)
    case Unclear => Refused(b)
  }

  lemma {:induction false} ToldIs(voc: Vocabulary, b: Backend, parts: seq<string>, now: nat)
    requires parts != [] && parts[0] != "" && TabFree(parts)
    ensures Told(voc, b, parts, now) == Obeyed(b, SectionsMeaning(voc, parts, LineOf(parts), now))
  {
    SectionsOf(parts);
  }

  // The lines of each group of commands.

  lemma {:induction false} ResultTold(voc: Vocabulary, b: Backend, parts: seq<string>, now: nat)
    requires parts != [] && parts[0] != "" && TabFree(parts) && IsResult(parts[0])
    ensures Told(voc, b, parts, now) == Obeyed(b, ResultMeaning(parts))
  {
    ToldIs(voc, b, parts, now);
  }

  lemma {:induction false} EndTold(voc: Vocabulary, b: Backend, parts: seq<string>, now: nat)
    requires parts != [] && parts[0] != "" && TabFree(parts) && IsEnd(parts[0]) && !IsResult(parts[0])
    ensures Told(voc, b, parts, now) == Obeyed(b, EndMeaning(voc, parts))
  {
    ToldIs(voc, b, parts, now);
  }

  lemma {:induction false} ProgressHasNoTab(command: string)
    requires IsProgress(command)
    ensures command != "" && '\t' !in command
  {
  }

  lemma {:induction false} ProgressTold(voc: Vocabulary, b: Backend, parts: seq<string>, now: nat)
    requires parts != [] && TabFree(parts[1..])
    requires IsProgress(parts[0]) && !IsEnd(parts[0]) && !IsResult(parts[0])
    ensures Told(voc, b, parts, now) == Obeyed(b, ProgressMeaning(parts, now))
  {
    ProgressHasNoTab(parts[0]);
    assert forall p :: p in parts ==> p == parts[0] || p in parts[1..];
    ToldIs(voc, b, parts, now);
  }

  lemma {:induction false} NoticeTold(voc: Vocabulary, b: Backend, parts: seq<string>, now: nat)
    requires parts != [] && parts[0] != "" && TabFree(parts)
    requires IsNotice(parts[0]) && !IsProgress(parts[0]) && !IsEnd(parts[0]) && !IsResult(parts[0])
    ensures Told(voc, b, parts, now) == Obeyed(b, NoticeMeaning(voc, parts))
  {
    ToldIs(voc, b, parts, now);
  }

  // ----- the names of package infos -----

  /** The length of a name, its first character, and its fifth or, in the longest, its twelfth. */
  function KeyOf(text: string): (nat, char, char) {
    (|text|, if text == "" then ' ' else text[0],
     if |text| > 11 then text[11] else if |text| > 4 then text[4] else ' ')
  }

  function KeyFor(info: Info): (nat, char, char) {
    match info
    case InfoUnknown => (7, 'u', 'o')
    case Installed => (9, 'i', 'a')
    case Available => (9, 'a', 'l')
    case Low => (3, 'l', ' ')
    case Enhancement => (11, 'e', 'n')
    case Normal => (6, 'n', 'a')
    case Bugfix => (6, 'b', 'i')
    case Important => (9, 'i', 'r')
    case Security => (8, 's', 'r')
    case Blocked => (7, 'b', 'k')
    case Downloading => (11, 'd', 'l')
    case Updating => (8, 'u', 't')
    case Installing => (10, 'i', 'a')
    case Removing => (8, 'r', 'v')
    case Cleanup => (7, 'c', 'n')
    case Obsoleting => (10, 'o', 'l')
    case CollectionInstalled => (20, 'c', 'i')
    case CollectionAvailable => (20, 'c', 'a')
    case InfoFinished => (8, 'f', 's')
    case Reinstalling => (12, 'r', 'g')
    case Downgrading => (11, 'd', 'g')
    case Preparing => (9, 'p', 'a')
    case Decompressing => (13, 'd', 'n')
    case Untrusted => (9, 'u', 'u')
    case Trusted => (7, 't', 't')
  }

  lemma {:induction false} KindHasKey(info: Info)
    requires IsKind(info)
    ensures KeyOf(InfoText(info)) == KeyFor(info)
  {
  }

  lemma {:induction false} ActionHasKey(info: Info)
    requires !IsKind(info)
    ensures KeyOf(InfoText(info)) == KeyFor(info)
  {
  }

  lemma {:induction false} KeysDiffer(a: Info, b: Info)
    requires KeyFor(a) == KeyFor(b)
    ensures a == b
  {
  }

  lemma {:induction false} NamesDiffer(a: Info, b: Info)
    requires InfoText(a) == InfoText(b)
    ensures a == b
  {
    if IsKind(a) { KindHasKey(a); } else { ActionHasKey(a); }
    if IsKind(b) { KindHasKey(b); } else { ActionHasKey(b); }
    KeysDiffer(a, b);
  }

  lemma {:induction false} InfoListed(info: Info)
    ensures info in INFOS
  {
    match info
    case InfoUnknown => assert INFOS[0] == info;
    case Installed => assert INFOS[1] == info;
    case Available => assert INFOS[2] == info;
    case Low => assert INFOS[3] == info;
    case Enhancement => assert INFOS[4] == info;
    case Normal => assert INFOS[5] == info;
    case Bugfix => assert INFOS[6] == info;
    case Important => assert INFOS[7] == info;
    case Security => assert INFOS[8] == info;
    case Blocked => assert INFOS[9] == info;
    case Downloading => assert INFOS[10] == info;
    case Updating => assert INFOS[11] == info;
    case Installing => assert INFOS[12] == info;
    case Removing => assert INFOS[13] == info;
    case Cleanup => assert INFOS[14] == info;
    case Obsoleting => assert INFOS[15] == info;
    case CollectionInstalled => assert INFOS[16] == info;
    case CollectionAvailable => assert INFOS[17] == info;
    case InfoFinished => assert INFOS[18] == info;
    case Reinstalling => assert INFOS[19] == info;
    case Downgrading => assert INFOS[20] == info;
    case Preparing => assert INFOS[21] == info;
    case Decompressing => assert INFOS[22] == info;
    case Untrusted => assert INFOS[23] == info;
    case Trusted => assert INFOS[24] == info;
  }

  lemma {:induction false} FoundInfo(infos: seq<Info>, info: Info)
    requires info in infos
    ensures InfoIn(infos, InfoText(info)) == info
  {
    if InfoText(infos[0]) == InfoText(info) {
      NamesDiffer(infos[0], info);
    } else {
      assert info in infos[1..];
      FoundInfo(infos[1..], info);
    }
  }

  /** Every info is read back from its name. */
  lemma {:induction false} InfoReadBack(info: Info)
    ensures InfoFrom(InfoText(info)) == info
  {
    InfoListed(info);
    FoundInfo(INFOS, info);
  }

  // ----- packages and files -----

  lemma {:induction false} PackageLine(voc: Vocabulary, b: Backend, info: Info, id: string, summary: string, now: nat)
    requires '\t' !in id && '\t' !in summary
    ensures Told(voc, b, ["package", InfoText(info), id, summary], now)
         == if info != InfoUnknown && ValidId(id) then PackageCall(b, info, id, Some(summary)) else Refused(b)
  {
    InfoTextHasNoTab(info);
    ResultTold(voc, b, ["package", InfoText(info), id, summary], now);
    InfoReadBack(info);
  }

  lemma {:induction false} FilesLine(voc: Vocabulary, b: Backend, id: string, list: string, now: nat)
    requires '\t' !in id && '\t' !in list
    ensures Told(voc, b, ["files", id, list], now) == Files(b, id, list)
  {
    ResultTold(voc, b, ["files", id, list], now);
  }

  // ----- progress -----

  /** A number that a helper prints, negative or not. */
  function Printed(n: int): string { if n < 0 then "-" + Digits(-n) else Digits(n) }

  lemma {:induction false} PrintedRead(n: int)
    ensures '\t' !in Printed(n)
    ensures StrToInt(Printed(n)) == if -0x8000_0000 <= n < 0x8000_0000 then Some(n) else None
  {
    var m: nat := if n < 0 then -n else n;
    DigitsParse(m);
    DigitsHaveValue(m);
    assert forall c :: c in Printed(n) ==> c == '-' || c in Digits(m);
  }

  lemma {:induction false} PercentageRead(n: int)
    ensures PercentageIn(Printed(n)) == if 0 <= n <= 100 then Some(n) else None
  {
    PrintedRead(n);
  }

  lemma {:induction false} ProgressCommands()
    ensures IsProgress("percentage") && !IsResult("percentage") && !IsEnd("percentage")
    ensures IsProgress("subpercentage") && !IsResult("subpercentage") && !IsEnd("subpercentage")
    ensures IsProgress("item-percentage") && !IsResult("item-percentage") && !IsEnd("item-percentage")
    ensures IsProgress("speed") && !IsResult("speed") && !IsEnd("speed")
    ensures IsProgress("no-percentage-updates")
    ensures !IsResult("no-percentage-updates") && !IsEnd("no-percentage-updates")
    ensures "subpercentage" != "percentage" && "subpercentage" != "speed"
    ensures "subpercentage" != "item-percentage" && "subpercentage" != "no-percentage-updates"
  {
    assert |"subpercentage"| == 13 && |"percentage"| == 10;
  }

  /** A percentage between 0 and 100 is passed on, any other refused. */
  lemma {:induction false} PercentageLine(voc: Vocabulary, b: Backend, n: int, now: nat)
    ensures Told(voc, b, ["percentage", Printed(n)], now)
         == if 0 <= n <= 100 then SetPercentage(b, n, now) else Refused(b)
  {
    var parts := ["percentage", Printed(n)];
    PrintedRead(n);
    PercentageRead(n);
    ProgressCommands();
    ProgressTold(voc, b, parts, now);
  }

  lemma {:induction false} SubPercentageMeaning(text: string, now: nat)
    ensures var n := PercentageIn(text);
            ProgressMeaning(["subpercentage", text], now)
            == if n.None? then Unclear else Act(CallSubPercentage(n.value))
  {
    var command := ["subpercentage", text][0];
    ProgressCommands();
    assert command != "percentage" && command != "speed";
    assert command != "no-percentage-updates" && command != "item-percentage";
  }

  lemma {:induction false} SubPercentageSections(n: int, now: nat)
    ensures ProgressMeaning(["subpercentage", Printed(n)], now)
         == if 0 <= n <= 100 then Act(CallSubPercentage(n)) else Unclear
  {
    PercentageRead(n);
    SubPercentageMeaning(Printed(n), now);
  }

  /** A line of two sections, by what its command means. */
  lemma {:induction false} ObeyedProgress(voc: Vocabulary, b: Backend, command: string, text: string, now: nat,
                                          m: Meaning)
    requires IsProgress(command) && !IsEnd(command) && !IsResult(command) && '\t' !in text
    requires ProgressMeaning([command, text], now) == m
    ensures Told(voc, b, [command, text], now) == Obeyed(b, m)
  {
    var parts := [command, text];
    assert parts[1..] == [text];
    ProgressTold(voc, b, parts, now);
  }

  lemma {:induction false} ObeyedSubPercentage(b: Backend, n: int)
    ensures Obeyed(b, if 0 <= n <= 100 then Act(CallSubPercentage(n)) else Unclear)
         == if 0 <= n <= 100 then SetSubPercentage(b, n) else Refused(b)
  {
  }

  lemma {:induction false} SubPercentageLine(voc: Vocabulary, b: Backend, n: int, now: nat)
    ensures Told(voc, b, ["subpercentage", Printed(n)], now)
         == if 0 <= n <= 100 then SetSubPercentage(b, n) else Refused(b)
  {
    PrintedRead(n);
    ProgressCommands();
    SubPercentageSections(n, now);
    var m := if 0 <= n <= 100 then Act(CallSubPercentage(n)) else Unclear;
    ObeyedProgress(voc, b, "subpercentage", Printed(n), now, m);
    ObeyedSubPercentage(b, n);
  }

  lemma {:induction false} ItemPercentageLine(voc: Vocabulary, b: Backend, id: string, n: int, now: nat)
    requires '\t' !in id
    ensures Told(voc, b, ["item-percentage", id, Printed(n)], now)
         == if 0 <= n <= 100 && ValidId(id) then SetItemProgress(b, id, n) else Refused(b)
  {
    var parts := ["item-percentage", id, Printed(n)];
    PrintedRead(n);
    PercentageRead(n);
    ProgressCommands();
    ProgressTold(voc, b, parts, now);
    assert ProgressMeaning(parts, now) == ItemMeaning(parts);
  }

  lemma {:induction false} NoPercentageMeaning(now: nat)
    ensures IsProgress("no-percentage-updates")
    ensures ProgressMeaning(["no-percentage-updates"], now) == Act(CallPercentage(101, now))
  {
  }

  /** A helper without percentages says so. */
  lemma {:induction false} NoPercentageLine(voc: Vocabulary, b: Backend, now: nat)
    ensures Told(voc, b, ["no-percentage-updates"], now) == SetPercentage(b, 101, now)
  {
    ProgressCommands();
    NoPercentageMeaning(now);
    ProgressTold(voc, b, ["no-percentage-updates"], now);
  }

  /** A speed is cut to 32 bits. */
  lemma {:induction false} SpeedLine(voc: Vocabulary, b: Backend, n: nat, now: nat)
    requires n < 0x1_0000_0000_0000_0000
    ensures Told(voc, b, ["speed", Digits(n)], now) == SetSpeed(b, n % 0x1_0000_0000)
  {
    var parts := ["speed", Digits(n)];
    DigitsToUint64(n);
    ProgressCommands();
    ProgressTold(voc, b, parts, now);
  }

  // ----- status, messages and cancelling -----

  lemma {:induction false} NoticeCommands()
    ensures IsNotice("status") && !IsProgress("status") && !IsResult("status") && !IsEnd("status")
    ensures IsNotice("message") && !IsProgress("message") && !IsResult("message") && !IsEnd("message")
    ensures IsNotice("allow-cancel")
    ensures !IsProgress("allow-cancel") && !IsResult("allow-cancel") && !IsEnd("allow-cancel")
  {
  }

  lemma {:induction false} StatusLine(voc: Vocabulary, b: Backend, name: string, now: nat)
    requires '\t' !in name
    ensures Told(voc, b, ["status", name], now)
         == if name in voc.statuses then SetStatus(b, voc.statuses[name]) else Refused(b)
  {
    var parts := ["status", name];
    NoticeCommands();
    NoticeTold(voc, b, parts, now);
  }

  lemma {:induction false} MessageLine(voc: Vocabulary, b: Backend, name: string, text: string, now: nat)
    requires '\t' !in name && '\t' !in text
    ensures Told(voc, b, ["message", name, text], now)
         == if name in voc.messages then Message(b, voc.messages[name]) else Refused(b)
  {
    var parts := ["message", name, text];
    NoticeCommands();
    NoticeTold(voc, b, parts, now);
  }

  lemma {:induction false} AllowCancelMeaning(voc: Vocabulary, answer: string)
    ensures IsNotice("allow-cancel")
    ensures NoticeMeaning(voc, ["allow-cancel", answer])
         == if answer == "true" then Act(CallAllowCancel(true))
            else if answer == "false" then Act(CallAllowCancel(false))
            else Unclear
  {
  }

  lemma {:induction false} AllowCancelLine(voc: Vocabulary, b: Backend, answer: string, now: nat)
    requires '\t' !in answer
    ensures Told(voc, b, ["allow-cancel", answer], now)
         == if answer == "true" then SetAllowCancel(b, true)
            else if answer == "false" then SetAllowCancel(b, false)
            else Refused(b)
  {
    var parts := ["allow-cancel", answer];
    NoticeCommands();
    AllowCancelMeaning(voc, answer);
    NoticeTold(voc, b, parts, now);
  }

  // ----- errors and the end -----

  lemma {:induction false} EndCommands()
    ensures IsEnd("error") && !IsResult("error") && IsEnd("finished") && !IsResult("finished")
  {
  }

  lemma {:induction false} ErrorLine(voc: Vocabulary, b: Backend, name: string, text: string, now: nat)
    requires '\t' !in name && '\t' !in text
    ensures Told(voc, b, ["error", name, text], now)
         == if name in voc.errors then Error(b, voc.errors[name]) else Refused(b)
  {
    var parts := ["error", name, text];
    EndCommands();
    EndTold(voc, b, parts, now);
  }

  lemma {:induction false} FinishedLine(voc: Vocabulary, b: Backend, now: nat)
    ensures Told(voc, b, ["finished"], now) == FinishedCall(b)
  {
    var parts := ["finished"];
    EndCommands();
    EndTold(voc, b, parts, now);
  }

  /** The finished line also ends the task, and starts the timer of the idle shutdown. */
  lemma {:induction false} FinishedLineEndsTask(voc: Vocabulary, h: Helper, now: nat)
    ensures var r := HandleLine(voc, h, "finished", now);
            r.done && r.idleTimer && r.backend == FinishedCall(h.backend) && r.child == h.child
  {
    EndCommands();
    SectionsOf(["finished"]);
    assert LineOf(["finished"]) == "finished";
  }

  /** How many sections each command has. */
  function SizeOf(command: string): nat {
    if command == "package" then 4
    else if command == "finished" || command == "no-percentage-updates" then 1
    else if command == "files" || command == "item-percentage" || command == "error" || command == "message" then 3
    else 2
  }

  predicate Known(command: string) {
    IsResult(command) || IsEnd(command) || IsProgress(command) || IsNotice(command)
  }

  /** A command with the wrong number of sections, and a line that nobody knows, are refused. */
  lemma {:induction false} OtherLines(voc: Vocabulary, b: Backend, parts: seq<string>, now: nat)
    requires parts != [] && parts[0] != "" && TabFree(parts)
    requires if Known(parts[0]) then |parts| != SizeOf(parts[0]) else LineOf(parts) !in voc.others
    ensures Told(voc, b, parts, now) == Refused(b)
  {
    ToldIs(voc, b, parts, now);
    var m := SectionsMeaning(voc, parts, LineOf(parts), now);
    if IsResult(parts[0]) {
      assert m == ResultMeaning(parts) == Unclear;
    } else if IsEnd(parts[0]) {
      assert m == EndMeaning(voc, parts) == Unclear;
    } else if IsProgress(parts[0]) {
      assert m == ProgressMeaning(parts, now) == Unclear;
    } else if IsNotice(parts[0]) {
      assert m == NoticeMeaning(voc, parts) == Unclear;
    }
  }

  /** A helper may print whatever it likes after an error: the exit stays the one of the error, so no finished
      line makes it a success. */
  lemma {:induction false} ErrorLineStays(voc: Vocabulary, h: Helper, code: ErrorCode, more: seq<string>, now: nat)
    requires Harmless(voc) && Inv(h.backend) && !h.backend.life.setError && h.backend.life.exit == ExitUnknown
    ensures var e := h.(backend := Error(h.backend, code));
            var r := HandleLines(voc, e, more, now).backend;
            && e.backend.life.errorTimer && e.backend.trace == h.backend.trace + [ErrorSignal(code)]
            && e.backend.life.exit in {NeedUntrusted, CancelledPriority, Failed}
            && Inv(r) && r.life.setError && r.life.exit == e.backend.life.exit
            && (r.life.finishTimer ==> FinishTimeout(r).trace == r.trace + [FinishedSignal(e.backend.life.exit)])
            && (ExitsIn(r.trace) == [] || ExitsIn(r.trace) == [e.backend.life.exit])
  {
    ErrorEffect(h.backend, code);
    ErrorKeepsInv(h.backend, code);
    var e := h.(backend := Error(h.backend, code));
    ExitStays(voc, e, more, now);
    FinishedDelayEffect(HandleLines(voc, e, more, now).backend);
  }

  /** Every line is a call of the backend. */
  function CallOf(m: Meaning): Call {
    match m
    case Finish => CallFinished
    case Act(call) => call
    case Unclear => CallMessage(BackendError)
  }

  lemma {:induction false} LineIsCall(voc: Vocabulary, h: Helper, line: string, now: nat)
    requires Harmless(voc)
    ensures var c := CallOf(MeaningOf(voc, line, now));
            HandleLine(voc, h, line, now).backend == Do(h.backend, c) && (Working(c) || c == CallFinished)
  {
    var m := MeaningOf(voc, line, now);
    if m.Act? {
      ActIsWorking(voc, line, now);
    } else if m.Unclear? {
      assert Do(h.backend, CallMessage(BackendError)) == Message(h.backend, BackendError);
    }
  }

  lemma {:induction false} ExitStaysOnce(voc: Vocabulary, h: Helper, line: string, now: nat)
    requires Harmless(voc) && Inv(h.backend) && h.backend.life.setError && h.backend.life.exit != ExitUnknown
    ensures var r := HandleLine(voc, h, line, now).backend;
            Inv(r) && r.life.setError && r.life.exit == h.backend.life.exit
  {
    var c := CallOf(MeaningOf(voc, line, now));
    LineIsCall(voc, h, line, now);
    CallKeepsExit(h.backend, c);
  }

  lemma {:induction false} CallKeepsExit(b: Backend, c: Call)
    requires Inv(b) && b.life.setError && b.life.exit != ExitUnknown && (Working(c) || c == CallFinished)
    ensures var r := Do(b, c); Inv(r) && r.life.setError && r.life.exit == b.life.exit
  {
    assert OneEpoch(b, [c]) by { assert [c][1..] == []; }
    DoKeepsInv(b, c);
    LifeStep(b, c);
  }

  lemma {:induction false} ExitStays(voc: Vocabulary, h: Helper, lines: seq<string>, now: nat)
    requires Harmless(voc) && Inv(h.backend) && h.backend.life.setError && h.backend.life.exit != ExitUnknown
    ensures var r := HandleLines(voc, h, lines, now).backend;
            Inv(r) && r.life.setError && r.life.exit == h.backend.life.exit
    decreases |lines|
  {
    if lines != [] {
      ExitStaysOnce(voc, h, lines[0], now);
      ExitStays(voc, HandleLine(voc, h, lines[0], now), lines[1..], now);
    }
  }
}
