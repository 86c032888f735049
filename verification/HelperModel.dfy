/**
 Backends that run as helper programs: the lines of a helper become calls of the shared backend, and
 its exit becomes a finish if the helper did not announce one itself.
 */
module HelperModel {
  import opened Shared
  import opened Text
  import opened Packages
  import opened Numbers
  import opened LineReader
  import opened BackendModel

  datatype ExitType =
    | SpawnUnknown | SpawnSuccess | SpawnFailed | DispatcherChanged | DispatcherExit | SigQuit | SigKill

  /** What the system says about the process when it is polled. */
  datatype Wait = WaitFailed | NotYet | Exited(ok: bool) | Signalled(quit: bool)

  /** One poll of the environment: what the pipes hold, and what has become of the process. */
  datatype Poll = Poll(out: seq<string>, err: string, wait: Wait, now: nat)

  /** The process that is run, or was run last. */
  datatype Child = Child(
    alive: bool,
    poll: bool,
    killTimer: bool,
    finished: bool,
    sendingExit: bool,
    changing: bool,
    allowSigkill: bool,
    exit: ExitType,
    buffer: string,
    program: string)

  /** `done` says that the present task has printed its finished line, `idleTimer` that the helper is
      to be shut down soon; `lines` are all the lines handled so far. */
  datatype Helper = Helper(child: Child, done: bool, idleTimer: bool, backend: Backend, lines: seq<string>)

  /** The names of errors, statuses and messages, and what the lines mean that are not modelled one by
      one. */
  datatype Vocabulary = Vocabulary(
    errors: map<string, ErrorCode>,
    statuses: map<string, Status>,
    messages: map<string, MessageKind>,
    others: map<string, Call>)

  // ----- lines -----

  const INFOS: seq<Info> :=
    [InfoUnknown, Installed, Available, Low, Enhancement, Normal, Bugfix, Important, Security, Blocked,
     Downloading, Updating, Installing, Removing, Cleanup, Obsoleting, CollectionInstalled,
     CollectionAvailable, InfoFinished, Reinstalling, Downgrading, Preparing, Decompressing, Untrusted, Trusted]

  function InfoIn(infos: seq<Info>, text: string): Info {
    if infos == [] then InfoUnknown
    else if InfoText(infos[0]) == text then infos[0]
    else InfoIn(infos[1..], text)
  }

  function InfoFrom(text: string): Info { InfoIn(INFOS, text) }

  datatype Meaning = Finish | Act(call: Call) | Unclear

  function PercentageIn(text: string): Option<nat> {
    var n := StrToInt(text);
    if n.None? || n.value < 0 || n.value > 100 then None else Some(n.value)
  }

  predicate IsProgress(command: string) {
    command == "percentage" || command == "subpercentage" || command == "no-percentage-updates" ||
    command == "item-percentage" || command == "speed"
  }

  /** A speed is cut to the width of the backend's field. */
  function ProgressMeaning(sections: seq<string>, now: nat): Meaning
    requires sections != [] && IsProgress(sections[0])
  {
    var command, size := sections[0], |sections|;
    if command == "no-percentage-updates" then
      (if size == 1 then Act(CallPercentage(PERCENTAGE_INVALID, now)) else Unclear)
    else if command == "item-percentage" then (if size == 3 then ItemMeaning(sections) else Unclear)
    else if size != 2 then Unclear
    else if command == "speed" then
      (var speed := StrToUint64(sections[1]);
       if speed.None? then Unclear else Act(CallSpeed(speed.value % UINT_RANGE)))
    else
      var n := PercentageIn(sections[1]);
      if n.None? then Unclear
      else if command == "percentage" then Act(CallPercentage(n.value, now))
      else Act(CallSubPercentage(n.value))
  }

  function ItemMeaning(sections: seq<string>): Meaning
    requires |sections| == 3
  {
    var n := PercentageIn(sections[2]);
    if !ValidId(sections[1]) || n.None? then Unclear else Act(CallItemProgress(sections[1], n.value))
  }

  predicate IsNotice(command: string) { command == "status" || command == "message" || command == "allow-cancel" }

  function NoticeMeaning(voc: Vocabulary, sections: seq<string>): Meaning
    requires sections != [] && IsNotice(sections[0])
  {
    var command, size := sections[0], |sections|;
    if command == "message" then
      (if size == 3 && sections[1] in voc.messages then Act(CallMessage(voc.messages[sections[1]])) else Unclear)
    else if size != 2 then Unclear
    else if command == "status" then
      (if sections[1] in voc.statuses then Act(CallStatus(voc.statuses[sections[1]])) else Unclear)
    else if sections[1] == "true" then Act(CallAllowCancel(true))
    else if sections[1] == "false" then Act(CallAllowCancel(false))
    else Unclear
  }

  predicate IsResult(command: string) { command == "package" || command == "files" }

  function ResultMeaning(sections: seq<string>): Meaning
    requires sections != [] && IsResult(sections[0])
  {
    if sections[0] == "package" then (if |sections| == 4 then PackageMeaning(sections) else Unclear)
    else if |sections| == 3 then Act(CallFiles(sections[1], sections[2]))
    else Unclear
  }

  function PackageMeaning(sections: seq<string>): Meaning
    requires |sections| == 4
  {
    var info := InfoFrom(sections[1]);
    if !ValidId(sections[2]) || info == InfoUnknown then Unclear
    else Act(CallPackage(info, sections[2], Some(sections[3])))
  }

  predicate IsEnd(command: string) { command == "finished" || command == "error" }

  function EndMeaning(voc: Vocabulary, sections: seq<string>): Meaning
    requires sections != [] && IsEnd(sections[0])
  {
    if sections[0] == "finished" then (if |sections| == 1 then Finish else Unclear)
    else if |sections| == 3 && sections[1] in voc.errors then Act(CallError(voc.errors[sections[1]]))
    else Unclear
  }

  function SectionsMeaning(voc: Vocabulary, sections: seq<string>, line: string, now: nat): Meaning {
    if sections == [] then Unclear
    else if IsResult(sections[0]) then ResultMeaning(sections)
    else if IsEnd(sections[0]) then EndMeaning(voc, sections)
    else if IsProgress(sections[0]) then ProgressMeaning(sections, now)
    else if IsNotice(sections[0]) then NoticeMeaning(voc, sections)
    else if line in voc.others then Act(voc.others[line])
    else Unclear
  }

  function MeaningOf(voc: Vocabulary, line: string, now: nat): Meaning {
    SectionsMeaning(voc, Split(line, '\t'), line, now)
  }

  function HandleLine(voc: Vocabulary, h: Helper, line: string, now: nat): Helper {
    var h1 := h.(lines := h.lines + [line]);
    match MeaningOf(voc, line, now)
    case Finish => h1.(backend := FinishedCall(h.backend), done := true, idleTimer := true)
    case Act(call) => h1.(backend := Do(h.backend, call))
    case Unclear => h1.(backend := Message(h.backend, BackendError))
  }

  function HandleLines(voc: Vocabulary, h: Helper, lines: seq<string>, now: nat): Helper
    decreases |lines|
  {
    if lines == [] then h else HandleLines(voc, HandleLine(voc, h, lines[0], now), lines[1..], now)
  }

  // ----- polling and the end of a process -----

  /** Error output is passed on as one message, standard output line by line. */
  function ReadOutput(voc: Vocabulary, h: Helper, p: Poll): Helper {
    var text := h.child.buffer + Appended(p.out);
    var h1 := if p.err != "" then h.(backend := Message(h.backend, BackendError)) else h;
    HandleLines(voc, h1.(child := h1.child.(buffer := Residual(text))), WholeLines(text), p.now)
  }

  predicate IsDispatcherExit(e: ExitType) { e == DispatcherExit || e == DispatcherChanged }

  /** A process that returns keeps an exit type that was set before, even one of an earlier process. */
  function OwnExit(c: Child, w: Wait): ExitType
    requires w.Exited? || w.Signalled?
  {
    match w
    case Signalled(quit) => if quit then SigQuit else SigKill
    case Exited(ok) => if c.exit != SpawnUnknown then c.exit else if ok then SpawnSuccess else SpawnFailed
  }

  function ReportedExit(c: Child, w: Wait): ExitType
    requires w.Exited? || w.Signalled?
  {
    if c.changing then DispatcherChanged else if c.sendingExit then DispatcherExit else OwnExit(c, w)
  }

  function ExitBackend(b: Backend, e: ExitType, done: bool): Backend {
    var b1 := if e == SigKill then Error(b, ProcessKill) else b;
    if IsDispatcherExit(e) || done then b1 else FinishedCall(Error(b1, InternalError))
  }

  function ExitCb(h: Helper, e: ExitType): Helper { h.(backend := ExitBackend(h.backend, e, h.done)) }

  function Bury(c: Child, e: ExitType): Child {
    c.(alive := false, poll := false, killTimer := false, finished := true, exit := e)
  }

  /** The second result says whether there is more to poll for. */
  function CheckChild(voc: Vocabulary, h: Helper, p: Poll): (Helper, bool) {
    if h.child.finished then (h, false)
    else
      var h1 := ReadOutput(voc, h, p);
      if p.wait.WaitFailed? || p.wait.NotYet? then (h1, true)
      else
        var e := ReportedExit(h1.child, p.wait);
        (ExitCb(h1.(child := Bury(h1.child, e)), e), false)
  }

  const EXIT_POLLS: nat := 500

  function PollAt(polls: seq<Poll>, k: nat): Poll {
    if k < |polls| then polls[k] else Poll([], "", NotYet, 0)
  }

  /** Polls until the process is gone or the patience is at its end. */
  function ExitLoop(voc: Vocabulary, h: Helper, polls: seq<Poll>, k: nat): (Helper, bool)
    requires k <= EXIT_POLLS
    decreases EXIT_POLLS - k
  {
    var (h1, again) := CheckChild(voc, h, PollAt(polls, k));
    if again && k < EXIT_POLLS then ExitLoop(voc, h1, polls, k + 1) else (h1, again || k < EXIT_POLLS)
  }

  function SendExit(voc: Vocabulary, h: Helper, wrote: bool, polls: seq<Poll>): (Helper, bool) {
    if h.child.sendingExit || h.child.finished || !h.child.alive || !wrote then (h, false)
    else
      var (h1, ok) := ExitLoop(voc, h.(child := h.child.(sendingExit := true)), polls, 0);
      (h1.(child := h1.child.(sendingExit := false)), ok)
  }

  // ----- starting and stopping -----

  /** A task for a helper program, and how the system takes it. */
  datatype Launch = Launch(program: string, reuseWrote: bool, exitWrote: bool, polls: seq<Poll>, spawned: bool)

  predicate Reuses(h: Helper, l: Launch) {
    h.child.alive && h.child.program == l.program && !h.child.finished && l.reuseWrote
  }

  /** An idle process of another program is told to exit first. */
  function Replace(voc: Vocabulary, h: Helper, l: Launch): Helper {
    var (h1, ok) := SendExit(voc, h.(child := h.child.(changing := true)), l.exitWrote, l.polls);
    h1.(child := h1.child.(changing := false, poll := h1.child.poll && ok))
  }

  function Spawned(c: Child, program: string): Child {
    c.(alive := true, poll := true, finished := false, program := program)
  }

  function StartProcess(voc: Vocabulary, h: Helper, l: Launch): (Helper, bool) {
    if h.child.sendingExit then (h, false)
    else if Reuses(h, l) then (h, true)
    else
      var h1 := if h.child.alive then Replace(voc, h, l) else h;
      if l.spawned then (h1.(child := Spawned(h1.child, l.program)), true)
      else (h1.(child := h1.child.(finished := false)), false)
  }

  function RunHelper(voc: Vocabulary, h: Helper, l: Launch): Helper {
    var (h1, ok) := StartProcess(voc, h.(idleTimer := false, done := false), l);
    if ok then h1 else h1.(backend := FinishedCall(Error(h1.backend, InternalError)))
  }

  function Kill(c: Child): Child {
    if c.killTimer || !c.alive || c.finished then c else c.(exit := SigQuit, killTimer := c.allowSigkill)
  }

  function SigkillCb(c: Child): Child { if c.finished then c else c.(exit := SigKill) }

  /** Cancelling: the script will just exit without finishing. */
  function KillHelper(h: Helper): Helper {
    h.(backend := Error(h.backend, TransactionCancelled), child := Kill(h.child))
  }

  function IdleTimeout(voc: Vocabulary, h: Helper, wrote: bool, polls: seq<Poll>): Helper {
    if h.idleTimer && h.child.alive then SendExit(voc, h, wrote, polls).0 else h
  }

  // ----- runs while one task is worked on -----

  datatype Event =
    | PollEvent(p: Poll)
    | KillEvent
    | SigkillEvent
    | IdleEvent(wrote: bool, polls: seq<Poll>)
    | BackendEvent(call: Call)

  function Step(voc: Vocabulary, h: Helper, e: Event): Helper {
    match e
    case PollEvent(p) => if h.child.poll && h.child.alive then CheckChild(voc, h, p).0 else h
    case KillEvent => KillHelper(h)
    case SigkillEvent => if h.child.killTimer then h.(child := SigkillCb(h.child)) else h
    case IdleEvent(wrote, polls) => IdleTimeout(voc, h, wrote, polls)
    case BackendEvent(call) => h.(backend := Do(h.backend, call))
  }

  function Run(voc: Vocabulary, h: Helper, events: seq<Event>): Helper
    decreases |events|
  {
    if events == [] then h else Run(voc, Step(voc, h, events[0]), events[1..])
  }
}
