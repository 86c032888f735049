/**
 The transaction list as a value: one queue item per transaction, and one step for every
 main-loop callback or client request that reaches the list. The class in TransactionList.dfy
 works in place and is proved against these functions; what the list guarantees over whole
 runs is proved about them in SchedulerProofs.dfy.
 */
module Scheduler {
  import opened Shared

  /** The constructors stand in the order of PkTransactionState (src/pk-transaction.h); see Rank. */
  datatype TransactionState = New | WaitingForAuth | Committed | Ready | Running | Finished | Unknown

  function Rank(state: TransactionState): nat {
    match state
    case New => 0
    case WaitingForAuth => 1
    case Committed => 2
    case Ready => 3
    case Running => 4
    case Finished => 5
    case Unknown => 6
  }

  /** The state after a request to move to `wanted`, and whether the request was accepted. */
  function SetState(current: TransactionState, wanted: TransactionState): (TransactionState, bool)
    decreases wanted == Committed
  {
    if current != Unknown && Rank(current) > Rank(wanted) then (current, false)
    else if wanted == Committed then SetState(Committed, Ready)
    else (wanted, true)
  }

  /** A timer field says whether the corresponding source id is non-zero. */
  datatype Item = Item(
    tid: string,
    uid: nat,
    state: TransactionState,
    background: bool,
    commitTimer: bool,
    idle: bool,
    removeTimer: bool)

  type Queue = seq<Item>

  /** The first position of `tid` at or after `from`, or the length of the queue. */
  function FindFrom(q: Queue, tid: string, from: nat): (i: nat)
    requires from <= |q|
    ensures from <= i <= |q|
    ensures i < |q| ==> q[i].tid == tid
    ensures forall j :: from <= j < i ==> q[j].tid != tid
    decreases |q| - from
  {
    if from == |q| || q[from].tid == tid then from else FindFrom(q, tid, from + 1)
  }

  function Find(q: Queue, tid: string): (i: nat)
    ensures i <= |q|
    ensures i < |q| ==> q[i].tid == tid
    ensures forall j :: 0 <= j < i ==> q[j].tid != tid
  {
    FindFrom(q, tid, 0)
  }

  predicate Eligible(item: Item, foregroundOnly: bool) {
    item.state == Ready && (foregroundOnly ==> !item.background)
  }

  /** The first eligible position at or after `from`, or the length of the queue. */
  function FirstEligible(q: Queue, foregroundOnly: bool, from: nat): (i: nat)
    requires from <= |q|
    ensures from <= i <= |q|
    ensures i < |q| ==> Eligible(q[i], foregroundOnly)
    ensures forall j :: from <= j < i ==> !Eligible(q[j], foregroundOnly)
    decreases |q| - from
  {
    if from == |q| || Eligible(q[from], foregroundOnly) then from
    else FirstEligible(q, foregroundOnly, from + 1)
  }

  /** The first ready foreground transaction; without one, the first ready transaction. */
  function NextItem(q: Queue): (i: nat)
    ensures i <= |q|
    ensures i < |q| ==> q[i].state == Ready
    ensures i < |q| && !q[i].background ==> forall j :: 0 <= j < i ==> q[j].state != Ready || q[j].background
    ensures i < |q| && q[i].background ==> forall j :: 0 <= j < i ==> q[j].state != Ready
    ensures i < |q| && q[i].background ==> forall j :: 0 <= j < |q| && q[j].state == Ready ==> q[j].background
    ensures i == |q| ==> forall j :: 0 <= j < |q| ==> q[j].state != Ready
  {
    var foreground := FirstEligible(q, true, 0);
    if foreground < |q| then foreground else FirstEligible(q, false, 0)
  }

  /** The first running position, or the length of the queue. */
  function ActiveItem(q: Queue, from: nat): (i: nat)
    requires from <= |q|
    ensures from <= i <= |q|
    ensures i < |q| ==> q[i].state == Running
    ensures forall j :: from <= j < i ==> q[j].state != Running
    decreases |q| - from
  {
    if from == |q| || q[from].state == Running then from else ActiveItem(q, from + 1)
  }

  function RunItem(q: Queue, i: nat): (r: Queue)
    requires i < |q|
    ensures |r| == |q|
  {
    q[i := q[i].(state := SetState(q[i].state, Running).0, idle := true)]
  }

  function StartNext(q: Queue): (r: Queue)
    ensures |r| == |q|
  {
    var next := NextItem(q);
    if next < |q| then RunItem(q, next) else q
  }

  function RemoveAt(q: Queue, i: nat): Queue
    requires i < |q|
  {
    q[..i] + q[i + 1..]
  }

  /** The transactions of one user that are still listed, in whatever state. */
  function CountUid(q: Queue, uid: nat): (n: nat)
    ensures n <= |q|
  {
    if q == [] then 0 else (if q[0].uid == uid then 1 else 0) + CountUid(q[1..], uid)
  }

  // ----- one function per list operation -----

  /** `limit` is the configured SimultaneousTransactionsForUid. */
  function Create(q: Queue, tid: string, uid: nat, limit: nat): Queue {
    if Find(q, tid) < |q| || CountUid(q, uid) > limit then q
    else q + [Item(tid, uid, SetState(Unknown, New).0, false, true, false, false)]
  }

  function SetBackground(q: Queue, tid: string, background: bool): Queue {
    var i := Find(q, tid);
    if i == |q| || q[i].state == Finished then q else q[i := q[i].(background := background)]
  }

  function Authorize(q: Queue, tid: string): Queue {
    var i := Find(q, tid);
    if i == |q| then q else q[i := q[i].(state := SetState(q[i].state, WaitingForAuth).0)]
  }

  predicate CommitAccepted(q: Queue, tid: string) {
    var i := Find(q, tid);
    i < |q| && q[i].state != Committed && SetState(q[i].state, Committed).1
  }

  function Commit(q: Queue, tid: string): Queue {
    if !CommitAccepted(q, tid) then q
    else
      var i := Find(q, tid);
      var marked := q[i := q[i].(state := SetState(q[i].state, Committed).0, commitTimer := false)];
      if ActiveItem(marked, 0) == |marked| then RunItem(marked, i) else marked
  }

  /** The list's handler for a transaction's finished signal. */
  function Finish(q: Queue, tid: string): (r: Queue)
    ensures |r| == |q|
  {
    var i := Find(q, tid);
    if i == |q| || q[i].state == Finished then q
    else
      var used := q[i := q[i].(commitTimer := false)];
      var (state, ok) := SetState(used[i].state, Finished);
      if !ok then used
      else StartNext(used[i := used[i].(state := state, removeTimer := true)])
  }

  /** A released transaction: refused when finished, or running with its idle callback gone. */
  function Remove(q: Queue, tid: string): (r: Queue)
    ensures |r| <= |q|
  {
    var i := Find(q, tid);
    if i == |q| || q[i].state == Finished then q
    else if q[i].state == Running && !q[i].idle then q[i := q[i].(removeTimer := false)]
    else RemoveAt(q, i)
  }

  function RunIdle(q: Queue, tid: string): Queue {
    var i := Find(q, tid);
    if i == |q| || !q[i].idle then q else q[i := q[i].(idle := false)]
  }

  /** A transaction nobody committed in time is dropped. */
  function CommitTimeout(q: Queue, tid: string): Queue {
    var i := Find(q, tid);
    if i == |q| || !q[i].commitTimer then q else RemoveAt(q, i)
  }

  function RemoveTimeout(q: Queue, tid: string): Queue {
    var i := Find(q, tid);
    if i == |q| || !q[i].removeTimer then q else RemoveAt(q, i)
  }

  // ----- runs -----

  datatype Event =
    | Created(tid: string, uid: nat, limit: nat)
    | BackgroundSet(tid: string, background: bool)
    | AuthRequested(tid: string)
    | CommitRequested(tid: string)
    | FinishSignalled(tid: string)
    | Released(tid: string)
    | IdleFired(tid: string)
    | CommitTimerFired(tid: string)
    | RemoveTimerFired(tid: string)

  function Step(q: Queue, e: Event): Queue {
    match e
    case Created(tid, uid, limit) => Create(q, tid, uid, limit)
    case BackgroundSet(tid, background) => SetBackground(q, tid, background)
    case AuthRequested(tid) => Authorize(q, tid)
    case CommitRequested(tid) => Commit(q, tid)
    case FinishSignalled(tid) => Finish(q, tid)
    case Released(tid) => Remove(q, tid)
    case IdleFired(tid) => RunIdle(q, tid)
    case CommitTimerFired(tid) => CommitTimeout(q, tid)
    case RemoveTimerFired(tid) => RemoveTimeout(q, tid)
  }

  function Run(q: Queue, events: seq<Event>): Queue
    decreases |events|
  {
    if events == [] then q else Run(Step(q, events[0]), events[1..])
  }

  // ----- requests that are several steps long -----

  /** Cancelling a transaction that never ran finishes it and then tries to release it;
      a running one is cancelled through the backend and finishes later. */
  function CancelEvents(q: Queue, tid: string): seq<Event> {
    var i := Find(q, tid);
    if i < |q| && Rank(q[i].state) <= Rank(Ready) then [FinishSignalled(tid), Released(tid)] else []
  }

  function HintEvents(tid: string, hint: Hint): seq<Event> {
    if hint == HintUnset then [] else [BackgroundSet(tid, hint == HintTrue)]
  }

  /** A client commit sets the background hint, commits, and releases on failure. */
  function ClientCommitEvents(q: Queue, tid: string, hint: Hint): seq<Event> {
    HintEvents(tid, hint) +
    if ClientCommitAccepted(q, tid, hint) then [CommitRequested(tid)]
    else [CommitRequested(tid), Released(tid)]
  }

  predicate ClientCommitAccepted(q: Queue, tid: string, hint: Hint) {
    CommitAccepted(Run(q, HintEvents(tid, hint)), tid)
  }

  /** The answer of the authority, in whatever state the transaction is by then: a refusal finishes it, a
      consent commits it, and a failed commit releases it once more. */
  function AuthorizationEvents(q: Queue, tid: string, authorized: bool, hint: Hint): seq<Event> {
    if !authorized then [FinishSignalled(tid)]
    else
      ClientCommitEvents(q, tid, hint) + if ClientCommitAccepted(q, tid, hint) then [] else [Released(tid)]
  }

  /** One turn of the first loop of cancel_background. */
  function CancelPendingAt(q: Queue, i: nat): (r: Queue)
    requires i < |q|
    ensures |r| <= |q|
  {
    if Rank(q[i].state) >= Rank(Running) then q
    else
      var events := CancelEvents(q, q[i].tid);
      if events == [] then q else Remove(Finish(q, q[i].tid), q[i].tid)
  }

  /** The first loop of cancel_background from position `from` on; the array is re-read at every
      turn, because a cancel may start a later transaction. The second loop asks the backend to
      cancel and leaves the list alone. */
  function CancelPending(q: Queue, from: nat): Queue
    decreases |q| - from
  {
    if from >= |q| then q else CancelPending(CancelPendingAt(q, from), from + 1)
  }

  /** The transactions the second loop of cancel_background asks the backend to cancel. */
  function RunningBackground(q: Queue, from: nat): seq<string>
    requires from <= |q|
    decreases |q| - from
  {
    if from == |q| then []
    else (if q[from].state == Running && q[from].background then [q[from].tid] else [])
         + RunningBackground(q, from + 1)
  }

  /** What the wedge check counts. */
  function CountState(q: Queue, state: TransactionState): (n: nat)
    ensures n <= |q|
  {
    if q == [] then 0 else (if q[0].state == state then 1 else 0) + CountState(q[1..], state)
  }

  predicate IsConsistent(q: Queue) {
    q == [] ||
    (CountState(q, Running) <= 1 && CountState(q, Committed) + CountState(q, Ready) != |q|)
  }
}
