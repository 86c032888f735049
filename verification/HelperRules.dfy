/** How a helper is started, stopped and given up, case by case. */
module HelperRules {
  import opened LineReader
  import opened BackendModel
  import opened HelperModel
  import opened HelperProofs

  /** The type of an exit that was seen: a replacement or a shutdown if one was asked for; else the signal; else
      the type that is left over, or how the process returned. */
  lemma {:induction false} ExitTypeExactly(voc: Vocabulary, h: Helper, p: Poll)
    requires !h.child.finished && (p.wait.Exited? || p.wait.Signalled?)
    ensures CheckChild(voc, h, p).0.child.exit
         == if h.child.changing then DispatcherChanged
            else if h.child.sendingExit then DispatcherExit
            else if p.wait == Signalled(true) then SigQuit
            else if p.wait == Signalled(false) then SigKill
            else if h.child.exit != SpawnUnknown then h.child.exit
            else if p.wait == Exited(true) then SpawnSuccess
            else SpawnFailed
  {
    OutputHandled(voc, h, p);
  }

  /** A helper that is gone is not polled or killed any more. */
  lemma {:induction false} GoneExactly(voc: Vocabulary, h: Helper, p: Poll)
    requires !h.child.finished && Gone(p.wait)
    ensures var c := CheckChild(voc, h, p).0.child;
            && !c.alive && !c.poll && !c.killTimer && c.finished
            && c.sendingExit == h.child.sendingExit && c.changing == h.child.changing
            && c.allowSigkill == h.child.allowSigkill && c.program == h.child.program
            && c.buffer == Residual(h.child.buffer + Appended(p.out))
  {
    OutputHandled(voc, h, p);
  }

  /** What the transaction is told about a helper that is gone: a kill is an error of its own, an end without a
      finished line is an internal error, and an exit that was asked for is nothing. */
  lemma {:induction false} ExitToldExactly(b: Backend, e: ExitType, done: bool)
    ensures ExitBackend(b, e, done)
         == if e == DispatcherExit || e == DispatcherChanged then b
            else
              var failed := if e == SigKill then Error(b, ProcessKill)
                            else if done then b else Error(b, InternalError);
              if done then failed else FinishedCall(failed)
  {
  }

  /** Cancelling a running helper: an error at once, a first signal, and a second one only where it is allowed. */
  lemma {:induction false} KillExactly(h: Helper)
    ensures var r := KillHelper(h);
            && r.backend == Error(h.backend, TransactionCancelled)
            && (h.child.alive && !h.child.finished && !h.child.killTimer ==>
                  r.child == h.child.(exit := SigQuit, killTimer := h.child.allowSigkill))
            && (!h.child.alive || h.child.finished || h.child.killTimer ==> r.child == h.child)
            && r.done == h.done
    ensures !h.child.finished ==> SigkillCb(h.child).exit == SigKill
    ensures h.child.finished ==> SigkillCb(h.child) == h.child
  {
  }

  /** A helper that runs the same program is given the next task without being read; so is a new one where
      none was alive. */
  lemma {:induction false} TaskGivenExactly(voc: Vocabulary, h: Helper, l: Launch)
    requires !h.child.sendingExit && !h.child.finished
    ensures var r := RunHelper(voc, h, l);
            && (h.child.alive && h.child.program == l.program && l.reuseWrote ==>
                  r == h.(done := false, idleTimer := false))
            && (!h.child.alive && l.spawned ==>
                  && !r.done && !r.idleTimer && r.backend == h.backend && r.lines == h.lines
                  && r.child == h.child.(alive := true, poll := true, program := l.program))
            && (!h.child.alive && !l.spawned ==>
                  r.child == h.child && r.backend == FinishedCall(Error(h.backend, InternalError)))
  {
  }

  /** A helper that has to make way but cannot be told is not read again, and left alone; if the next one cannot
      be started either, nothing is polled any more. */
  lemma {:induction false} UntoldExactly(voc: Vocabulary, h: Helper, l: Launch)
    requires h.child.alive && !h.child.finished && !h.child.sendingExit && !h.child.changing
    requires (h.child.program != l.program || !l.reuseWrote) && !l.exitWrote
    ensures var r := RunHelper(voc, h, l);
            && r.lines == h.lines
            && (if l.spawned
                then r.backend == h.backend && r.child == h.child.(poll := true, program := l.program)
                else r.backend == FinishedCall(Error(h.backend, InternalError)) && r.child == h.child.(poll := false))
  {
  }

  /** While a helper is being told to exit, its object takes no task. */
  lemma {:induction false} BusyExactly(voc: Vocabulary, h: Helper, l: Launch)
    requires h.child.sendingExit
    ensures var r := RunHelper(voc, h, l);
            r.child == h.child && r.lines == h.lines && r.backend == FinishedCall(Error(h.backend, InternalError))
  {
  }

  predicate Gone(w: Wait) { w.Exited? || w.Signalled? }

  /** A helper that is told to exit is polled 501 times. If it goes before the last poll that is a success; if it
      goes with the last one it is gone, but counts as a failure; and if it stays that counts as a success. */
  lemma {:induction false} PatienceExactly(voc: Vocabulary, h: Helper, polls: seq<Poll>, k: nat, n: nat)
    requires h.child.alive && !h.child.finished && k <= n && k <= 500
    requires Gone(PollAt(polls, n).wait) && forall j :: k <= j < n ==> !Gone(PollAt(polls, j).wait)
    ensures k <= EXIT_POLLS
    ensures var (r, ok) := ExitLoop(voc, h, polls, k);
            r.child.alive == (n > 500) && ok == (n != 500)
    decreases n - k
  {
    var p := PollAt(polls, k);
    OutputHandled(voc, h, p);
    var (h1, again) := CheckChild(voc, h, p);
    if k < n {
      assert !Gone(p.wait);
      assert h1.child.alive && !h1.child.finished && again;
      if k < 500 { PatienceExactly(voc, h1, polls, k + 1, n); }
    }
  }
}
