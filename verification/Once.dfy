/**
 * The early-unlocking once, called by any number of threads whose steps interleave freely. A thread is one
 * call of Do; a step is one load, lock, test, store, unlock, or the start or end of the call of f.
 */
module Once {

  datatype Pc =
    | Loading               // about to read `done` without the lock
    | Locking               // about to lock the mutex
    | Testing               // holds the mutex, about to read `done`
    | Storing               // holds the mutex, about to set `done`
    | Unlocking(won: bool)  // holds the mutex, about to release it
    | Calling               // may execute f
    | Running               // inside f
    | Returned(ran: bool)
  {
    predicate Holding() {
      Testing? || Storing? || Unlocking?
    }

    /** The thread has won the right to execute f. */
    predicate Won() {
      (Unlocking? && won) || Calling? || Running? || (Returned? && ran)
    }

    /** The thread has entered f. */
    predicate Entered() {
      Running? || (Returned? && ran)
    }
  }

  datatype State = State(done: bool, holder: int, pc: seq<Pc>, entries: nat)

  const NOBODY := -1

  predicate Start(s: State) {
    !s.done && s.holder == NOBODY && s.entries == 0 && forall t | 0 <= t < |s.pc| :: s.pc[t] == Loading
  }

  /** Where thread `t` goes next, if it can move. */
  predicate Enabled(s: State, t: nat)
    requires t < |s.pc|
  {
    !s.pc[t].Returned? && (s.pc[t].Locking? ==> s.holder == NOBODY)
  }

  function Step(s: State, t: nat): State
    requires t < |s.pc| && Enabled(s, t)
  {
    match s.pc[t]
    case Loading => s.(pc := s.pc[t := if s.done then Returned(false) else Locking])
    case Locking => s.(pc := s.pc[t := Testing], holder := t)
    case Testing => s.(pc := s.pc[t := if s.done then Unlocking(false) else Storing])
    case Storing => s.(pc := s.pc[t := Unlocking(true)], done := true)
    case Unlocking(won) => s.(pc := s.pc[t := if won then Calling else Returned(false)], holder := NOBODY)
    case Calling => s.(pc := s.pc[t := Running], entries := s.entries + 1)
    case Running => s.(pc := s.pc[t := Returned(true)])
  }

  /** `run` is the sequence of states of one interleaving. */
  ghost predicate IsRun(run: seq<State>) {
    && run != [] && Start(run[0])
    && forall i | 0 < i < |run| :: Moves(run[i - 1], run[i])
  }

  ghost predicate Moves(s: State, s': State) {
    exists t: nat :: t < |s.pc| && Enabled(s, t) && s' == Step(s, t)
  }

  function Winners(s: State): set<nat> {
    set t: nat | t < |s.pc| && s.pc[t].Won()
  }

  function EnteredBy(s: State): set<nat> {
    set t: nat | t < |s.pc| && s.pc[t].Entered()
  }

  /** The mutex is held by the thread that is between lock and unlock. */
  ghost predicate LockOk(s: State) {
    && (forall t | 0 <= t < |s.pc| :: s.pc[t].Holding() <==> s.holder == t)
    && (s.holder == NOBODY || 0 <= s.holder < |s.pc|)
  }

  /** The flag tells whether someone has won, and nobody is about to win a second time. */
  ghost predicate FlagOk(s: State) {
    && (forall t | 0 <= t < |s.pc| && s.pc[t].Storing? :: !s.done)
    && (forall t | 0 <= t < |s.pc| && s.pc[t].Won() :: s.done)
    && (forall t | 0 <= t < |s.pc| && (s.pc[t].Returned? || s.pc[t] == Unlocking(false)) :: s.done)
  }

  ghost predicate SomeoneWon(s: State) {
    s.done ==> exists t :: 0 <= t < |s.pc| && s.pc[t].Won()
  }

  ghost predicate OneWinner(s: State) {
    forall t, u | 0 <= t < u < |s.pc| && s.pc[t].Won() :: !s.pc[u].Won()
  }

  ghost predicate Inv(s: State) {
    LockOk(s) && FlagOk(s) && SomeoneWon(s) && OneWinner(s) && s.entries == |EnteredBy(s)|
  }

  lemma LockStep(s: State, t: nat)
    requires t < |s.pc| && Enabled(s, t) && LockOk(s)
    ensures LockOk(Step(s, t))
  {
  }

  lemma FlagStep(s: State, t: nat)
    requires t < |s.pc| && Enabled(s, t) && LockOk(s) && FlagOk(s)
    ensures FlagOk(Step(s, t))
  {
    forall u | 0 <= u < |s.pc| && u != t && s.pc[u].Storing?
      ensures !Step(s, t).done
    {
      assert s.holder == u;
    }
  }

  lemma SomeoneWonStep(s: State, t: nat)
    requires t < |s.pc| && Enabled(s, t) && SomeoneWon(s)
    ensures SomeoneWon(Step(s, t))
  {
    var s' := Step(s, t);
    if s'.done {
      if s.done {
        var u :| 0 <= u < |s.pc| && s.pc[u].Won();
        assert s'.pc[u].Won();
      } else {
        assert s'.pc[t].Won();
      }
    }
  }

  lemma OneWinnerStep(s: State, t: nat)
    requires t < |s.pc| && Enabled(s, t) && FlagOk(s) && OneWinner(s)
    ensures OneWinner(Step(s, t))
  {
    assert Step(s, t).pc[t].Won() ==> s.pc[t].Won() || s.pc[t].Storing?;
  }

  lemma EntriesStep(s: State, t: nat)
    requires t < |s.pc| && Enabled(s, t) && s.entries == |EnteredBy(s)|
    ensures Step(s, t).entries == |EnteredBy(Step(s, t))|
  {
    var s' := Step(s, t);
    if s.pc[t].Calling? {
      assert EnteredBy(s') == EnteredBy(s) + {t};
    } else {
      assert EnteredBy(s') == EnteredBy(s);
    }
  }

  lemma StepKeepsInv(s: State, t: nat)
    requires Inv(s) && t < |s.pc| && Enabled(s, t)
    ensures Inv(Step(s, t))
  {
    LockStep(s, t);
    FlagStep(s, t);
    SomeoneWonStep(s, t);
    OneWinnerStep(s, t);
    EntriesStep(s, t);
    hide LockOk, FlagOk, SomeoneWon, OneWinner, EnteredBy, Step;
  }

  lemma {:induction false} RunsKeepInv(run: seq<State>, i: nat)
    requires IsRun(run) && i < |run|
    ensures Inv(run[i]) && |run[i].pc| == |run[0].pc|
  {
    if i == 0 {
      assert EnteredBy(run[0]) == {};
    } else {
      RunsKeepInv(run, i - 1);
      hide Inv;
      assert Moves(run[i - 1], run[i]);
      var t: nat :| t < |run[i - 1].pc| && Enabled(run[i - 1], t) && run[i] == Step(run[i - 1], t);
      StepKeepsInv(run[i - 1], t);
    }
  }

  lemma AtMostOne(a: set<nat>)
    requires forall t, u | t in a && u in a :: t == u
    ensures |a| <= 1
  {
    if a != {} {
      var t :| t in a;
      assert a == {t};
    }
  }

  /**
   * In every interleaving f is entered at most once and by at most one thread; and as soon as any call of Do
   * has returned, exactly one thread has won the right to execute f.
   */
  lemma RunsAtMostOnce(run: seq<State>, i: nat)
    requires IsRun(run) && i < |run|
    ensures run[i].entries <= 1
    ensures |Winners(run[i])| <= 1 && EnteredBy(run[i]) <= Winners(run[i])
    ensures (exists t :: 0 <= t < |run[i].pc| && run[i].pc[t].Returned?) ==> |Winners(run[i])| == 1
  {
    RunsKeepInv(run, i);
    hide IsRun;
    var s := run[i];
    AtMostOne(Winners(s));
    AtMostOne(EnteredBy(s));
    if t :| 0 <= t < |s.pc| && s.pc[t].Returned? {
      var u :| 0 <= u < |s.pc| && s.pc[u].Won();
      assert u in Winners(s);
    }
  }

  /** Nothing deadlocks: as long as some call has not returned, some thread can move. */
  lemma SomeoneCanMove(run: seq<State>, i: nat, t: nat)
    requires IsRun(run) && i < |run| && t < |run[i].pc| && !run[i].pc[t].Returned?
    ensures exists u: nat :: u < |run[i].pc| && Enabled(run[i], u)
  {
    RunsKeepInv(run, i);
    var s := run[i];
    if s.holder == NOBODY {
      assert Enabled(s, t);
    } else {
      assert Enabled(s, s.holder);
    }
  }

  /** When all calls have returned, and there was one, f was executed exactly once, by exactly one of them. */
  lemma ExactlyOnceInTheEnd(run: seq<State>, i: nat)
    requires IsRun(run) && i < |run| && run[i].pc != []
    requires forall t | 0 <= t < |run[i].pc| :: run[i].pc[t].Returned?
    ensures run[i].entries == 1 && exists t :: 0 <= t < |run[i].pc| && run[i].pc[t] == Returned(true)
  {
    RunsKeepInv(run, i);
    RunsAtMostOnce(run, i);
    hide IsRun;
    var s := run[i];
    assert s.pc[0].Returned?;
    var u :| 0 <= u < |s.pc| && s.pc[u].Won();
    assert u in EnteredBy(s);
  }

  /** A thread that may execute f, or is executing it, does not hold the mutex. */
  lemma LockIsFreeDuringCall(run: seq<State>, i: nat, t: nat)
    requires IsRun(run) && i < |run| && t < |run[i].pc| && (run[i].pc[t].Calling? || run[i].pc[t].Running?)
    ensures run[i].holder != t
  {
    RunsKeepInv(run, i);
  }

  // ---------- The price of unlocking early ----------

  /** Some call of Do has returned. */
  predicate SomeReturned(s: State) {
    exists t :: 0 <= t < |s.pc| && s.pc[t].Returned?
  }

  /** The winner is still on its way to f. */
  predicate WinnerOnItsWay(s: State) {
    exists t :: 0 <= t < |s.pc| && (s.pc[t] == Unlocking(true) || s.pc[t].Calling?)
  }

  /** Unlike with the standard library's Once, a call has returned although f has not been entered. */
  predicate ReturnedEarly(s: State) {
    SomeReturned(s) && s.entries == 0
  }

  /** In any state, a call that has returned did so early exactly if the winner is still on its way to f. */
  lemma EarlyExactly(run: seq<State>, i: nat)
    requires IsRun(run) && i < |run| && SomeReturned(run[i])
    ensures ReturnedEarly(run[i]) <==> WinnerOnItsWay(run[i])
  {
    RunsKeepInv(run, i);
    hide IsRun;
    var s := run[i];
    var u :| 0 <= u < |s.pc| && s.pc[u].Won();
    assert EnteredBy(s) == if s.pc[u].Entered() then {u} else {};
  }

  /** A single caller never sees it. */
  lemma AloneIsNeverEarly(run: seq<State>, i: nat)
    requires IsRun(run) && i < |run| && |run[0].pc| <= 1
    ensures !ReturnedEarly(run[i])
  {
    RunsKeepInv(run, i);
    var s := run[i];
    if t :| 0 <= t < |s.pc| && s.pc[t].Returned? {
      EarlyExactly(run, i);
    }
  }

  /** With two callers or more: the first stores the flag, then the second sees it and returns. */
  lemma TwoCanBeEarly(n: nat) returns (run: seq<State>)
    requires n >= 2
    ensures IsRun(run) && |run[0].pc| == n && ReturnedEarly(run[|run| - 1])
  {
    var idle := seq(n, t => Loading);
    var s0 := State(false, NOBODY, idle, 0);
    var s1 := Step(s0, 0);
    var s2 := Step(s1, 0);
    var s3 := Step(s2, 0);
    var s4 := Step(s3, 0);
    var s5 := Step(s4, 1);
    assert Moves(s0, s1) && Moves(s1, s2) && Moves(s2, s3) && Moves(s3, s4) && Moves(s4, s5);
    run := [s0, s1, s2, s3, s4, s5];
    assert s5.pc[1].Returned?;
  }

  /**
   * An early return is possible exactly if there are at least two callers: that is the condition under which
   * the modified once loses the promise of the standard one.
   */
  lemma EarlyNeedsTwo(n: nat)
    ensures (exists run: seq<State> :: IsRun(run) && |run[0].pc| == n && ReturnedEarly(run[|run| - 1])) <==> n >= 2
  {
    if n >= 2 {
      var run := TwoCanBeEarly(n);
    } else {
      forall run: seq<State> | IsRun(run) && |run[0].pc| == n
        ensures !ReturnedEarly(run[|run| - 1])
      {
        AloneIsNeverEarly(run, |run| - 1);
      }
    }
  }
}
