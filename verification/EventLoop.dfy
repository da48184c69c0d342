/**
 `EventLoop` as interleaved atomic steps: any number of threads push functors and write the
 eventfd while the loop thread polls, handles events, swaps the queue and runs the batch.
 */
module EventLoop {
  type Tid = nat

  /** The thread that runs `loop()`. */
  const LOOP: Tid := 0

  /**
   Where the loop thread stands in `loop()`: testing `quit_`, inside `epoll_wait`, handling
   active channels, about to swap, or running the swapped batch.
   */
  datatype Pc = AtCheck | AtPoll | Handling | AtSwap | Running | Exited

  datatype State<F> = State(
    pc: Pc,
    quit: bool,
    calling: bool,            // callingPendingFunctors_
    woken: bool,              // the wakeup channel is active and not yet handled
    eventfd: nat,             // counter behind wakeupFd_
    pending: seq<F>,          // pendingFunctors_
    batch: seq<F>,            // what is left of the swapped vector
    owing: set<Tid>,          // threads between a push or quit and their wakeup()
    pushed: seq<F>,           // history: everything ever pushed
    ran: seq<F>,              // history: everything ever run
    due: nat)                 // history: how much had been pushed when the last poll returned

  datatype Action<F> =
    | Push(t: Tid, f: F)      // the locked part of queueInLoop
    | Wakeup(t: Tid)
    | Quit(t: Tid)
    | Check
    | Poll(seen: bool)        // epoll_wait returns, reporting the eventfd or not
    | ReadWakeup              // EventLoop::handleRead
    | EndHandling
    | Swap
    | RunOne
    | EndRun

  /** User code runs in the loop thread while it handles events or runs functors. */
  predicate HasControl<F>(s: State<F>) {
    (s.pc.Handling? || s.pc.Running?) && LOOP !in s.owing
  }

  predicate MayAct<F>(s: State<F>, t: Tid) {
    if t == LOOP then HasControl(s) else t !in s.owing
  }

  predicate Enabled<F>(s: State<F>, a: Action<F>) {
    match a
    case Push(t, _) => MayAct(s, t)
    case Quit(t) => MayAct(s, t)
    case Wakeup(t) => t in s.owing
    case Check => s.pc.AtCheck?
    case Poll(seen) => s.pc.AtPoll? && (seen ==> s.eventfd > 0)
    case ReadWakeup => HasControl(s) && s.pc.Handling? && s.woken
    case EndHandling => HasControl(s) && s.pc.Handling? && !s.woken
    case Swap => s.pc.AtSwap?
    case RunOne => HasControl(s) && s.pc.Running? && s.batch != []
    case EndRun => HasControl(s) && s.pc.Running? && s.batch == []
  }

  function Apply<F>(s: State<F>, a: Action<F>): State<F>
    requires Enabled(s, a)
  {
    match a
    case Push(t, f) =>
      s.(pending := s.pending + [f], pushed := s.pushed + [f],
         owing := s.owing + if t != LOOP || s.calling then {t} else {})
    case Wakeup(t) => s.(eventfd := s.eventfd + 1, owing := s.owing - {t})
    case Quit(t) => s.(quit := true, owing := s.owing + if t != LOOP then {t} else {})
    case Check => s.(pc := if s.quit then Exited else AtPoll)
    case Poll(seen) => s.(pc := Handling, woken := seen, due := |s.pushed|)
    case ReadWakeup => s.(eventfd := 0, woken := false)
    case EndHandling => s.(pc := AtSwap, calling := true)
    case Swap => s.(pc := Running, batch := s.pending, pending := [])
    case RunOne => s.(batch := s.batch[1..], ran := s.ran + [s.batch[0]])
    case EndRun => s.(pc := AtCheck, calling := false)
  }

  function Step<F>(s: State<F>, a: Action<F>): State<F> {
    if Enabled(s, a) then Apply(s, a) else s
  }

  /** A run is any list of actions; those not enabled when their turn comes do nothing. */
  function Exec<F>(s: State<F>, acts: seq<Action<F>>): State<F> {
    if acts == [] then s else Step(Exec(s, acts[..|acts| - 1]), acts[|acts| - 1])
  }

  /**
   `loop()` is entered, which clears `quit_`, with `queued` already pending, `count` in the
   eventfd and the threads `late` between a push and its wakeup.
   */
  function Start<F>(queued: seq<F>, count: nat, late: set<Tid>): State<F> {
    State(AtCheck, false, false, false, count, queued, [], late, queued, [], 0)
  }

  // ---- Order -----------------------------------------------------------------------

  /** Run, then batch, then pending is the push order; the batch is empty outside Running. */
  ghost predicate Fifo<F>(s: State<F>) {
    && s.ran + s.batch + s.pending == s.pushed
    && (!s.pc.Running? ==> s.batch == [])
    && (s.calling <==> s.pc.AtSwap? || s.pc.Running?)
    && s.due <= |s.pushed|
    && (s.pc.Running? ==> s.due <= |s.ran + s.batch|)
    && (s.pc.AtCheck? || s.pc.AtPoll? || s.pc.Exited? ==> s.due <= |s.ran|)
  }

  lemma FifoStep<F>(s: State<F>, a: Action<F>)
    requires Fifo(s)
    ensures Fifo(Step(s, a))
  {
  }

  lemma {:induction false} FifoRun<F>(s: State<F>, acts: seq<Action<F>>)
    requires Fifo(s)
    ensures Fifo(Exec(s, acts))
  {
    if acts != [] {
      FifoRun(s, acts[..|acts| - 1]);
      FifoStep(Exec(s, acts[..|acts| - 1]), acts[|acts| - 1]);
    }
  }

  /**
   In every interleaving functors run once each and in push order, and whatever was pending
   when a poll returned has been run by the time the loop polls again.
   */
  lemma FunctorsRunInOrder<F>(queued: seq<F>, count: nat, late: set<Tid>, acts: seq<Action<F>>)
    ensures var s := Exec(Start(queued, count, late), acts);
            && s.ran + s.batch + s.pending == s.pushed
            && (s.pc.AtPoll? ==> s.batch == [] && s.due <= |s.pushed| && s.pushed[..s.due] <= s.ran)
  {
    FifoRun(Start(queued, count, late), acts);
    var s := Exec(Start(queued, count, late), acts);
    if s.pc.AtPoll? {
      assert s.ran + [] + s.pending == s.ran + s.pending;
      assert s.pushed[..s.due] == s.ran[..s.due];
    }
  }

  // ---- Wakeups ----------------------------------------------------------------------

  /** The poll returns at once, or a thread that pushed or quit is still about to make it return. */
  ghost predicate WillWake<F>(s: State<F>) {
    s.eventfd > 0 || exists t :: t in s.owing && t != LOOP
  }

  /** No functor waits behind a blocked poll, and no request to quit does. */
  ghost predicate NoLostWakeup<F>(s: State<F>) {
    s.pc.AtPoll? && (s.pending != [] || s.quit) ==> WillWake(s)
  }

  /** What holds between polls too: a nonempty queue is covered unless this iteration still swaps it. */
  ghost predicate Covered<F>(s: State<F>) {
    && (s.calling <==> s.pc.AtSwap? || s.pc.Running?)
    && (LOOP in s.owing ==> s.pc.Running?)
    && (s.pending != [] && (s.pc.Running? || s.pc.AtCheck? || s.pc.AtPoll?) ==> WillWake(s) || LOOP in s.owing)
    && (s.quit && s.pc.AtPoll? ==> WillWake(s))
  }

  lemma CoveredStep<F>(s: State<F>, a: Action<F>)
    requires Covered(s)
    ensures Covered(Step(s, a))
  {
  }

  lemma {:induction false} CoveredRun<F>(s: State<F>, acts: seq<Action<F>>)
    requires Covered(s)
    ensures Covered(Exec(s, acts))
  {
    if acts != [] {
      CoveredRun(s, acts[..|acts| - 1]);
      CoveredStep(Exec(s, acts[..|acts| - 1]), acts[|acts| - 1]);
    }
  }

  /**
   Exactly when no wakeup is ever lost: when `loop()` starts the queue is empty, or the eventfd
   holds a count, or a thread is about to add one. Work that the loop thread itself queued
   beforehand otherwise waits until the first poll times out or another event ends it.
   */
  lemma NoLostWakeupIff<F(!new)>(queued: seq<F>, count: nat, late: set<Tid>)
    requires LOOP !in late
    ensures (forall acts: seq<Action<F>> :: NoLostWakeup(Exec(Start(queued, count, late), acts)))
            <==> queued == [] || count > 0 || late != {}
  {
    var s0 := Start(queued, count, late);
    if queued == [] || count > 0 || late != {} {
      assert late != {} ==> exists t :: t in late;
      forall acts: seq<Action<F>> ensures NoLostWakeup(Exec(s0, acts)) {
        CoveredRun(s0, acts);
      }
    } else {
      var stuck: seq<Action<F>> := [Check];
      assert stuck[..0] == [];
      assert Exec(s0, stuck) == Step(Exec(s0, stuck[..0]), Check) == s0.(pc := AtPoll);
      assert !NoLostWakeup(Exec(s0, stuck));
    }
  }

  // ---- What the actions of a run bring about ----------------------------------------------
  //
  // These laws speak of the action list itself, not of histories that the steps keep.

  ghost predicate Happens<F>(s0: State<F>, acts: seq<Action<F>>, k: nat) {
    k < |acts| && Enabled(Exec(s0, acts[..k]), acts[k])
  }

  lemma Earlier<F>(s0: State<F>, acts: seq<Action<F>>, k: nat)
    requires k + 1 < |acts|
    ensures acts[..|acts| - 1][..k] == acts[..k]
    ensures Happens(s0, acts[..|acts| - 1], k) <==> Happens(s0, acts, k)
  {
    assert acts[..|acts| - 1][..k] == acts[..k];
  }

  /** The functors passed to `queueInLoop`, in order. */
  ghost function Given<F>(s0: State<F>, acts: seq<Action<F>>): seq<F> {
    if acts == [] then []
    else
      var n := |acts| - 1;
      Given(s0, acts[..n]) + if acts[n].Push? && Enabled(Exec(s0, acts[..n]), acts[n]) then [acts[n].f] else []
  }

  /** All that was pending or given is run, about to be run, or pending, in that order. */
  lemma {:induction false} GivenRunInOrder<F>(queued: seq<F>, count: nat, late: set<Tid>, acts: seq<Action<F>>)
    ensures var s := Exec(Start(queued, count, late), acts);
            s.pushed == queued + Given(Start(queued, count, late), acts) && s.ran + s.batch + s.pending == s.pushed
  {
    FunctorsRunInOrder(queued, count, late, acts);
    PushedIsGiven(Start(queued, count, late), acts);
  }

  lemma {:induction false} PushedIsGiven<F>(s0: State<F>, acts: seq<Action<F>>)
    ensures Exec(s0, acts).pushed == s0.pushed + Given(s0, acts)
  {
    if acts != [] { PushedIsGiven(s0, acts[..|acts| - 1]); }
  }

  /** Writes to the eventfd that no read has taken yet. */
  ghost function Unread<F>(s0: State<F>, acts: seq<Action<F>>): nat {
    if acts == [] then s0.eventfd
    else
      var n := |acts| - 1;
      var before := Unread(s0, acts[..n]);
      if !Enabled(Exec(s0, acts[..n]), acts[n]) then before
      else if acts[n].Wakeup? then before + 1
      else if acts[n].ReadWakeup? then 0
      else before
  }

  lemma {:induction false} EventfdIsUnread<F>(s0: State<F>, acts: seq<Action<F>>)
    ensures Exec(s0, acts).eventfd == Unread(s0, acts)
  {
    if acts != [] { EventfdIsUnread(s0, acts[..|acts| - 1]); }
  }

  /** What a poll found pending has been run before the loop tests `quit_` again. */
  lemma {:induction false} PendingAtPollIsRun<F>(queued: seq<F>, count: nat, late: set<Tid>, acts: seq<Action<F>>, k: nat)
    requires Happens(Start(queued, count, late), acts, k) && acts[k].Poll?
    ensures var s0 := Start(queued, count, late); var s := Exec(s0, acts);
            s.pc.AtCheck? || s.pc.AtPoll? || s.pc.Exited? ==> Exec(s0, acts[..k]).pushed <= s.ran
  {
    var s0 := Start(queued, count, late);
    var s := Exec(s0, acts);
    FifoRun(s0, acts);
    DueGrows(s0, acts, k);
    if s.pc.AtCheck? || s.pc.AtPoll? || s.pc.Exited? {
      assert s.ran + [] + s.pending == s.ran + s.pending;
    }
  }

  lemma {:induction false} DueGrows<F>(s0: State<F>, acts: seq<Action<F>>, k: nat)
    requires Fifo(s0) && Happens(s0, acts, k) && acts[k].Poll?
    ensures Exec(s0, acts[..k]).pushed <= Exec(s0, acts).pushed
    ensures |Exec(s0, acts[..k]).pushed| <= Exec(s0, acts).due
  {
    var n := |acts| - 1;
    if k < n {
      Earlier(s0, acts, k);
      DueGrows(s0, acts[..n], k);
      FifoRun(s0, acts[..n]);
    }
  }

  /** Somebody has told the loop to quit since `loop()` was entered. */
  ghost predicate Told<F>(s0: State<F>, acts: seq<Action<F>>) {
    exists k :: 0 <= k < |acts| && acts[k].Quit? && Happens(s0, acts, k)
  }

  lemma ToldStep<F>(s0: State<F>, acts: seq<Action<F>>)
    requires acts != []
    ensures var n := |acts| - 1;
            Told(s0, acts) <==> Told(s0, acts[..n]) || (acts[n].Quit? && Happens(s0, acts, n))
  {
    var n := |acts| - 1;
    if Told(s0, acts[..n]) {
      var k :| 0 <= k < n && acts[..n][k].Quit? && Happens(s0, acts[..n], k);
      Earlier(s0, acts, k);
      assert acts[k].Quit? && Happens(s0, acts, k);
    }
    if Told(s0, acts) {
      var k :| 0 <= k < |acts| && acts[k].Quit? && Happens(s0, acts, k);
      if k < n {
        Earlier(s0, acts, k);
        assert acts[..n][k].Quit? && Happens(s0, acts[..n], k);
      }
    }
  }

  lemma {:induction false} QuitIsTold<F>(s0: State<F>, acts: seq<Action<F>>)
    requires !s0.quit
    ensures Exec(s0, acts).quit <==> Told(s0, acts)
  {
    if acts != [] {
      QuitIsTold(s0, acts[..|acts| - 1]);
      ToldStep(s0, acts);
    }
  }

  /** The loop leaves at its first test after somebody told it to quit, and goes to poll at every one before. */
  lemma CheckObeysQuit<F>(queued: seq<F>, count: nat, late: set<Tid>, acts: seq<Action<F>>, k: nat)
    requires Happens(Start(queued, count, late), acts, k) && acts[k].Check?
    ensures var s0 := Start(queued, count, late); var pc := Exec(s0, acts[..k + 1]).pc;
            if Told(s0, acts[..k]) then pc.Exited? else pc.AtPoll?
  {
    QuitIsTold(Start(queued, count, late), acts[..k]);
    assert acts[..k + 1][..k] == acts[..k];
  }

  /** The loop thread writes a wakeup for itself only while it runs functors, and reads one exactly when it was reported. */
  lemma {:induction false} LoopThreadWakeups<F>(queued: seq<F>, count: nat, late: set<Tid>, acts: seq<Action<F>>)
    requires LOOP !in late
    ensures var s := Exec(Start(queued, count, late), acts);
            && (LOOP in s.owing ==> s.pc.Running?)
            && (acts != [] && Happens(Start(queued, count, late), acts, |acts| - 1) && acts[|acts| - 1].Poll? ==>
                  (s.woken <==> acts[|acts| - 1].seen))
  {
    if acts != [] {
      var n := |acts| - 1;
      LoopThreadWakeups(queued, count, late, acts[..n]);
      FifoRun(Start(queued, count, late), acts[..n]);
    }
  }
}
