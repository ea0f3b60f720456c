/** Suspending with the screen locked (mindshell/src/sleepwatch.rs): the
    watcher, the compositor it talks to and everybody else's requests, interleaved. */
module Suspend {
  import opened Common
  import opened Idle

  type Fd = nat

  datatype Purpose = Sleep | Resume

  /** A reply line of the compositor: the id of the request echoed, and the idle payload. */
  datatype Reply = Reply(id: nat, ok: bool, result: Event)

  function Actions(p: Purpose): seq<Request> {
    if p.Sleep? then [Lock, BlankDisplays] else [Lock, Wake]
  }

  /** What the watcher demands of the reply to its `id`-th request. */
  predicate Confirms(action: Request, id: nat, r: Reply) {
    && r.id == id && r.ok
    && (action.Lock? || action.BlankDisplays? ==> r.result.locked)
    && (action.BlankDisplays? ==> r.result.stage.Blank?)
  }

  /** The first `n` actions were all confirmed. */
  predicate Confirmed(actions: seq<Request>, script: seq<Option<Reply>>, n: nat)
    requires n <= |actions|
  {
    n <= |script| && forall i :: 0 <= i < n ==> script[i].Some? && Confirms(actions[i], i + 1, script[i].value)
  }

  // -------------------------------------------------------------- the watcher

  /** What the watcher keeps from one signal to the next, and the descriptors it has closed. */
  datatype Holdings = Holdings(inhibitor: Option<Fd>, wakeOnResume: bool, closed: seq<Fd>)

  function Close(fds: seq<Fd>, fd: Option<Fd>): seq<Fd> {
    if fd.Some? then fds + [fd.value] else fds
  }

  /** A signal taken care of: the descriptor it found is closed, and on resume the one granted
      is held. */
  function AfterSignal(h: Holdings, goingToSleep: bool, lockOnSleep: bool, granted: Option<Fd>): Holdings {
    Holdings(if goingToSleep then None else granted, goingToSleep && lockOnSleep, Close(h.closed, h.inhibitor))
  }

  /** The watcher's own object: the logind descriptor it holds and those it has closed.
      A script says what comes back on the socket: a reply, or None for an I/O error, an
      unreadable line or the deadline. */
  class Watcher {
    var inhibitor: Option<Fd>
    var wakeOnResume: bool
    var closed: seq<Fd>

    ghost function View(): Holdings
      reads this
    {
      Holdings(inhibitor, wakeOnResume, closed)
    }

    constructor (granted: Option<Fd>)
      ensures inhibitor == granted && !wakeOnResume && closed == []
    {
      inhibitor, wakeOnResume, closed := granted, false, [];
    }

    /** Each action is written once all before it were confirmed, and Ok means all of them were;
        nothing is written when the compositor cannot be reached. */
    method CompositorActions(actions: seq<Request>, reached: bool, script: seq<Option<Reply>>)
        returns (ok: bool, written: seq<Request>)
      ensures ok <==> reached && Confirmed(actions, script, |actions|)
      ensures written <= actions
      ensures forall n :: 0 <= n < |actions| ==> (n < |written| <==> reached && Confirmed(actions, script, n))
    {
      written := [];
      if !reached {
        return false, written;
      }
      for index := 0 to |actions|
        invariant written == actions[..index]
        invariant Confirmed(actions, script, index)
      {
        written := written + [actions[index]];
        if index >= |script| || script[index].None? {
          return false, written;
        }
        if !Confirms(actions[index], index + 1, script[index].value) {
          return false, written;
        }
      }
      return true, written;
    }

    /** With locking on, the compositor is asked to lock and, that confirmed, to blank; Ok means
        both were confirmed. The descriptor passed in is closed once, whatever came of it. */
    method PrepareSuspend(lock: bool, held: Option<Fd>, reached: bool, script: seq<Option<Reply>>)
        returns (ok: bool, written: seq<Request>)
      modifies this`closed
      ensures closed == Close(old(closed), held)
      ensures !lock ==> ok && written == []
      ensures lock ==> (ok <==> reached && Confirmed(Actions(Sleep), script, 2))
      ensures lock && ok ==>
        && script[0].value.id == 1 && script[0].value.ok && script[0].value.result.locked
        && script[1].value.id == 2 && script[1].value.ok && script[1].value.result.locked
        && script[1].value.result.stage.Blank?
      ensures lock && reached ==>
        written == if Confirmed(Actions(Sleep), script, 1) then [Lock, BlankDisplays] else [Lock]
      ensures !reached ==> written == []
    {
      if lock {
        ok, written := CompositorActions([Lock, BlankDisplays], reached, script);
        assert Confirmed(Actions(Sleep), script, 0);
        if ok {
          assert Confirms(Actions(Sleep)[0], 1, script[0].value) && Confirms(Actions(Sleep)[1], 2, script[1].value);
        }
      } else {
        ok, written := true, [];
      }
      if held.Some? {
        closed := closed + [held.value];
      }
    }

    /** One turn of the signal loop. */
    method Signal(goingToSleep: bool, lockOnSleep: bool, granted: Option<Fd>, reached: bool, script: seq<Option<Reply>>)
        returns (written: seq<Request>)
      modifies this
      ensures View() == AfterSignal(old(View()), goingToSleep, lockOnSleep, granted)
      ensures reached && goingToSleep && lockOnSleep ==>
        written == if Confirmed(Actions(Sleep), script, 1) then [Lock, BlankDisplays] else [Lock]
      ensures reached && !goingToSleep && old(wakeOnResume) ==>
        written == if Confirmed(Actions(Resume), script, 1) then [Lock, Wake] else [Lock]
      ensures !reached || (if goingToSleep then !lockOnSleep else !old(wakeOnResume)) ==> written == []
    {
      written := [];
      if goingToSleep {
        wakeOnResume := lockOnSleep;
        var held := inhibitor;
        inhibitor := None;
        var _, sent := PrepareSuspend(lockOnSleep, held, reached, script);
        written := sent;
      } else {
        if inhibitor.Some? {
          closed := closed + [inhibitor.value];
        }
        inhibitor := granted;
        if wakeOnResume {
          var _, sent := CompositorActions([Lock, Wake], reached, script);
          assert Confirmed(Actions(Resume), script, 0);
          written := sent;
          wakeOnResume := false;
        }
      }
    }
  }

  // ---------------------------------------------------------- the whole system

  datatype Wire = Ready | Written | Replied(reply: Reply)

  datatype Task =
    | Waiting
    | Connecting(purpose: Purpose)
    | Acting(purpose: Purpose, index: nat, wire: Wire, client: ClientId)

  datatype System = System(
    idle: State, task: Task,
    inhibitor: Option<Fd>,   // ready for the next suspend
    held: Option<Fd>,        // passed to the prepare_suspend in progress
    wakeOnResume: bool, nextFd: Fd, released: seq<Fd>)

  datatype Move =
    | Compositor(e: Timed)          // input, timers and every other client
    | SleepSignal(lock: bool)       // PrepareForSleep(true)
    | ResumeSignal(granted: bool)   // PrepareForSleep(false)
    | Connect(now: Millis)
    | Write
    | Answer(now: Millis)           // the compositor serves the watcher
    | Read
    | Fail                          // refused, broken, unreadable or timed out

  function Finish(s: System): System
    requires !s.task.Waiting?
  {
    if s.task.purpose.Sleep? then s.(task := Waiting, released := Close(s.released, s.held), held := None)
    else s.(task := Waiting, wakeOnResume := false)
  }

  ghost predicate CanMove(s: System, m: Move) {
    match m
    case Compositor(e) => Enabled(s.idle, e) && !(s.task.Acting? && e.action.Serve? && e.action.client == s.task.client)
    case SleepSignal(_) => s.task.Waiting?
    case ResumeSignal(_) => s.task.Waiting?
    case Connect(now) => s.task.Connecting? && s.idle.clock <= now
    case Write => s.task.Acting? && s.task.wire.Ready?
    case Answer(now) =>
      s.task.Acting? && s.task.wire.Written? && s.task.client in s.idle.clients && s.idle.clock <= now &&
        s.task.index < 2
    case Read => s.task.Acting? && s.task.wire.Replied? && s.task.index < 2
    case Fail => !s.task.Waiting?
  }

  function Act(s: System, m: Move): System
    requires CanMove(s, m)
  {
    match m
    case Compositor(e) => s.(idle := Step(s.idle, e))
    case SleepSignal(lock) =>
      if lock then s.(wakeOnResume := true, task := Connecting(Sleep), held := s.inhibitor, inhibitor := None)
      else s.(wakeOnResume := false, released := Close(s.released, s.inhibitor), inhibitor := None)
    case ResumeSignal(granted) =>
      s.(released := Close(s.released, s.inhibitor),
         inhibitor := if granted then Some(s.nextFd) else None,
         nextFd := if granted then s.nextFd + 1 else s.nextFd,
         task := if s.wakeOnResume then Connecting(Resume) else Waiting)
    case Connect(now) =>
      s.(idle := Step(s.idle, At(now, Accept)), task := Acting(s.task.purpose, 0, Ready, s.idle.nextClient + 1))
    case Write => s.(task := s.task.(wire := Written))
    case Answer(now) =>
      var idle := Step(s.idle, At(now, Serve(s.task.client, Actions(s.task.purpose)[s.task.index])));
      s.(idle := idle, task := s.task.(wire := Replied(Reply(s.task.index + 1, true, Payload(idle)))))
    case Read =>
      if !Confirms(Actions(s.task.purpose)[s.task.index], s.task.index + 1, s.task.wire.reply) then Finish(s)
      else if s.task.index == 1 then Finish(s)
      else s.(task := s.task.(index := 1, wire := Ready))
    case Fail => Finish(s)
  }

  ghost predicate Begins(s: System) {
    && (exists prefs, now :: s.idle == Initial(prefs, now))
    && s.task.Waiting? && s.held.None? && !s.wakeOnResume && s.released == []
    && s.nextFd == (if s.inhibitor.Some? then 1 else 0) && (s.inhibitor.Some? ==> s.inhibitor.value == 0)
  }

  ghost predicate Behaviour(states: seq<System>, moves: seq<Move>) {
    && |states| == |moves| + 1
    && Begins(states[0])
    && forall i :: 0 <= i < |moves| ==> CanMove(states[i], moves[i]) && states[i + 1] == Act(states[i], moves[i])
  }

  /** `prepare_suspend` returns Ok with locking on, at this move. */
  ghost predicate SuspendsOk(s: System, m: Move) {
    && m.Read? && s.task.Acting? && s.task.purpose.Sleep? && s.task.index == 1
    && s.task.wire.Replied? && Confirms(BlankDisplays, 2, s.task.wire.reply)
  }

  /** The idle steps a move amounts to: none or one, and never an Unlock of the watcher's. */
  lemma ActIdle(s: System, m: Move)
    requires CanMove(s, m) && Inv(s.idle)
    ensures Inv(Act(s, m).idle)
    ensures s.idle.locked && !Act(s, m).idle.locked ==>
              m.Compositor? && m.e.action.Serve? && m.e.action.request.Unlock?
  {
    hide Step, Inv, Effect;
    match m
    case Compositor(e) => StepKeepsInv(s.idle, e); LockStep(s.idle, e);
    case Connect(now) => StepKeepsInv(s.idle, At(now, Accept)); LockStep(s.idle, At(now, Accept));
    case Answer(now) =>
      var e := At(now, Serve(s.task.client, Actions(s.task.purpose)[s.task.index]));
      StepKeepsInv(s.idle, e);
      LockStep(s.idle, e);
    case _ =>
  }

  lemma LockStep(s: State, e: Timed)
    requires Inv(s) && Enabled(s, e)
    ensures s.locked && !Step(s, e).locked ==> e.action.Serve? && e.action.request.Unlock?
  {
    hide Step, Told, Armed;
    StepEffect(s, e);
  }

  lemma {:induction false} IdleInvAlways(states: seq<System>, moves: seq<Move>, i: nat)
    requires Behaviour(states, moves) && i < |states|
    ensures Inv(states[i].idle)
  {
    hide Inv, Act, CanMove, Initial;
    if i == 0 {
      var prefs, now :| states[0].idle == Initial(prefs, now);
      assert Run([states[0].idle], []);
      InvAlways([states[0].idle], [], 0);
    } else {
      IdleInvAlways(states, moves, i - 1);
      ActIdle(states[i - 1], moves[i - 1]);
    }
  }

  // ------------------------------------------------------ the watcher's part of it

  function HoldingsOf(s: System): Holdings {
    Holdings(s.inhibitor, s.wakeOnResume, s.released)
  }

  /** The descriptor logind grants with a resume signal, if it does. */
  function Granted(s: System, m: Move): Option<Fd> {
    if m.ResumeSignal? && m.granted then Some(s.nextFd) else None
  }

  /** Since signal `m` came in state `s`, the watcher has got to `t`. */
  ghost predicate Underway(s: System, m: Move, t: System)
    requires m.SleepSignal? || m.ResumeSignal?
  {
    if t.task.Waiting? then
      && t.held.None?
      && HoldingsOf(t) == AfterSignal(HoldingsOf(s), m.SleepSignal?, m.SleepSignal? && m.lock, Granted(s, m))
    else if m.SleepSignal? then
      m.lock && t.task.purpose.Sleep? && t.held == s.inhibitor && HoldingsOf(t) == Holdings(None, true, s.released)
    else
      && t.task.purpose.Resume? && t.held.None?
      && HoldingsOf(t) == Holdings(Granted(s, m), true, Close(s.released, s.inhibitor))
  }

  lemma ActUnderway(s: System, m: Move, t: System, n: Move)
    requires (m.SleepSignal? || m.ResumeSignal?) && Underway(s, m, t) && !t.task.Waiting? && CanMove(t, n)
    ensures Underway(s, m, Act(t, n))
  {
    hide Step, Confirms;
  }

  /** Among everybody else's moves the watcher does with a signal what `Watcher.Signal` does:
      when it waits for the next one, it holds and has closed the same descriptors. */
  lemma {:induction false} SignalAgrees(states: seq<System>, moves: seq<Move>, i: nat, j: nat)
    requires Behaviour(states, moves) && i < j < |states| && (moves[i].SleepSignal? || moves[i].ResumeSignal?)
    requires forall k :: i < k < j ==> !states[k].task.Waiting?
    ensures Underway(states[i], moves[i], states[j])
    ensures states[j].task.Waiting? ==>
      var (s, m) := (states[i], moves[i]);
      HoldingsOf(states[j]) == AfterSignal(HoldingsOf(s), m.SleepSignal?, m.SleepSignal? && m.lock, Granted(s, m))
    decreases j
  {
    if j == i + 1 {
      DescriptorsAccounted(states, moves, i);
    } else {
      SignalAgrees(states, moves, i, j - 1);
      hide Act, CanMove, Begins;
      ActUnderway(states[i], moves[i], states[j - 1], moves[j - 1]);
    }
  }

  // ---------------------------------------------------------- the descriptors

  /** Every descriptor logind granted is ready, in use or closed: one of them, once. */
  ghost predicate Accounted(s: System) {
    && NoDup(s.released)
    && (forall fd :: fd in s.released ==> fd < s.nextFd)
    && (s.inhibitor.Some? ==> s.inhibitor.value < s.nextFd && s.inhibitor.value !in s.released)
    && (s.held.Some? ==> s.held.value < s.nextFd && s.held.value !in s.released && s.held != s.inhibitor)
    && (forall fd :: 0 <= fd < s.nextFd ==> fd in s.released || s.inhibitor == Some(fd) || s.held == Some(fd))
    && (s.held.Some? ==> !s.task.Waiting? && s.task.purpose.Sleep?)
  }

  lemma ActAccounts(s: System, m: Move)
    requires CanMove(s, m) && Accounted(s)
    ensures Accounted(Act(s, m))
  {
    hide Step, Confirms;
    var t := Act(s, m);
    assert forall fd :: fd in s.released ==> fd in t.released;
  }

  lemma {:induction false} DescriptorsAccounted(states: seq<System>, moves: seq<Move>, i: nat)
    requires Behaviour(states, moves) && i < |states|
    ensures Accounted(states[i])
  {
    hide CanMove, Act;
    if i > 0 {
      hide Accounted;
      DescriptorsAccounted(states, moves, i - 1);
      ActAccounts(states[i - 1], moves[i - 1]);
    }
  }

  // ------------------------------------------------------------- the handshake

  /** From `j` to `i` one and the same suspend attempt is under way, holding the same
      descriptor, and at `j` the session was locked and the displays off. */
  ghost predicate ConfirmedSince(states: seq<System>, j: nat, i: nat)
    requires j <= i < |states|
  {
    && states[j].idle.locked && states[j].idle.stage.Blank? && states[j].idle.displaysOff
    && forall k :: j <= k <= i ==>
         states[k].task.Acting? && states[k].task.purpose.Sleep? && states[k].held == states[i].held
  }

  /** A good answer on the wire is evidence of a moment that was. */
  lemma {:induction false} AnswerIsEvidence(states: seq<System>, moves: seq<Move>, i: nat) returns (j: nat)
    requires Behaviour(states, moves) && i < |states|
    requires var t := states[i].task;
      t.Acting? && t.purpose.Sleep? && t.index == 1 && t.wire.Replied? && Confirms(BlankDisplays, 2, t.wire.reply)
    ensures j <= i && ConfirmedSince(states, j, i)
  {
    var p, m := states[i - 1], moves[i - 1];
    IdleInvAlways(states, moves, i);
    hide Step, Inv, Initial;
    if m.Answer? {
      assert Payload(states[i].idle) == states[i].task.wire.reply.result;
      j := i;
    } else {
      assert p.task == states[i].task && p.held == states[i].held by { assert states[i] == Act(p, m); }
      j := AnswerIsEvidence(states, moves, i - 1);
    }
  }

  /** The handshake: in every interleaving, an Ok from `prepare_suspend` means there was a
      moment of this very attempt, its descriptor still held, with the session locked and
      the displays off; the descriptor is closed by this move, for the first time. */
  lemma SuspendHandshake(states: seq<System>, moves: seq<Move>, i: nat) returns (j: nat)
    requires Behaviour(states, moves) && i < |moves| && SuspendsOk(states[i], moves[i])
    ensures j <= i && ConfirmedSince(states, j, i)
    ensures states[i + 1].released == Close(states[i].released, states[i].held)
    ensures states[i].held.Some? ==> states[i].held.value !in states[i].released
  {
    DescriptorsAccounted(states, moves, i);
    j := AnswerIsEvidence(states, moves, i);
  }

  /** Nothing but the end of the attempt lets go of the descriptor. */
  lemma HeldUntilDone(s: System, m: Move)
    requires CanMove(s, m) && s.held.Some? && Accounted(s)
    ensures Act(s, m).held == s.held || (Act(s, m).task.Waiting? && Act(s, m).released == s.released + [s.held.value])
    ensures Act(s, m).held == s.held ==> s.held.value !in Act(s, m).released
  {
  }

  /** From the signal on the descriptor is held, until it is closed for good. */
  lemma {:induction false} HeldOrClosed(states: seq<System>, moves: seq<Move>, i: nat, j: nat, fd: Fd)
    requires Behaviour(states, moves) && i < j < |states|
    requires moves[i] == SleepSignal(true) && states[i].inhibitor == Some(fd)
    ensures states[j].held == Some(fd) || fd in states[j].released
    decreases j
  {
    if i + 1 < j {
      HeldOrClosed(states, moves, i, j - 1, fd);
      DescriptorsAccounted(states, moves, j - 1);
      hide CanMove, Begins, Accounted;
      if states[j - 1].held == Some(fd) {
        HeldUntilDone(states[j - 1], moves[j - 1]);
      } else {
        ClosedStays(states[j - 1], moves[j - 1], fd);
      }
    }
  }

  lemma ClosedStays(s: System, m: Move, fd: Fd)
    requires CanMove(s, m) && fd in s.released
    ensures fd in Act(s, m).released
  {
    hide Step, Confirms;
  }

  /** With locking on, the machine is let go to sleep only after the attempt failed, the
      compositor did not confirm, or it had confirmed both: then there was a moment of this very
      attempt, the descriptor held, with the session locked and the displays off. */
  lemma {:induction false} ReleasedOnlyAfter(states: seq<System>, moves: seq<Move>, i: nat, j: nat, fd: Fd)
      returns (k: nat, l: nat)
    requires Behaviour(states, moves) && i < j < |states|
    requires moves[i] == SleepSignal(true) && states[i].inhibitor == Some(fd) && fd in states[j].released
    ensures i < k < j && states[k].held == Some(fd)
    ensures var (t, m) := (states[k].task, moves[k]);
      || m.Fail?
      || (m.Read? && t.Acting? && t.index < 2 && t.wire.Replied? && t.purpose.Sleep? &&
          !Confirms(Actions(Sleep)[t.index], t.index + 1, t.wire.reply))
      || (SuspendsOk(states[k], m) && i < l <= k && ConfirmedSince(states, l, k))
    decreases j
  {
    hide Act, CanMove, Begins, Accounted;
    l := 0;
    if i + 1 < j && fd in states[j - 1].released {
      k, l := ReleasedOnlyAfter(states, moves, i, j - 1, fd);
    } else {
      k := j - 1;
      DescriptorsAccounted(states, moves, i);
      SignalHolds(states[i], moves[i], fd);
      if i + 1 == j {
        assert false;
      } else {
        HeldOrClosed(states, moves, i, k, fd);
        DescriptorsAccounted(states, moves, k);
        ReleasingMove(states[k], moves[k], fd);
        if SuspendsOk(states[k], moves[k]) {
          l := AnswerIsEvidence(states, moves, k);
        }
      }
    }
  }

  /** The signal starts an attempt that holds the descriptor. */
  lemma SignalHolds(s: System, m: Move, fd: Fd)
    requires CanMove(s, m) && Accounted(s) && m == SleepSignal(true) && s.inhibitor == Some(fd)
    ensures s.task.Waiting? && fd !in Act(s, m).released && Act(s, m).held == Some(fd)
    ensures Act(s, m).task == Connecting(Sleep)
  {
  }

  /** What a move that closes the held descriptor can be. */
  lemma ReleasingMove(s: System, m: Move, fd: Fd)
    requires CanMove(s, m) && Accounted(s) && s.held == Some(fd) && fd in Act(s, m).released
    ensures s.task.Acting? || m.Fail?
    ensures
      || m.Fail?
      || (m.Read? && s.task.purpose.Sleep? && s.task.index < 2 && s.task.wire.Replied? &&
          !Confirms(Actions(Sleep)[s.task.index], s.task.index + 1, s.task.wire.reply))
      || SuspendsOk(s, m)
  {
    hide Step, Confirms;
  }

  /** After a suspend with locking on, the next resume asks to lock and wake again. */
  lemma {:induction false} ResumeFollows(states: seq<System>, moves: seq<Move>, i: nat, j: nat)
    requires Behaviour(states, moves) && i < j < |states| && moves[i] == SleepSignal(true)
    requires forall k :: i < k < j ==> !moves[k].SleepSignal? && !moves[k].ResumeSignal?
    ensures states[j].wakeOnResume && (states[j].task.Waiting? || states[j].task.purpose.Sleep?)
    ensures j < |moves| && moves[j].ResumeSignal? ==> states[j + 1].task == Connecting(Resume)
    decreases j
  {
    if i + 1 < j { ResumeFollows(states, moves, i, j - 1); }
    hide Step, Confirms;
  }

  lemma Asked(s: State, now: Millis, client: ClientId, a: Request)
    requires Inv(s) && s.clock <= now && client in s.clients && (a.Lock? || a.BlankDisplays? || a.Wake?)
    ensures var t := Step(s, At(now, Serve(client, a)));
      && Inv(t) && t.clock == now && client in t.clients
      && (a.Lock? || s.locked ==> t.locked)
      && (a.BlankDisplays? ==> t.stage.Blank?) && (a.Wake? ==> t.stage.Active?)
  {
    var e := At(now, Serve(client, a));
    StepEffect(s, e);
    hide Step, Inv, Told, Armed, Payload;
    StepKeepsInv(s, e);
  }

  /** Connected, the watcher has its next action served and reads a reply that confirms it. */
  lemma OneAction(s: System, now: Millis) returns (t: System)
    requires s.task.Acting? && s.task.wire.Ready? && s.task.index < 2 && s.task.client in s.idle.clients
    requires Inv(s.idle) && s.idle.clock <= now
    ensures CanMove(s, Write) && CanMove(Act(s, Write), Answer(now)) && CanMove(Act(Act(s, Write), Answer(now)), Read)
    ensures t == Act(Act(Act(s, Write), Answer(now)), Read)
    ensures var a := Actions(s.task.purpose)[s.task.index];
      var idle := Step(s.idle, At(now, Serve(s.task.client, a)));
      && t.idle == idle && Inv(idle)
      && (a.Lock? || s.idle.locked ==> idle.locked)
      && (a.BlankDisplays? ==> idle.stage.Blank?) && (a.Wake? ==> idle.stage.Active?)
      && idle.clock == now && s.task.client in idle.clients
    ensures s.task.index == 0 ==>
      t.task == s.task.(index := 1) && t.held == s.held && t.released == s.released && t.wakeOnResume == s.wakeOnResume
    ensures s.task.index == 1 && s.idle.locked ==>
      && t.task.Waiting? && t.released == (if s.task.purpose.Sleep? then Close(s.released, s.held) else s.released)
      && t.wakeOnResume == (s.task.purpose.Sleep? && s.wakeOnResume)
  {
    var a := Actions(s.task.purpose)[s.task.index];
    hide Step, Inv, Told, Armed;
    Asked(s.idle, now, s.task.client, a);
    t := Act(Act(Act(s, Write), Answer(now)), Read);
  }

  ghost predicate Path(states: seq<System>, moves: seq<Move>) {
    && |states| == |moves| + 1
    && forall i :: 0 <= i < |moves| ==> CanMove(states[i], moves[i]) && states[i + 1] == Act(states[i], moves[i])
  }

  /** An attempt nobody disturbs does what it is for: before sleep the session ends up locked and
      dark and the descriptor is closed; on resume it ends up locked and lit. */
  lemma Undisturbed(s: System, now: Millis) returns (states: seq<System>)
    requires s.task.Connecting? && Inv(s.idle) && s.idle.clock <= now
    ensures Path(states, [Connect(now), Write, Answer(now), Read, Write, Answer(now), Read])
    ensures states[0] == s && states[7].task.Waiting? && states[7].idle.locked
    ensures s.task.purpose.Sleep? ==>
      states[7].idle.stage.Blank? && states[7].idle.displaysOff && states[7].released == Close(s.released, s.held)
    ensures s.task.purpose.Resume? ==>
      states[7].idle.stage.Active? && !states[7].idle.displaysOff && !states[7].wakeOnResume
  {
    hide Step, Inv, Act, CanMove, Path, Close;
    var c := Connected(s, now);
    var a := OneAction(c, now);
    var t := OneAction(a, now);
    DisplaysTold(t.idle);
    var w, x := Act(c, Write), Act(a, Write);
    states := [s, c, w, Act(w, Answer(now)), a, x, Act(x, Answer(now)), t];
    SevenMoves(states, now);
  }

  lemma Connected(s: System, now: Millis) returns (c: System)
    requires s.task.Connecting? && Inv(s.idle) && s.idle.clock <= now
    ensures CanMove(s, Connect(now)) && c == Act(s, Connect(now))
    ensures c.task == Acting(s.task.purpose, 0, Ready, c.task.client) && c.task.client in c.idle.clients
    ensures Inv(c.idle) && c.idle.clock == now
    ensures c.held == s.held && c.released == s.released && c.wakeOnResume == s.wakeOnResume
  {
    StepEffect(s.idle, At(now, Accept));
    StepKeepsInv(s.idle, At(now, Accept));
    c := Act(s, Connect(now));
    hide Step, Told, Armed, Inv;
  }

  lemma SevenMoves(states: seq<System>, now: Millis)
    requires |states| == 8
    requires CanMove(states[0], Connect(now)) && states[1] == Act(states[0], Connect(now))
    requires CanMove(states[1], Write) && states[2] == Act(states[1], Write)
    requires CanMove(states[2], Answer(now)) && states[3] == Act(states[2], Answer(now))
    requires CanMove(states[3], Read) && states[4] == Act(states[3], Read)
    requires CanMove(states[4], Write) && states[5] == Act(states[4], Write)
    requires CanMove(states[5], Answer(now)) && states[6] == Act(states[5], Answer(now))
    requires CanMove(states[6], Read) && states[7] == Act(states[6], Read)
    ensures Path(states, [Connect(now), Write, Answer(now), Read, Write, Answer(now), Read])
  {
    hide CanMove, Act;
  }

  lemma DisplaysTold(s: State)
    requires Inv(s)
    ensures s.displaysOff <==> s.stage.Blank?
  {
  }

  /** Once locked the session stays locked through sleep and resume, whatever the watcher
      does, until some other client asks to unlock. */
  lemma {:induction false} LockedAcrossSleep(states: seq<System>, moves: seq<Move>, j: nat, i: nat)
    requires Behaviour(states, moves) && j <= i < |states| && states[j].idle.locked
    requires forall k :: j <= k < i ==>
      !(moves[k].Compositor? && moves[k].e.action.Serve? && moves[k].e.action.request.Unlock?)
    ensures states[i].idle.locked
    decreases i
  {
    hide Inv, Act, CanMove, Begins;
    if j < i {
      LockedAcrossSleep(states, moves, j, i - 1);
      IdleInvAlways(states, moves, i - 1);
      ActIdle(states[i - 1], moves[i - 1]);
    }
  }
}
