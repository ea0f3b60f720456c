/** What happens to a session nobody uses: screensaver, lock, dark displays
    (mindwm/src/idle.rs), with the requests that reach it (mindwm/src/ipc.rs) and
    the life of the IPC clients that can hold the session awake.

    Time is counted in whole milliseconds; a timeout of 0 seconds means never. */
module Idle {
  import opened Common

  type Millis = nat
  type Surface = nat
  type ClientId = nat

  datatype Stage = Active | Screensaver | Blank

  datatype Prefs = Prefs(
    screensaver: nat, lock: nat, blank: nat,
    lockOnBlank: bool, stayAwakeWhenBusy: bool, saver: string)

  /** The payload of the `idle` event, and of the reply to every idle request. */
  datatype Event = Event(stage: Stage, locked: bool, inhibited: bool, saver: string)

  datatype State = State(
    prefs: Prefs,
    stage: Stage,
    locked: bool,
    since: Millis,              // the last input event
    inhibitors: set<Surface>,   // zwp_idle_inhibitor_v1
    holds: set<ClientId>,       // inhibit_idle
    timer: Option<Millis>,      // when the armed timer is due
    lastEvent: Option<Event>,
    sent: seq<Event>,           // every idle event broadcast so far
    displaysOff: bool,          // what the backend was last told
    clients: set<ClientId>,     // connected IPC clients
    nextClient: ClientId,
    clock: Millis)

  datatype Request =
    | Lock | Unlock | Wake | BlankDisplays | GetIdle
    | InhibitIdle(on: bool) | SetIdlePrefs(prefs: Prefs)

  datatype Action =
    | Input                                      // a key, click or gesture
    | Fire                                       // the idle timer
    | LockKey
    | Accept                                     // a new IPC connection
    | Serve(client: ClientId, request: Request)
    | ClientGone(gone: ClientId)                 // found dead while being served
    | Casualties(dead: set<ClientId>)            // found dead by a broadcast
    | Inhibit(surface: Surface)
    | Uninhibit(surface: Surface)

  datatype Timed = At(now: Millis, action: Action)

  function Initial(prefs: Prefs, now: Millis): State {
    Arm(State(prefs, Active, false, now, {}, {}, None, None, [], false, {}, 0, now), now)
  }

  // ---------------------------------------------------------------- one step

  predicate Inhibited(s: State) {
    s.prefs.stayAwakeWhenBusy && (s.inhibitors != {} || s.holds != {})
  }

  function Payload(s: State): Event {
    Event(s.stage, s.locked, Inhibited(s), s.prefs.saver)
  }

  /** An event goes out only when it says something new. */
  function Changed(s: State): State {
    var p := Payload(s);
    if s.lastEvent == Some(p) then s else s.(lastEvent := Some(p), sent := s.sent + [p])
  }

  function SetStage(s: State, stage: Stage): State {
    if s.stage == stage then s
    else
      var off := if stage.Blank? then true else if s.stage.Blank? then false else s.displaysOff;
      Changed(s.(stage := stage, displaysOff := off))
  }

  /** One candidate for the running minimum of `NextDeadline`. */
  function Consider(next: Option<Millis>, seconds: nat, done: bool, idle: Millis): Option<Millis> {
    if seconds == 0 || done then next
    else
      var left := if 1000 * seconds > idle then 1000 * seconds - idle else 0;
      if next.None? || left < next.value then Some(left) else next
  }

  function NextDeadline(s: State, idle: Millis): Option<Millis> {
    var a := Consider(None, s.prefs.screensaver, !s.stage.Active?, idle);
    var b := Consider(a, s.prefs.lock, s.locked, idle);
    Consider(b, s.prefs.blank, s.stage.Blank?, idle)
  }

  function IdleFor(s: State, now: Millis): Millis {
    if now > s.since then now - s.since else 0
  }

  function Arm(s: State, now: Millis): State {
    var left := NextDeadline(s, IdleFor(s, now));
    if Inhibited(s) || left.None? then s.(timer := None)
    else s.(timer := Some(now + if left.value > 200 then left.value else 200))
  }

  function SetLocked(s: State, now: Millis, locked: bool): State {
    if s.locked == locked then s
    else Arm(Changed(s.(locked := locked, since := now)), now)
  }

  function WakeIdle(s: State, now: Millis): State {
    Arm(SetStage(s.(since := now), Active), now)
  }

  function BlankNow(s: State, now: Millis): State {
    Arm(SetStage(if s.prefs.lockOnBlank then SetLocked(s, now, true) else s, Blank), now)
  }

  function InhibitChanged(s: State, now: Millis): State {
    Changed(Arm(if Inhibited(s) then s else s.(since := now), now))
  }

  function SetHold(s: State, now: Millis, client: ClientId, on: bool): State {
    if on == (client in s.holds) then s
    else InhibitChanged(s.(holds := if on then s.holds + {client} else s.holds - {client}), now)
  }

  predicate Due(seconds: nat, idle: Millis) {
    seconds > 0 && idle / 1000 + 1 >= seconds
  }

  /** The timer fires: every stage that is due is taken at once. */
  function Tick(s0: State, now: Millis): State {
    var s := s0.(timer := None);
    if Inhibited(s) then Arm(s.(since := now), now)
    else
      var idle := IdleFor(s, now);
      var l := if Due(s.prefs.lock, idle) then SetLocked(s, now, true) else s;
      Arm(TickStage(l, now, Due(s.prefs.blank, idle), Due(s.prefs.screensaver, idle)), now)
  }

  function TickStage(l: State, now: Millis, blank: bool, saver: bool): State {
    if blank then SetStage(if l.prefs.lockOnBlank then SetLocked(l, now, true) else l, Blank)
    else if saver && l.stage.Active? then SetStage(l, Screensaver)
    else l
  }

  function NoteActivity(s: State, now: Millis): (State, bool) {
    var woke := !s.stage.Active?;
    var t := s.(since := now);
    (Arm(if woke then SetStage(t, Active) else t, now), woke)
  }

  function Handle(s: State, now: Millis, client: ClientId, request: Request): State {
    match request
    case Lock => SetLocked(s, now, true)
    case Unlock => WakeIdle(SetLocked(s, now, false), now)
    case Wake => WakeIdle(s, now)
    case BlankDisplays => BlankNow(s, now)
    case GetIdle => s
    case InhibitIdle(on) => SetHold(s, now, client, on)
    case SetIdlePrefs(p) => Changed(Arm(s.(prefs := p, since := now), now))
  }

  function Apply(s: State, now: Millis, a: Action): State {
    match a
    case Input => NoteActivity(s, now).0
    case Fire => Tick(s, now)
    case LockKey => SetLocked(s, now, true)
    case Accept => s.(nextClient := s.nextClient + 1, clients := s.clients + {s.nextClient + 1})
    case Serve(c, r) => Handle(s, now, c, r)
    case ClientGone(c) => SetHold(s.(clients := s.clients - {c}), now, c, false)
    case Casualties(dead) => s.(clients := s.clients - dead)
    case Inhibit(x) => InhibitChanged(s.(inhibitors := s.inhibitors + {x}), now)
    case Uninhibit(x) => InhibitChanged(s.(inhibitors := s.inhibitors - {x}), now)
  }

  function Step(s: State, e: Timed): State {
    Apply(s, e.now, e.action).(clock := e.now)
  }

  /** The clock goes forward, the timer fires when it is due, and only a connected
      client is served or found dead. A client that a broadcast finds dead while its
      own request is being served is still dropped by the reply that follows, which
      is a `ClientGone`; `Casualties` are the others. */
  ghost predicate Enabled(s: State, e: Timed) {
    && s.clock <= e.now
    && match e.action
       case Fire => s.timer.Some? && s.timer.value <= e.now
       case Serve(c, _) => c in s.clients
       case ClientGone(c) => c in s.clients
       case Casualties(dead) => dead <= s.clients
       case _ => true
  }

  ghost predicate Run(states: seq<State>, steps: seq<Timed>) {
    && |states| == |steps| + 1
    && (exists prefs, now :: states[0] == Initial(prefs, now))
    && forall i :: 0 <= i < |steps| ==> Enabled(states[i], steps[i]) && states[i + 1] == Step(states[i], steps[i])
  }

  // ------------------------------------------------------------- the invariant

  /** Some enabled stage has not been reached yet. */
  ghost predicate Pending(s: State) {
    || (s.prefs.screensaver > 0 && s.stage.Active?)
    || (s.prefs.lock > 0 && !s.locked)
    || (s.prefs.blank > 0 && !s.stage.Blank?)
  }

  /** At time `t` the full timeout of some pending stage has passed. */
  ghost predicate Ripe(s: State, t: Millis) {
    RipeFor(s.prefs, s.stage, s.locked, s.since, t)
  }

  ghost predicate RipeFor(p: Prefs, stage: Stage, locked: bool, since: Millis, t: Millis) {
    || (p.screensaver > 0 && stage.Active? && since + 1000 * p.screensaver <= t)
    || (p.lock > 0 && !locked && since + 1000 * p.lock <= t)
    || (p.blank > 0 && !stage.Blank? && since + 1000 * p.blank <= t)
  }

  ghost predicate LogOk(s: State) {
    && s.lastEvent == (if s.sent == [] then None else Some(s.sent[|s.sent| - 1]))
    && forall i :: 0 < i < |s.sent| ==> s.sent[i - 1] != s.sent[i]
  }

  /** The displays and the shell have been told the truth. */
  ghost predicate Told(s: State) {
    && LogOk(s)
    && (s.displaysOff <==> s.stage.Blank?)
    && (s.lastEvent.Some? ==> s.lastEvent.value == Payload(s))
  }

  /** There is a timer if and only if there is something to wait for; something is ripe when it
      goes off, and from `now` on nothing will have been for more than 200 ms. */
  ghost predicate Armed(s: State, now: Millis) {
    && (s.timer.Some? <==> !Inhibited(s) && Pending(s))
    && OnTime(s.prefs, s.stage, s.locked, s.since, s.timer, now)
  }

  ghost predicate OnTime(p: Prefs, stage: Stage, locked: bool, since: Millis, timer: Option<Millis>, now: Millis) {
    timer.Some? ==>
      && RipeFor(p, stage, locked, since, timer.value)
      && forall t :: now <= t && t + 200 < timer.value ==> !RipeFor(p, stage, locked, since, t)
  }

  ghost predicate Inv(s: State) {
    && Told(s)
    && Armed(s, s.clock)
    && s.since <= s.clock
    && (forall c :: c in s.clients ==> c <= s.nextClient)
    && (forall c :: c in s.holds ==> c <= s.nextClient)
  }

  /** Nothing but the stage, the lock, the clock of the last input, the timer and what
      was said about them differs. */
  ghost predicate SameRest(s: State, t: State) {
    && s.prefs == t.prefs && s.inhibitors == t.inhibitors && s.holds == t.holds
    && s.clients == t.clients && s.nextClient == t.nextClient && s.clock == t.clock
  }

  /** A move that keeps the session honest and touches nothing else. */
  ghost predicate Fair(s: State, t: State, now: Millis) {
    && Told(t) && t.since <= now && SameRest(s, t)
    && Heard(s, t)
  }

  /** Events are added, none is taken back, and a new stage or lock is told. */
  ghost predicate Heard(s: State, t: State) {
    && s.sent <= t.sent
    && (s.lastEvent.Some? || t.stage != s.stage || t.locked != s.locked ==> t.lastEvent.Some?)
  }

  ghost predicate LogAndDisplays(s: State) {
    LogOk(s) && (s.displaysOff <==> s.stage.Blank?)
  }

  lemma ChangedTells(s: State)
    requires LogAndDisplays(s)
    ensures Told(Changed(s)) && Changed(s).lastEvent.Some? && s.sent <= Changed(s).sent
    ensures Changed(s).(lastEvent := s.lastEvent, sent := s.sent) == s
  {
  }

  /** `NextDeadline` is the least time left of the pending stages. */
  lemma NextDeadlineIsLeast(s: State, now: Millis)
    requires s.since <= now
    ensures var d := NextDeadline(s, now - s.since);
      && (d.Some? <==> Pending(s))
      && (d.Some? ==> Ripe(s, now + d.value))
      && (d.Some? ==> forall t | now <= t < now + d.value :: !Ripe(s, t))
  {
  }

  lemma ArmArms(s: State, now: Millis)
    requires s.since <= now
    ensures Armed(Arm(s, now), now)
    ensures Arm(s, now).(timer := s.timer) == s
    ensures Told(s) ==> Fair(s, Arm(s, now), now)
  {
    var t := Arm(s, now);
    NextDeadlineIsLeast(s, now);
    assert Armed(t, now) by { hide NextDeadline, RipeFor, Inhibited, Pending; ArmLike(s, t); }
    hide NextDeadline, Armed;
  }

  lemma ArmLike(s: State, t: State)
    requires t == s.(timer := t.timer)
    ensures Inhibited(t) == Inhibited(s) && Pending(t) == Pending(s)
  {
  }

  /** The timer is not late: before it is due nothing is ripe, unless it is due in 200 ms. */
  lemma ArmOnTime(s: State, now: Millis)
    requires s.since <= now
    ensures var due := Arm(s, now).timer;
      due.Some? ==> due.value >= now + 200 && (due.value == now + 200 || forall t | now <= t < due.value :: !Ripe(s, t))
  {
    NextDeadlineIsLeast(s, now);
    hide NextDeadline, Ripe;
  }

  lemma SetStageTells(s: State, stage: Stage, now: Millis)
    requires Told(s) && s.since <= now
    ensures var t := SetStage(s, stage);
      Fair(s, t, now) && t.stage == stage && t.locked == s.locked && t.since == s.since
  {
    hide Changed;
    if s.stage != stage {
      var off := if stage.Blank? then true else if s.stage.Blank? then false else s.displaysOff;
      ChangedTells(s.(stage := stage, displaysOff := off));
    }
  }

  lemma SetLockedTells(s: State, now: Millis, locked: bool)
    requires Told(s) && s.since <= now
    ensures var t := SetLocked(s, now, locked);
      && Fair(s, t, now) && t.locked == locked && t.stage == s.stage && (Armed(s, now) ==> Armed(t, now))
      && t.since == if s.locked == locked then s.since else now
  {
    hide Changed, Arm, Armed;
    if s.locked != locked {
      var t := s.(locked := locked, since := now);
      ChangedTells(t);
      ArmArms(Changed(t), now);
    }
  }

  lemma WakeTells(s: State, now: Millis)
    requires Told(s)
    ensures var t := WakeIdle(s, now);
      Fair(s, t, now) && Armed(t, now) && t.stage.Active? && t.locked == s.locked && t.since == now
  {
    hide SetStage, Arm, Armed;
    SetStageTells(s.(since := now), Active, now);
    ArmArms(SetStage(s.(since := now), Active), now);
  }

  lemma BlankTells(s: State, now: Millis)
    requires Told(s) && s.since <= now
    ensures var t := BlankNow(s, now);
      && Fair(s, t, now) && Armed(t, now) && t.stage.Blank? && t.locked == (s.locked || s.prefs.lockOnBlank)
      && t.since == if t.locked == s.locked then s.since else now
  {
    hide SetStage, SetLocked, Arm, Armed, Told;
    SetLockedTells(s, now, true);
    var l := if s.prefs.lockOnBlank then SetLocked(s, now, true) else s;
    SetStageTells(l, Blank, now);
    ArmArms(SetStage(l, Blank), now);
  }

  lemma InhibitTells(s: State, now: Millis)
    requires LogAndDisplays(s) && s.since <= now
    ensures var t := InhibitChanged(s, now);
      && Fair(s, t, now) && Armed(t, now) && t.stage == s.stage && t.locked == s.locked && t.lastEvent.Some?
      && t.since == (if Inhibited(s) then s.since else now) && Inhibited(t) == Inhibited(s)
  {
    hide Changed, Arm;
    var t := if Inhibited(s) then s else s.(since := now);
    ArmArms(t, now);
    ChangedTells(Arm(t, now));
  }

  lemma HeardTrans(s: State, t: State, u: State)
    ensures Heard(s, t) && Heard(t, u) ==> Heard(s, u)
    ensures Heard(s, s)
  {
  }

  lemma TickStageTells(l: State, now: Millis, blank: bool, saver: bool)
    requires Told(l) && l.since <= now
    ensures var t := TickStage(l, now, blank, saver);
      && Fair(l, t, now)
      && (t.locked <==> l.locked || (blank && l.prefs.lockOnBlank))
      && t.stage == (if blank then Blank else if saver && l.stage.Active? then Screensaver else l.stage)
      && t.since == if t.locked == l.locked then l.since else now
  {
    hide SetStage, SetLocked, Told;
    SetLockedTells(l, now, true);
    SetStageTells(if l.prefs.lockOnBlank then SetLocked(l, now, true) else l, Blank, now);
    SetStageTells(l, Screensaver, now);
  }

  /** What a tick decides, in terms of the state before it. */
  lemma TickTells(s: State, now: Millis)
    requires Told(s) && s.since <= now && !Inhibited(s)
    ensures var t := Tick(s, now); var idle := now - s.since;
      && Fair(s, t, now) && Armed(t, now)
      && (t.locked <==> s.locked || Due(s.prefs.lock, idle) || (Due(s.prefs.blank, idle) && s.prefs.lockOnBlank))
      && t.stage == (if Due(s.prefs.blank, idle) then Blank
                     else if Due(s.prefs.screensaver, idle) && s.stage.Active? then Screensaver
                     else s.stage)
      && t.since == (if t.locked == s.locked then s.since else now)
  {
    var s1 := s.(timer := None);
    assert Told(s1) && Heard(s, s1);
    hide SetStage, SetLocked, TickStage, Arm, Armed, Told, Due, Inhibited, Payload, Heard;
    var idle := IdleFor(s1, now);
    SetLockedTells(s1, now, true);
    var l := if Due(s.prefs.lock, idle) then SetLocked(s1, now, true) else s1;
    HeardTrans(s, s1, l);
    var m := TickStage(l, now, Due(s.prefs.blank, idle), Due(s.prefs.screensaver, idle));
    TickStageTells(l, now, Due(s.prefs.blank, idle), Due(s.prefs.screensaver, idle));
    HeardTrans(s, l, m);
    ArmArms(m, now);
    HeardTrans(s, m, Arm(m, now));
  }

  lemma ActivityTells(s: State, now: Millis)
    requires Told(s)
    ensures var t := NoteActivity(s, now).0;
      Fair(s, t, now) && Armed(t, now) && t.stage.Active? && t.locked == s.locked && t.since == now
    ensures NoteActivity(s, now).1 <==> s.stage != Active
  {
    hide SetStage, Arm, Armed;
    var t := s.(since := now);
    SetStageTells(t, Active, now);
    ArmArms(t, now);
    ArmArms(SetStage(t, Active), now);
  }

  /** What a request may change. */
  lemma HandleTells(s: State, now: Millis, c: ClientId, r: Request)
    requires Told(s) && Armed(s, now) && s.since <= now
    ensures var t := Handle(s, now, c, r);
      && Told(t) && Armed(t, now) && t.since <= now
      && SameRest(t, s.(prefs := if r.SetIdlePrefs? then r.prefs else s.prefs,
                        holds := if !r.InhibitIdle? then s.holds else if r.on then s.holds + {c} else s.holds - {c}))
      && (t.locked <==> (s.locked && !r.Unlock?) || r.Lock? || (r.BlankDisplays? && s.prefs.lockOnBlank))
      && t.stage == (match r case Unlock => Active case Wake => Active case BlankDisplays => Blank case _ => s.stage)
      && t.since == (match r
           case Unlock => now
           case Wake => now
           case SetIdlePrefs(_) => now
           case InhibitIdle(_) => if t.holds == s.holds || Inhibited(t) then s.since else now
           case _ => if t.locked == s.locked then s.since else now)
      && Heard(s, t) && (r.SetIdlePrefs? || t.holds != s.holds ==> t.lastEvent.Some?)
  {
    hide SetStage, SetLocked, Arm, WakeIdle, BlankNow, InhibitChanged, Changed;
    match r
    case Lock => SetLockedTells(s, now, true);
    case Unlock => UnlockTells(s, now); hide Heard, Armed, Told;
    case Wake => WakeTells(s, now);
    case BlankDisplays => BlankTells(s, now);
    case GetIdle =>
    case InhibitIdle(on) =>
      InhibitTells(s.(holds := if on then s.holds + {c} else s.holds - {c}), now);
    case SetIdlePrefs(p) => PrefsTells(s, now, p); hide Heard, Armed, Told;
  }

  lemma UnlockTells(s: State, now: Millis)
    requires Told(s) && s.since <= now
    ensures var t := WakeIdle(SetLocked(s, now, false), now);
      Fair(s, t, now) && Armed(t, now) && t.stage.Active? && !t.locked && t.since == now
  {
    hide SetLocked, WakeIdle, Heard, Told, Armed;
    var l := SetLocked(s, now, false);
    SetLockedTells(s, now, false);
    WakeTells(l, now);
    HeardTrans(s, l, WakeIdle(l, now));
  }

  lemma PrefsTells(s: State, now: Millis, p: Prefs)
    requires Told(s)
    ensures var t := Changed(Arm(s.(prefs := p, since := now), now));
      && Told(t) && Armed(t, now) && t.since == now && t.lastEvent.Some? && Heard(s, t)
      && SameRest(t, s.(prefs := p)) && t.stage == s.stage && t.locked == s.locked
  {
    hide Changed, Arm;
    var t := s.(prefs := p, since := now);
    ArmArms(t, now);
    ChangedTells(Arm(t, now));
  }

  /** When the last sign of life was, after an action at `now`. */
  ghost predicate SinceIs(s: State, a: Action, t: State, now: Millis) {
    t.since == match a
      case Input => now
      case Serve(_, Wake) => now
      case Serve(_, Unlock) => now
      case Serve(_, SetIdlePrefs(_)) => now
      case Inhibit(_) => if Inhibited(t) then s.since else now
      case Uninhibit(_) => if Inhibited(t) then s.since else now
      case _ =>
        if t.locked != s.locked || (t.holds != s.holds && !Inhibited(t)) then now else s.since
  }

  /** The timeout is over, or will be within a second. */
  ghost predicate AlmostOver(seconds: nat, idle: Millis) {
    seconds > 0 && 1000 * (seconds - 1) <= idle
  }

  lemma DueIff(seconds: nat, idle: Millis)
    ensures Due(seconds, idle) <==> AlmostOver(seconds, idle)
  {
  }

  /** What each action does to the stage and the lock. */
  ghost predicate StageAndLock(s: State, a: Action, t: State, now: Millis) {
    var p, idle := s.prefs, IdleFor(s, now);
    && t.stage == (match a
         case Input => Active
         case Serve(_, Wake) => Active
         case Serve(_, Unlock) => Active
         case Serve(_, BlankDisplays) => Blank
         case Fire =>
           if AlmostOver(p.blank, idle) then Blank
           else if AlmostOver(p.screensaver, idle) && s.stage.Active? then Screensaver else s.stage
         case _ => s.stage)
    && t.locked == (match a
         case LockKey => true
         case Serve(_, Lock) => true
         case Serve(_, Unlock) => false
         case Serve(_, BlankDisplays) => s.locked || p.lockOnBlank
         case Fire => s.locked || AlmostOver(p.lock, idle) || (AlmostOver(p.blank, idle) && p.lockOnBlank)
         case _ => s.locked)
  }

  /** What each action does to the preferences, the inhibitors, the holds and the clients. */
  ghost predicate Registers(s: State, a: Action, t: State) {
    && t.prefs == (match a case Serve(_, SetIdlePrefs(p)) => p case _ => s.prefs)
    && t.inhibitors == (match a
         case Inhibit(x) => s.inhibitors + {x}
         case Uninhibit(x) => s.inhibitors - {x}
         case _ => s.inhibitors)
    && t.holds == (match a
         case Serve(c, InhibitIdle(on)) => if on then s.holds + {c} else s.holds - {c}
         case ClientGone(c) => s.holds - {c}
         case _ => s.holds)
    && t.clients == (match a
         case Accept => s.clients + {s.nextClient + 1}
         case ClientGone(c) => s.clients - {c}
         case Casualties(dead) => s.clients - dead
         case _ => s.clients)
    && t.nextClient == (if a.Accept? then s.nextClient + 1 else s.nextClient)
  }

  /** What each action does, said without the code: stage, lock, the clock of the last sign of
      life, preferences, inhibitors, holds and clients exactly; the displays and events follow
      from `Told`, and whatever the shell sees differently it is told. */
  ghost predicate Effect(s: State, a: Action, t: State, now: Millis) {
    && Told(t) && Armed(t, now) && t.since <= now
    && StageAndLock(s, a, t, now)
    && SinceIs(s, a, t, now)
    && Registers(s, a, t)
    && s.sent <= t.sent
    && (s.lastEvent.Some? || Payload(t) != Payload(s) ==> t.lastEvent.Some?)
  }

  /** What follows for the lock. */
  lemma LockEffect(s: State, a: Action, t: State, now: Millis)
    requires Effect(s, a, t, now)
    ensures t.locked ==> s.locked || a.Fire? || a.LockKey? || a.Serve?
    ensures s.locked ==> (t.locked <==> !(a.Serve? && a.request.Unlock?))
    ensures s.prefs.lockOnBlank && t.stage.Blank? && (s.stage.Blank? ==> s.locked) ==> t.locked
  {
  }

  lemma KeyEffect(s: State, e: Timed)
    requires Inv(s) && Enabled(s, e) && (e.action.Input? || e.action.LockKey?)
    ensures Effect(s, e.action, Step(s, e), e.now)
  {
    var t := if e.action.Input? then NoteActivity(s, e.now).0 else SetLocked(s, e.now, true);
    assert Step(s, e) == t.(clock := e.now);
    ArmedLater(s, e.now);
    hide Step, NoteActivity, SetLocked, Told, Armed, Payload, Inhibited;
    ActivityTells(s, e.now);
    SetLockedTells(s, e.now, true);
    ClockFree(t, e.now);
    HeardPayload(s, t);
  }

  lemma FireEffect(s: State, e: Timed)
    requires Inv(s) && Enabled(s, e) && e.action.Fire?
    ensures Effect(s, e.action, Step(s, e), e.now)
  {
    assert !Inhibited(s);
    var t := Tick(s, e.now);
    DueIff(s.prefs.lock, e.now - s.since);
    DueIff(s.prefs.blank, e.now - s.since);
    DueIff(s.prefs.screensaver, e.now - s.since);
    hide Tick, Told, Armed, Due, AlmostOver, Payload, Inhibited, Heard;
    assert Step(s, e) == t.(clock := e.now);
    hide Step;
    TickTells(s, e.now);
    ClockFree(t, e.now);
    HeardPayload(s, t);
    HeardMeans(s, t);
  }

  lemma ServeEffect(s: State, e: Timed)
    requires Inv(s) && Enabled(s, e) && e.action.Serve?
    ensures Effect(s, e.action, Step(s, e), e.now)
  {
    var t := Handle(s, e.now, e.action.client, e.action.request);
    assert Step(s, e) == t.(clock := e.now);
    ArmedLater(s, e.now);
    hide Step, Handle, Told, Armed;
    HandleTells(s, e.now, e.action.client, e.action.request);
    ClockFree(t, e.now);
  }

  lemma ArmedLater(s: State, now: Millis)
    requires Armed(s, s.clock) && s.clock <= now
    ensures Armed(s, now)
  {
  }

  lemma ClockFree(s: State, now: Millis)
    ensures Told(s.(clock := now)) <==> Told(s)
    ensures Armed(s.(clock := now), now) <==> Armed(s, now)
    ensures Inhibited(s.(clock := now)) == Inhibited(s) && Payload(s.(clock := now)) == Payload(s)
  {
  }

  lemma HeardMeans(s: State, t: State)
    requires Heard(s, t)
    ensures s.sent <= t.sent && (s.lastEvent.Some? ==> t.lastEvent.Some?)
  {
  }

  lemma HeardPayload(s: State, t: State)
    requires Heard(s, t) && t.prefs == s.prefs && t.inhibitors == s.inhibitors && t.holds == s.holds
    ensures Payload(t) != Payload(s) ==> t.lastEvent.Some?
  {
  }

  lemma GoneEffect(s: State, e: Timed)
    requires Inv(s) && Enabled(s, e) && e.action.ClientGone?
    ensures Effect(s, e.action, Step(s, e), e.now)
  {
    var c := e.action.gone;
    var t := s.(clients := s.clients - {c}, holds := s.holds - {c});
    if c in s.holds {
      var u := InhibitChanged(t, e.now);
      assert Step(s, e) == u.(clock := e.now);
      assert LogAndDisplays(t);
      hide Step, InhibitChanged, Told, Armed, LogAndDisplays, Inhibited, Payload;
      InhibitTells(t, e.now);
      ClockFree(u, e.now);
    } else {
      assert Step(s, e) == t.(clock := e.now);
      hide Step;
      QuietGone(s, t, e);
    }
  }

  lemma QuietGone(s: State, t: State, e: Timed)
    requires Inv(s) && s.clock <= e.now && e.action.ClientGone? && e.action.gone !in s.holds
    requires t == s.(clients := s.clients - {e.action.gone}, holds := s.holds - {e.action.gone})
    ensures Effect(s, e.action, t.(clock := e.now), e.now)
  {
    assert t.holds == s.holds;
    ArmedLater(s, e.now);
    QuietTold(s, t.(clock := e.now), e.now);
    hide Told, Armed;
  }

  /** Clients coming and going without holds are nothing to the session. */
  lemma QuietTold(s: State, t: State, now: Millis)
    requires Told(s) && Armed(s, now) &&
      t == s.(clients := t.clients, holds := t.holds, nextClient := t.nextClient, clock := t.clock)
    requires t.holds == s.holds
    ensures Told(t) && Armed(t, now)
  {
  }

  lemma InhibitEffect(s: State, e: Timed)
    requires Inv(s) && Enabled(s, e) && (e.action.Inhibit? || e.action.Uninhibit?)
    ensures Effect(s, e.action, Step(s, e), e.now)
  {
    var x := e.action.surface;
    var t := s.(inhibitors := if e.action.Inhibit? then s.inhibitors + {x} else s.inhibitors - {x});
    var u := InhibitChanged(t, e.now);
    assert Step(s, e) == u.(clock := e.now);
    assert LogAndDisplays(t);
    hide Step, InhibitChanged, Told, Armed, LogAndDisplays, Inhibited, Payload;
    InhibitTells(t, e.now);
    ClockFree(u, e.now);
  }

  /** What follows for holds and clients. */
  lemma HoldsEffect(s: State, e: Timed)
    requires Inv(s) && Enabled(s, e)
    ensures Registers(s, e.action, Step(s, e))
  {
    StepEffect(s, e);
    hide Step, Told, Armed, StageAndLock, Registers, Payload;
  }

  lemma StepEffect(s: State, e: Timed)
    requires Inv(s) && Enabled(s, e)
    ensures Effect(s, e.action, Step(s, e), e.now) && Step(s, e).clock == e.now
  {
    assert Step(s, e).clock == e.now by { hide Apply; }
    match e.action
    case Accept =>
    case Casualties(_) =>
    case _ =>
      hide Effect, Step, Inv, Enabled;
      match e.action
      case Input => KeyEffect(s, e);
      case LockKey => KeyEffect(s, e);
      case Fire => FireEffect(s, e);
      case Serve(_, _) => ServeEffect(s, e);
      case ClientGone(_) => GoneEffect(s, e);
      case _ => InhibitEffect(s, e);
  }

  /** Every step keeps the invariant: timer armed iff something is pending, displays off
      iff blank, the last event true, no event repeated. */
  lemma StepKeepsInv(s: State, e: Timed)
    requires Inv(s) && Enabled(s, e)
    ensures Inv(Step(s, e))
  {
    hide Told, Armed, Step;
    StepEffect(s, e);
  }

  lemma {:induction false} InvAlways(states: seq<State>, steps: seq<Timed>, i: nat)
    requires Run(states, steps) && i < |states|
    ensures Inv(states[i])
  {
    if i == 0 {
      var prefs, now :| states[0] == Initial(prefs, now);
      ArmArms(State(prefs, Active, false, now, {}, {}, None, None, [], false, {}, 0, now), now);
    } else {
      InvAlways(states, steps, i - 1);
      StepKeepsInv(states[i - 1], steps[i - 1]);
    }
  }

  // ----------------------------------------------------------------- progress

  /** How far there is still to go. */
  function Distance(s: State): nat {
    (match s.stage case Active => 2 case Screensaver => 1 case Blank => 0) + (if s.locked then 0 else 1)
  }

  /** A timer that fires always gets somewhere. */
  lemma FireProgresses(s: State, e: Timed)
    requires Inv(s) && Enabled(s, e) && e.action.Fire?
    ensures Distance(Step(s, e)) < Distance(s)
  {
    assert Ripe(s, e.now);
    TickTells(s, e.now);
  }

  /** Left alone, a session sees at most three more firings. */
  lemma {:induction false} AtMostThreeFirings(states: seq<State>, steps: seq<Timed>, i: nat)
    requires Run(states, steps) && i <= |steps|
    requires forall k :: i <= k < |steps| ==> steps[k].action.Fire?
    ensures |steps| - i <= Distance(states[i]) <= 3
    decreases |steps| - i
  {
    if i < |steps| {
      InvAlways(states, steps, i);
      FireProgresses(states[i], steps[i]);
      AtMostThreeFirings(states, steps, i + 1);
    }
  }

  /** No stage is taken more than a second before its timeout, and without a lock
      timeout the session locks only with the displays and `lock_on_blank`. */
  lemma NothingEarly(s: State, e: Timed)
    requires Inv(s) && Enabled(s, e) && e.action.Fire?
    ensures var t := Step(s, e); var idle := e.now - s.since; var p := s.prefs;
      && (t.stage.Blank? && !s.stage.Blank? ==> p.blank > 0 && idle >= 1000 * (p.blank - 1))
      && (t.stage.Screensaver? && !s.stage.Screensaver? ==> p.screensaver > 0 && idle >= 1000 * (p.screensaver - 1))
      && (t.locked && !s.locked ==>
            || (p.lock > 0 && idle >= 1000 * (p.lock - 1))
            || (p.lockOnBlank && t.stage.Blank? && p.blank > 0 && idle >= 1000 * (p.blank - 1)))
  {
    TickTells(s, e.now);
  }

  lemma SinceEffect(s: State, e: Timed)
    requires Inv(s) && Enabled(s, e)
    ensures s.since <= Step(s, e).since && (e.action.Input? ==> Step(s, e).since == e.now)
  {
    StepEffect(s, e);
    hide Step, Told, Armed, StageAndLock, Registers, Payload;
  }

  /** The clock of the last sign of life never goes back, and input sets it. */
  lemma {:induction false} SinceGrows(states: seq<State>, steps: seq<Timed>, i: nat, j: nat)
    requires Run(states, steps) && i <= j < |states|
    ensures states[i].since <= states[j].since
    ensures i < j && steps[i].action.Input? ==> steps[i].now <= states[j].since
    decreases j
  {
    hide Step, Inv, Enabled, Initial;
    if i < j {
      SinceGrows(states, steps, i, j - 1);
      InvAlways(states, steps, j - 1);
      SinceEffect(states[j - 1], steps[j - 1]);
    }
  }

  /** While somebody uses the machine nothing comes up: a firing that takes a stage or locks is
      no more than a second short of the whole timeout after any input before it. */
  lemma NothingUnderTheKeys(states: seq<State>, steps: seq<Timed>, i: nat, j: nat)
    requires Run(states, steps) && i < j < |steps| && steps[i].action.Input? && steps[j].action.Fire?
    ensures var (s, t) := (states[j], states[j + 1]);
      var (p, quiet) := (s.prefs, steps[j].now - steps[i].now);
      && (t.stage.Blank? && !s.stage.Blank? ==> p.blank > 0 && quiet >= 1000 * (p.blank - 1))
      && (t.stage.Screensaver? && !s.stage.Screensaver? ==> p.screensaver > 0 && quiet >= 1000 * (p.screensaver - 1))
      && (t.locked && !s.locked ==>
            || (p.lock > 0 && quiet >= 1000 * (p.lock - 1))
            || (p.lockOnBlank && p.blank > 0 && quiet >= 1000 * (p.blank - 1)))
  {
    InvAlways(states, steps, j);
    SinceGrows(states, steps, i, j);
    hide Step, Inv;
    NothingEarly(states[j], steps[j]);
  }

  // -------------------------------------------------------------- lock safety

  /** Over any run, a lock that is gone was taken away by an Unlock request. */
  lemma {:induction false} OnlyUnlockClears(states: seq<State>, steps: seq<Timed>, i: nat, j: nat) returns (k: nat)
    requires Run(states, steps) && i <= j < |states|
    requires states[i].locked && !states[j].locked
    ensures i <= k < j && steps[k].action.Serve? && steps[k].action.request.Unlock?
    ensures states[k].locked && !states[k + 1].locked
    decreases j
  {
    hide Step, Effect, Inv, Enabled, Initial;
    InvAlways(states, steps, j - 1);
    StepEffect(states[j - 1], steps[j - 1]);
    LockEffect(states[j - 1], steps[j - 1].action, states[j], steps[j - 1].now);
    if states[j - 1].locked { k := j - 1; } else { k := OnlyUnlockClears(states, steps, i, j - 1); }
  }

  ghost predicate LocksOnBlank(states: seq<State>) {
    forall i :: 0 <= i < |states| ==> states[i].prefs.lockOnBlank
  }

  /** With `lock_on_blank` in force throughout, dark displays mean a locked session. */
  lemma {:induction false} BlankIsLocked(states: seq<State>, steps: seq<Timed>, i: nat)
    requires Run(states, steps) && i < |states| && LocksOnBlank(states)
    ensures states[i].stage.Blank? ==> states[i].locked
    ensures states[i].displaysOff ==> states[i].locked
  {
    InvAlways(states, steps, i);
    assert states[i].displaysOff <==> states[i].stage.Blank?;
    if i > 0 {
      BlankIsLocked(states, steps, i - 1);
      InvAlways(states, steps, i - 1);
      hide Step, Effect, Inv, Enabled, Initial;
      StepEffect(states[i - 1], steps[i - 1]);
      LockEffect(states[i - 1], steps[i - 1].action, states[i], steps[i - 1].now);
    }
  }

  // ------------------------------------------------- clients that hold it awake

  /** Only clients that are still connected hold the session awake. */
  ghost predicate HoldersLive(s: State) {
    s.holds <= s.clients
  }

  /** That promise survives a step exactly when no broadcast buried a holder in it. */
  lemma HoldersLiveIff(s: State, e: Timed)
    requires Inv(s) && Enabled(s, e) && HoldersLive(s)
    ensures HoldersLive(Step(s, e)) <==> !(e.action.Casualties? && e.action.dead * s.holds != {})
  {
    hide Step, Told, Armed;
    StepEffect(s, e);
  }

  lemma LostHoldStep(s: State, e: Timed, c: ClientId)
    requires Inv(s) && Enabled(s, e) && c in s.holds && c !in s.clients
    ensures c in Step(s, e).holds && c !in Step(s, e).clients
  {
    HoldsEffect(s, e);
    hide Step, Told, Armed;
  }

  /** A hold whose client a broadcast buried is never given back, in any run. */
  lemma {:induction false} LostHoldStays(states: seq<State>, steps: seq<Timed>, i: nat, j: nat, c: ClientId)
    requires Run(states, steps) && i <= j < |states|
    requires c in states[i].holds && c !in states[i].clients
    ensures c in states[j].holds && c !in states[j].clients
    decreases j
  {
    hide Step, Inv, Enabled, Initial;
    if i < j {
      LostHoldStays(states, steps, i, j - 1, c);
      InvAlways(states, steps, j - 1);
      LostHoldStep(states[j - 1], steps[j - 1], c);
    }
  }

  /** ... so, while busy programs may keep it awake, the session never idles again. */
  lemma LostHoldStopsIdling(states: seq<State>, steps: seq<Timed>, i: nat, j: nat, c: ClientId)
    requires Run(states, steps) && i <= j < |states|
    requires c in states[i].holds && c !in states[i].clients
    requires states[j].prefs.stayAwakeWhenBusy
    ensures Inhibited(states[j]) && states[j].timer.None?
    ensures j < |steps| ==> !steps[j].action.Fire?
  {
    LostHoldStays(states, steps, i, j, c);
    InvAlways(states, steps, j);
  }

  /** It does happen: any session with a holder, and a broadcast that finds it dead. */
  lemma HoldersLiveFails(s: State, c: ClientId)
    requires Inv(s) && HoldersLive(s) && c in s.clients
    ensures var (e, f) := (At(s.clock, Serve(c, InhibitIdle(true))), At(s.clock, Casualties({c})));
      var t := Step(s, e);
      Enabled(s, e) && HoldersLive(t) && Enabled(t, f) && !HoldersLive(Step(t, f))
  {
    hide Step, Inv, Told, Armed;
    var e := At(s.clock, Serve(c, InhibitIdle(true)));
    StepEffect(s, e);
    StepKeepsInv(s, e);
    StepEffect(Step(s, e), At(s.clock, Casualties({c})));
  }
}
