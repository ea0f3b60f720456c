/** The compositor's idle state as the object it is (mindwm/src/idle.rs), each method
    proved against the step function of module `Idle`. */
module IdleSession {
  import opened Common
  import opened Idle

  class Session {
    var prefs: Prefs
    var stage: Stage
    var locked: bool
    var since: Millis
    var inhibitors: set<Surface>
    var holds: set<ClientId>
    var timer: Option<Millis>
    var lastEvent: Option<Event>
    var sent: seq<Event>
    var displaysOff: bool
    var clients: set<ClientId>
    var nextClient: ClientId
    var clock: Millis

    ghost function View(): State
      reads this
    {
      State(prefs, stage, locked, since, inhibitors, holds, timer, lastEvent, sent, displaysOff,
            clients, nextClient, clock)
    }

    constructor (p: Prefs, now: Millis)
      ensures View() == Initial(p, now) && Inv(View())
    {
      prefs, stage, locked, since := p, Active, false, now;
      inhibitors, holds, timer, lastEvent, sent := {}, {}, None, None, [];
      displaysOff, clients, nextClient, clock := false, {}, 0, now;
      new;
      ArmArms(View(), now);
      ArmTimer(now);
    }

    method BroadcastIdle()
      modifies this
      ensures View() == Changed(old(View()))
    {
      var payload := Event(stage, locked, prefs.stayAwakeWhenBusy && (inhibitors != {} || holds != {}), prefs.saver);
      if lastEvent == Some(payload) {
        return;
      }
      lastEvent := Some(payload);
      sent := sent + [payload];
    }

    method MoveToStage(to: Stage)
      modifies this
      ensures View() == SetStage(old(View()), to)
    {
      if stage == to {
        return;
      }
      var wasBlank := stage.Blank?;
      stage := to;
      if to.Blank? {
        displaysOff := true;
      } else if wasBlank {
        displaysOff := false;
      }
      BroadcastIdle();
    }

    /** The running minimum over the stages still to come. */
    method UntilNextDeadline(now: Millis) returns (next: Option<Millis>)
      ensures next == NextDeadline(View(), IdleFor(View(), now))
    {
      var idle := if now > since then now - since else 0;
      var stages := [(prefs.screensaver, stage != Active), (prefs.lock, locked), (prefs.blank, stage == Blank)];
      next := None;
      for i := 0 to |stages|
        invariant i == 0 ==> next == None
        invariant i == 1 ==> next == Consider(None, prefs.screensaver, stage != Active, idle)
        invariant i == 2 ==>
          next == Consider(Consider(None, prefs.screensaver, stage != Active, idle), prefs.lock, locked, idle)
        invariant i == 3 ==> next == NextDeadline(View(), IdleFor(View(), now))
      {
        var (seconds, alreadyDone) := stages[i];
        if seconds == 0 || alreadyDone {
          continue;
        }
        var left := if 1000 * seconds > idle then 1000 * seconds - idle else 0;
        if next.None? || left < next.value {
          next := Some(left);
        }
      }
    }

    method ArmTimer(now: Millis)
      modifies this
      ensures View() == Arm(old(View()), now)
    {
      timer := None;
      if prefs.stayAwakeWhenBusy && (inhibitors != {} || holds != {}) {
        return;
      }
      var left := UntilNextDeadline(now);
      if left.Some? {
        timer := Some(now + if left.value > 200 then left.value else 200);
      }
    }

    method LockSession(to: bool, now: Millis)
      modifies this
      ensures View() == SetLocked(old(View()), now, to)
    {
      if locked == to {
        return;
      }
      locked := to;
      since := now;
      BroadcastIdle();
      ArmTimer(now);
    }

    method WakeScreen(now: Millis)
      modifies this
      ensures View() == WakeIdle(old(View()), now)
    {
      since := now;
      MoveToStage(Active);
      ArmTimer(now);
    }

    method BlankScreen(now: Millis)
      modifies this
      ensures View() == BlankNow(old(View()), now)
    {
      if prefs.lockOnBlank {
        LockSession(true, now);
      }
      MoveToStage(Blank);
      ArmTimer(now);
    }

    method RefreshInhibited(now: Millis)
      modifies this
      ensures View() == InhibitChanged(old(View()), now)
    {
      if !(prefs.stayAwakeWhenBusy && (inhibitors != {} || holds != {})) {
        since := now;
      }
      ArmTimer(now);
      BroadcastIdle();
    }

    method HoldAwake(client: ClientId, on: bool, now: Millis)
      modifies this
      ensures View() == SetHold(old(View()), now, client, on)
    {
      var had := client in holds;
      holds := if on then holds + {client} else holds - {client};
      if had != on {
        RefreshInhibited(now);
      } else {
        assert holds == old(holds);
      }
    }

    /** Called for every input event; `woke` means the event goes no further. */
    method Activity(now: Millis) returns (woke: bool)
      modifies this
      ensures (View(), woke) == NoteActivity(old(View()), now)
    {
      woke := stage != Active;
      since := now;
      if woke {
        MoveToStage(Active);
      }
      ArmTimer(now);
    }

    method FireTimer(now: Millis)
      modifies this
      ensures View() == Tick(old(View()), now)
    {
      hide TickStage, SetLocked, Arm;
      timer := None;
      if prefs.stayAwakeWhenBusy && (inhibitors != {} || holds != {}) {
        since := now;
        ArmTimer(now);
        return;
      }
      var idle := (if now > since then now - since else 0) / 1000;
      var s := prefs;
      if s.lock > 0 && idle + 1 >= s.lock {
        LockSession(true, now);
      }
      Advance(s.blank > 0 && idle + 1 >= s.blank, s.screensaver > 0 && idle + 1 >= s.screensaver, now);
      ArmTimer(now);
    }

    /** The second half of a tick: the displays, or the screensaver. */
    method Advance(blank: bool, saver: bool, now: Millis)
      modifies this
      ensures View() == TickStage(old(View()), now, blank, saver)
    {
      if blank {
        if prefs.lockOnBlank {
          LockSession(true, now);
        }
        MoveToStage(Blank);
      } else if saver && stage == Active {
        MoveToStage(Screensaver);
      }
    }

    /** The idle arms of `ipc_request`; the reply is the payload after the request. */
    method ServeRequest(client: ClientId, request: Request, now: Millis) returns (reply: Event)
      modifies this
      ensures View() == Handle(old(View()), now, client, request)
      ensures reply == Payload(View())
    {
      match request {
        case Lock => LockSession(true, now);
        case Unlock =>
          LockSession(false, now);
          WakeScreen(now);
        case Wake => WakeScreen(now);
        case BlankDisplays => BlankScreen(now);
        case GetIdle =>
        case InhibitIdle(on) => HoldAwake(client, on, now);
        case SetIdlePrefs(p) =>
          prefs := p;
          since := now;
          ArmTimer(now);
          BroadcastIdle();
      }
      reply := Event(stage, locked, prefs.stayAwakeWhenBusy && (inhibitors != {} || holds != {}), prefs.saver);
    }

    /** `ipc_drop_client`: the event source goes, and so does the hold. */
    method DropClient(client: ClientId, now: Millis)
      modifies this
      ensures View() == Apply(old(View()), now, ClientGone(client))
    {
      clients := clients - {client};
      HoldAwake(client, false, now);
    }

    /** `IpcServer::broadcast`: clients found dead are removed, their holds are not. */
    method BuryDead(dead: set<ClientId>)
      modifies this
      ensures View() == Apply(old(View()), clock, Casualties(dead))
    {
      clients := clients - dead;
    }
  }
}
