/** Whole runs of the desks: windows open, draw and close, the event loop turns, and the
    shell and the user switch, move, minimise and reach for windows in any order. */
module DeskRuns {
  import opened Common
  import opened Sticky
  import opened Desk

  type Tiles = Option<map<Window, nat>>

  datatype Action =
    | Open(w: Window)
    | Draw(w: Window)
    | Close(w: Window)
    | Unmap(w: Window)                 // an X11 window withdrawn by its client
    | Raise(order: seq<Window>)        // activation reorders the stack
    | EndTurn
    | Switch(desk: string, sticky: Option<seq<string>>, place: Tiles, focused: Option<Window>)
    | Move(w: Window, desk: string)
    | Hide(w: Window)
    | Unhide(w: Window, place: Tiles, focused: Option<Window>)
    | Reach(w: Window, place: Tiles, focused: Option<Window>)

  function Opened(d: Desks, w: Window): Desks {
    d.(space := d.space + [w], alive := d.alive + {w})
  }

  function Gone(d: Desks, w: Window): Desks {
    d.(space := Drop(d.space, {w}), stashed := Drop(d.stashed, {w}), minimized := Drop(d.minimized, {w}),
      alive := d.alive - {w})
  }

  function Apply(f: Facts, d: Desks, a: Action): Desks {
    match a
    case Open(w) => Opened(d, w)
    case Draw(w) => d.(drawn := d.drawn + {w})
    case Close(w) => d.(alive := d.alive - {w})
    case Unmap(w) => Gone(d, w)
    case Raise(order) => d.(space := order)
    case EndTurn => Turn(f, d)
    case Switch(desk, sticky, place, focused) => SetDesk(f, d, desk, sticky, place, focused)
    case Move(w, desk) => MoveToDesk(f, d, w, desk)
    case Hide(w) => Minimize(d, w)
    case Unhide(w, place, focused) => Unminimize(f, d, w, place, focused)
    case Reach(w, place, focused) => ShowDeskOf(f, d, w, place, focused)
  }

  ghost predicate Fresh(d: Desks, w: Window) {
    w !in Managed(d) && w !in d.tags && w !in d.alive
  }

  /** No managed window is a dialog of this one: it opens before its dialogs. */
  ghost predicate ParentsFirst(f: Facts, d: Desks, w: Window) {
    forall x :: x in Managed(d) ==> f.parent(x) != Some(w)
  }

  /** Nothing is asked of the order windows open in. */
  ghost predicate Possible(d: Desks, a: Action) {
    match a
    case Open(w) => Fresh(d, w)
    case Raise(order) => NoDup(order) && Elements(order) == Elements(d.space)
    case Move(w, _) => w in Managed(d)
    case _ => true
  }

  /** Operations on windows that are there, as opposed to windows coming and going. */
  predicate IsOperation(d: Desks, a: Action) {
    match a
    case Move(w, _) => w in d.alive
    case Unhide(w, _, _) => w in d.alive
    case Reach(w, _, _) => w in d.alive || !Stranded(d, w)
    case Open(_) => false
    case Draw(_) => false
    case Close(_) => false
    case Unmap(_) => false
    case _ => true
  }

  lemma RaiseKeeps(f: Facts, d: Desks, order: seq<Window>)
    requires Sound(d) && NoDup(order) && Elements(order) == Elements(d.space)
    ensures var e := d.(space := order); Sound(e) && (Settled(f, d) ==> Settled(f, e)) && (Inv(f, d) ==> Inv(f, e))
  {
    var e := d.(space := order);
    assert forall w :: w in order <==> w in Elements(order);
    assert forall w :: w in d.space <==> w in Elements(d.space);
    Places(d);
    Places(e);
    ManagedIs(d);
    ManagedIs(e);
    hide AllWindows, Managed, NoDup;
    assert Managed(d) == Managed(e);
    forall w ensures Shows(f, e, w) == Shows(f, d, w) { ShowsAlike(f, d, e, w); }
    assert forall x :: x in AllWindows(e) <==> x in Managed(e);
    assert forall x :: x in AllWindows(d) <==> x in Managed(d);
  }

  lemma GoneKeeps(f: Facts, d: Desks, w: Window)
    requires Sound(d)
    ensures Sound(Gone(d, w)) && (Inv(f, d) ==> Inv(f, Gone(d, w)))
  {
    var e := Gone(d, w);
    Places(d);
    DropNoDup(d.space, {w});
    DropNoDup(d.stashed, {w});
    DropNoDup(d.minimized, {w});
    Places(e);
    ManagedIs(d);
    ManagedIs(e);
    hide NoDup, AllWindows, Managed, Shows;
    if Inv(f, d) {
      forall x | x in e.stashed ensures !Shows(f, e, x) { HiddenStaysHidden(f, d, e, x); }
    }
  }

  // ----------------------------------------------------------- opening a window

  lemma {:induction false} ChainThrough(f: Facts, all: set<Window>, sticky: seq<string>, s: Window, w: Window, i: nat,
      hops: nat)
    requires i <= hops && Ancestor(f, all, s, i) == Some(w) && Chain(f, all, sticky, w, hops - i)
    ensures Chain(f, all, sticky, s, hops)
    decreases i
  {
    if i > 0 { ChainThrough(f, all, sticky, ParentIn(f, all, s).value, w, i - 1, hops - 1); }
  }

  /** Stickiness that a newcomer brought came through the newcomer. */
  lemma {:induction false} ChainBecause(f: Facts, all: set<Window>, w: Window, sticky: seq<string>, s: Window,
      hops: nat) returns (i: nat)
    requires Chain(f, all + {w}, sticky, s, hops) && !Chain(f, all, sticky, s, hops) && s in all && w !in all
    ensures 1 <= i < hops && Ancestor(f, all + {w}, s, i) == Some(w) && Chain(f, all + {w}, sticky, w, hops - i)
    decreases hops
  {
    var p := ParentIn(f, all + {w}, s).value;
    if p == w {
      i := 1;
      assert Ancestor(f, all + {w}, w, 0) == Some(w);
    } else {
      i := ChainBecause(f, all, w, sticky, p, hops - 1);
      i := i + 1;
    }
  }

  /** A newcomer on which some window put away depends for being sticky. */
  ghost predicate Uncovers(f: Facts, d: Desks, w: Window) {
    d.sticky != [] && exists s, i ::
      s in d.stashed && 1 <= i < 8
      && Ancestor(f, Managed(d) + {w}, s, i) == Some(w) && Chain(f, Managed(d) + {w}, d.sticky, w, 8 - i)
  }

  lemma OpenedPlaces(d: Desks, w: Window)
    requires Sound(d) && Fresh(d, w)
    ensures var e := Opened(d, w); Sound(e) && Managed(e) == Managed(d) + {w}
  {
    var e := Opened(d, w);
    Places(d);
    ManagedIs(d);
    ManagedIs(e);
    NoDupConcat(d.space, [w]);
    Places(e);
  }

  lemma UncoversShows(f: Facts, d: Desks, w: Window) returns (s: Window)
    requires Uncovers(f, d, w) && Managed(Opened(d, w)) == Managed(d) + {w}
    ensures s in d.stashed && Shows(f, Opened(d, w), s)
  {
    hide Managed, Chain;
    var i;
    s, i :| s in d.stashed && 1 <= i < 8
      && Ancestor(f, Managed(d) + {w}, s, i) == Some(w) && Chain(f, Managed(d) + {w}, d.sticky, w, 8 - i);
    ChainThrough(f, Managed(d) + {w}, d.sticky, s, w, i, 8);
  }

  lemma ShowsUncovers(f: Facts, d: Desks, w: Window, s: Window)
    requires Inv(f, d) && Fresh(d, w) && s in d.stashed && Managed(Opened(d, w)) == Managed(d) + {w}
    requires Shows(f, Opened(d, w), s)
    ensures Uncovers(f, d, w)
  {
    ManagedIs(d);
    hide Managed, Chain, NoDup;
    assert !Shows(f, d, s);
    var i := ChainBecause(f, Managed(d), w, d.sticky, s, 8);
  }

  /** Opening a window keeps the invariant exactly when it uncovers nothing. */
  lemma OpenKeepsIff(f: Facts, d: Desks, w: Window)
    requires Inv(f, d) && Fresh(d, w)
    ensures Inv(f, Opened(d, w)) <==> !Uncovers(f, d, w)
  {
    OpenedPlaces(d, w);
    hide NoDup, AllWindows, Managed, Shows, Uncovers;
    if Uncovers(f, d, w) {
      var s := UncoversShows(f, d, w);
    } else {
      forall s | s in d.stashed ensures !Shows(f, Opened(d, w), s) {
        if Shows(f, Opened(d, w), s) { ShowsUncovers(f, d, w, s); }
      }
    }
  }

  lemma {:induction false} NoDialogNoDescent(f: Facts, d: Desks, w: Window, s: Window, i: nat)
    requires Fresh(d, w) && ParentsFirst(f, d, w) && s in Managed(d)
    ensures i >= 1 ==> Ancestor(f, Managed(d) + {w}, s, i) != Some(w)
    decreases i
  {
    if i >= 1 && f.parent(s).Some? && f.parent(s).value in Managed(d) {
      var p := f.parent(s).value;
      assert Ancestor(f, Managed(d) + {w}, s, i) == Ancestor(f, Managed(d) + {w}, p, i - 1);
      NoDialogNoDescent(f, d, w, p, i - 1);
    }
  }

  /** A window that opens before its dialogs uncovers nothing. */
  lemma ParentsFirstUncovers(f: Facts, d: Desks, w: Window)
    requires Fresh(d, w) && ParentsFirst(f, d, w)
    ensures !Uncovers(f, d, w)
  {
    hide Chain;
    forall s, i | s in d.stashed && 1 <= i < 8 ensures Ancestor(f, Managed(d) + {w}, s, i) != Some(w) {
      ManagedIs(d);
      NoDialogNoDescent(f, d, w, s, i);
    }
  }

  lemma OpenKeeps(f: Facts, d: Desks, w: Window)
    requires Inv(f, d) && Fresh(d, w) && ParentsFirst(f, d, w)
    ensures Inv(f, Opened(d, w))
  {
    hide Inv, Uncovers, Opened;
    ParentsFirstUncovers(f, d, w);
    OpenKeepsIff(f, d, w);
  }

  /** A dialog put away, whose sticky main window opens only now: the stash then holds a
      window that shows on every desk. */
  lemma OpenCanBreak()
    ensures
      var f := Facts(w => if w == 0 then "chat" else "tool", w => if w == 1 then Some(0) else None);
      var d := Desks("work", ["chat"], [], [1], [], map[1 := "play"], map[], {1}, {1}, []);
      Inv(f, d) && Fresh(d, 0) && !Inv(f, Opened(d, 0))
  {
    var f := Facts(w => if w == 0 then "chat" else "tool", w => if w == 1 then Some(0) else None);
    var d := Desks("work", ["chat"], [], [1], [], map[1 := "play"], map[], {1}, {1}, []);
    ManagedIs(d);
    assert ParentIn(f, Managed(d), 1) == None;
    assert "tool"[0] != "chat"[0] && Text.Lower("chat"[0]) != Text.Lower("tool"[0]);
    assert Inv(f, d);
    var all := Managed(d) + {0};
    assert Text.SameName("chat", "chat");
    assert Listed(["chat"], "chat") by { assert ["chat"][0] == "chat"; }
    assert Ancestor(f, all, 1, 1) == Some(0) by { assert Ancestor(f, all, 0, 0) == Some(0); }
    assert Chain(f, all, ["chat"], 0, 7);
    assert Uncovers(f, d, 0);
    OpenKeepsIff(f, d, 0);
  }

  // ------------------------------------------------------------------ all runs

  /** Every action, whatever the stash is like: each window stays in one place, turns and
      switches put the space in order, and operations on windows that are there keep it so. */
  lemma ApplySound(f: Facts, d: Desks, a: Action)
    requires Sound(d) && Possible(d, a)
    ensures Sound(Apply(f, d, a))
    ensures a.Switch? ==> Inv(f, Apply(f, d, a))
    ensures a.EndTurn? || a.Switch? ==> Settled(f, Apply(f, d, a))
    ensures a.EndTurn? ==> Managed(Apply(f, d, a)) == Apply(f, d, a).alive
    ensures IsOperation(d, a) && Settled(f, d) ==> Settled(f, Apply(f, d, a))
  {
    match a
    case Open(w) => hide Inv, Settled; OpenedPlaces(d, w);
    case Draw(w) =>
    case Close(w) =>
    case Unmap(w) => hide Inv, Settled; GoneKeeps(f, d, w);
    case Raise(order) => hide Inv, Settled; RaiseKeeps(f, d, order);
    case EndTurn => hide Inv, Settled, Turn; TurnSettles(f, d);
    case Switch(desk, sticky, place, focused) =>
      SetDeskSettles(f, d, desk, sticky, place, focused);
      hide SetDesk, Settled, Managed, AllWindows;
    case Move(w, desk) =>
      hide Inv, Settled, MoveToDesk;
      MoveToDeskSound(f, d, w, desk);
      if Settled(f, d) && w in d.alive { MoveToDeskKeeps(f, d, w, desk); }
    case Hide(w) => hide Inv, Settled, Minimize; MinimizeKeeps(f, d, w);
    case Unhide(w, place, focused) => hide Inv, Settled, Unminimize; UnminimizeKeeps(f, d, w, place, focused);
    case Reach(w, place, focused) =>
      hide Inv, Settled, ShowDeskOf;
      ReachesAnyway(f, d, w, place, focused);
      if Settled(f, d) && IsOperation(d, a) { ReachSettles(f, d, w, place, focused); }
  }

  /** The invariant survives an action exactly when the action is not the opening of a window
      that some stashed window depends on for being sticky. */
  lemma ApplyKeepsIff(f: Facts, d: Desks, a: Action)
    requires Inv(f, d) && Possible(d, a)
    ensures Inv(f, Apply(f, d, a)) <==> !(a.Open? && Uncovers(f, d, a.w))
  {
    hide Uncovers;
    match a
    case Open(w) => hide Inv; OpenKeepsIff(f, d, w);
    case Draw(w) =>
      forall x ensures Shows(f, d.(drawn := d.drawn + {w}), x) == Shows(f, d, x) {
        ShowsAlike(f, d, d.(drawn := d.drawn + {w}), x);
      }
    case Close(w) =>
      forall x ensures Shows(f, d.(alive := d.alive - {w}), x) == Shows(f, d, x) {
        ShowsAlike(f, d, d.(alive := d.alive - {w}), x);
      }
    case Unmap(w) => GoneKeeps(f, d, w); hide Inv, Gone;
    case Raise(order) => RaiseKeeps(f, d, order); hide Inv;
    case EndTurn => TurnSettles(f, d); hide Inv, Turn;
    case Switch(desk, sticky, place, focused) => SetDeskSettles(f, d, desk, sticky, place, focused); hide Inv, SetDesk;
    case Move(w, desk) => hide Inv, MoveToDesk; MoveToDeskInv(f, d, w, desk);
    case Hide(w) => MinimizeKeeps(f, d, w); hide Inv, Minimize;
    case Unhide(w, place, focused) => UnminimizeKeeps(f, d, w, place, focused); hide Inv, Unminimize;
    case Reach(w, place, focused) => hide Inv, ShowDeskOf; ShowDeskOfShows(f, d, w, place, focused);
  }

  ghost predicate Run(f: Facts, states: seq<Desks>, steps: seq<Action>) {
    && |states| == |steps| + 1
    && states[0] == Desks("", [], [], [], [], map[], map[], {}, {}, [])
    && forall i :: 0 <= i < |steps| ==> Possible(states[i], steps[i]) && states[i + 1] == Apply(f, states[i], steps[i])
  }

  /** In every run, whatever order windows open in: every window is in one place, after every
      turn and every switch the space is in order, after every turn exactly the live windows
      are managed, and after every switch the stash is right too. */
  lemma {:induction false} SoundAlways(f: Facts, states: seq<Desks>, steps: seq<Action>, i: nat)
    requires Run(f, states, steps) && i < |states|
    ensures Sound(states[i])
    ensures i > 0 && (steps[i - 1].EndTurn? || steps[i - 1].Switch?) ==> Settled(f, states[i])
    ensures i > 0 && steps[i - 1].EndTurn? ==> Managed(states[i]) == states[i].alive
    ensures i > 0 && steps[i - 1].Switch? ==> Inv(f, states[i])
  {
    if i > 0 {
      SoundAlways(f, states, steps, i - 1);
      hide Apply, Possible, Sound, Inv, Settled;
      ApplySound(f, states[i - 1], steps[i - 1]);
    }
  }

  /** No window opened between two moments of a run uncovers a stashed one. */
  ghost predicate NoneUncovers(f: Facts, states: seq<Desks>, steps: seq<Action>, i: nat, j: nat)
    requires |states| == |steps| + 1 && j <= |steps|
  {
    forall k :: i <= k < j && steps[k].Open? ==> !Uncovers(f, states[k], steps[k].w)
  }

  ghost predicate InvBetween(f: Facts, states: seq<Desks>, i: nat, j: nat)
    requires j < |states|
  {
    forall k :: i <= k <= j ==> Inv(f, states[k])
  }

  lemma BetweenNext(f: Facts, states: seq<Desks>, steps: seq<Action>, i: nat, j: nat)
    requires |states| == |steps| + 1 && i <= j <= |steps|
    ensures i == j ==> (InvBetween(f, states, i, j) <==> Inv(f, states[j])) && NoneUncovers(f, states, steps, i, j)
    ensures i < j ==>
      && (InvBetween(f, states, i, j) <==> InvBetween(f, states, i, j - 1) && Inv(f, states[j]))
      && (NoneUncovers(f, states, steps, i, j) <==>
            NoneUncovers(f, states, steps, i, j - 1) &&
            !(steps[j - 1].Open? && Uncovers(f, states[j - 1], steps[j - 1].w)))
  {
    hide Inv, Uncovers;
  }

  /** From any moment at which it holds (the start, any switch), the desk invariant holds up to
      a later one exactly when no window opened in between uncovers a stashed one. */
  lemma {:induction false} InvIff(f: Facts, states: seq<Desks>, steps: seq<Action>, i: nat, j: nat)
    requires Run(f, states, steps) && i <= j < |states| && Inv(f, states[i])
    ensures InvBetween(f, states, i, j) <==> NoneUncovers(f, states, steps, i, j)
    ensures InvBetween(f, states, i, j) ==> Inv(f, states[j])
    decreases j
  {
    hide Apply, Possible, Inv, Uncovers, NoneUncovers, InvBetween;
    BetweenNext(f, states, steps, i, j);
    if i < j {
      InvIff(f, states, steps, i, j - 1);
      if Inv(f, states[j - 1]) { ApplyKeepsIff(f, states[j - 1], steps[j - 1]); }
    }
  }

  lemma InvAtStart(f: Facts, states: seq<Desks>, steps: seq<Action>)
    requires Run(f, states, steps)
    ensures Inv(f, states[0])
  {
  }

  /** The desk invariant over whole runs: always exactly when no window ever uncovers one. */
  lemma InvAlwaysIff(f: Facts, states: seq<Desks>, steps: seq<Action>)
    requires Run(f, states, steps)
    ensures InvBetween(f, states, 0, |steps|) <==> NoneUncovers(f, states, steps, 0, |steps|)
  {
    hide Inv, NoneUncovers, InvBetween;
    InvAtStart(f, states, steps);
    InvIff(f, states, steps, 0, |steps|);
  }

  /** So in every run in which windows open before their dialogs. */
  lemma InvWhenParentsFirst(f: Facts, states: seq<Desks>, steps: seq<Action>, i: nat)
    requires Run(f, states, steps) && i < |states|
    requires forall k :: 0 <= k < |steps| && steps[k].Open? ==> ParentsFirst(f, states[k], steps[k].w)
    ensures Inv(f, states[i])
  {
    hide Inv, Uncovers, Apply;
    InvAlwaysIff(f, states, steps);
    forall k | 0 <= k < |steps| && steps[k].Open? ensures !Uncovers(f, states[k], steps[k].w) {
      ParentsFirstUncovers(f, states[k], steps[k].w);
    }
  }

  /** Once the space is in order, only windows coming, drawing or going can unsettle it. */
  lemma {:induction false} SettledLasts(f: Facts, states: seq<Desks>, steps: seq<Action>, i: nat, j: nat)
    requires Run(f, states, steps) && i <= j < |states| && Settled(f, states[i])
    requires forall k :: i <= k < j ==> IsOperation(states[k], steps[k])
    ensures Settled(f, states[j])
    decreases j
  {
    hide Apply, Possible, Sound, Inv, Settled, IsOperation;
    if i < j {
      SettledLasts(f, states, steps, i, j - 1);
      SoundAlways(f, states, steps, j - 1);
      ApplySound(f, states[j - 1], steps[j - 1]);
    }
  }

  /** Each action does what it is called: a window that opens is alive and in the space, one that is
      hidden is minimised, one that is moved has its desk, one that is reached for is not away,
      one that is brought back is in the space; and a switch or a turn is that of module `Desk`. */
  lemma ApplyDoes(f: Facts, d: Desks, a: Action)
    requires Sound(d) && Possible(d, a)
    ensures var e := Apply(f, d, a);
      match a
      case Open(w) => w in e.space && w in e.alive && OnlyMoves(d, e, w)
      case Draw(w) => e == d.(drawn := d.drawn + {w})
      case Close(w) => e == d.(alive := d.alive - {w})
      case Unmap(w) => w !in Managed(e) && w !in e.alive && OnlyMoves(d, e, w)
      case Raise(order) => e == d.(space := order)
      case EndTurn => e == Turn(f, d)
      case Switch(desk, sticky, place, focused) => e == SetDesk(f, d, desk, sticky, place, focused)
      case Move(w, desk) => DeskOf(e, w) == desk
      case Hide(w) => w in Managed(d) ==> w in e.minimized
      case Unhide(w, _, _) => w !in e.minimized && (w in d.minimized && w in d.alive ==> w in e.space)
      case Reach(w, _, _) => !IsAway(f, e, w)
  {
    match a
    case Open(w) => hide Managed;
    case Unmap(w) => ManagedIs(Gone(d, w)); hide Managed;
    case Move(w, desk) => MovedTag(f, d, w, desk);
    case Hide(w) => MinimizePlaces(d, w);
    case Unhide(w, place, focused) => UnminimizeKeeps(f, d, w, place, focused); hide Unminimize;
    case Reach(w, place, focused) => ReachesAnyway(f, d, w, place, focused); hide ShowDeskOf;
    case _ =>
  }

  lemma MovedTag(f: Facts, d: Desks, w: Window, desk: string)
    ensures DeskOf(MoveToDesk(f, d, w, desk), w) == desk
  {
    hide TagNew, Shows;
  }
}
