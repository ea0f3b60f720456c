/** Desks (mindwm/src/desk.rs): windows are in the space, put away in the stash or
    minimised; each has a desk, and only the windows of the current desk and the sticky
    ones are in the space. */
module Desk {
  import opened Common
  import opened Sticky
  import Text

  type Window = nat

  /** What does not change about a window: its application and the window it is a dialog of. */
  datatype Facts = Facts(app: Window -> string, parent: Window -> Option<Window>)

  datatype Desks = Desks(
    current: string,
    sticky: seq<string>,
    space: seq<Window>,           // bottom of the stack first
    stashed: seq<Window>,
    minimized: seq<Window>,
    tags: map<Window, string>,    // the desk of every window that has one
    lastFocus: map<string, Window>,
    alive: set<Window>,
    drawn: set<Window>,           // windows with a size
    events: seq<(string, seq<string>)>)

  function AllWindows(d: Desks): seq<Window> {
    d.space + d.stashed + d.minimized
  }

  function Managed(d: Desks): set<Window> {
    Elements(AllWindows(d))
  }

  function DeskOf(d: Desks, w: Window): string {
    if w in d.tags then d.tags[w] else ""
  }

  predicate ShowsOn(current: string, desk: string, sticky: bool) {
    sticky || desk == "" || desk == current
  }

  /** The desk a window belongs to after a switch to `new`, and whether it shows. */
  function SwitchWindow(new_: string, desk: string, stickyBefore: bool, stickyAfter: bool): (string, bool) {
    var desk' := if desk == "" || stickyBefore then new_ else desk;
    (desk', ShowsOn(new_, desk', stickyAfter))
  }

  /** The managed window a dialog belongs to. */
  function ParentIn(f: Facts, all: set<Window>, w: Window): Option<Window> {
    match f.parent(w)
    case Some(p) => if p in all then Some(p) else None
    case None => None
  }

  /** The app itself, or that of one of the windows it is a dialog of, within `hops`. */
  predicate Chain(f: Facts, all: set<Window>, sticky: seq<string>, w: Window, hops: nat)
    decreases hops
  {
    hops > 0 &&
    (IsSticky(sticky, f.app(w)) ||
     match ParentIn(f, all, w)
     case Some(p) => Chain(f, all, sticky, p, hops - 1)
     case None => false)
  }

  predicate StickyUnder(f: Facts, all: set<Window>, sticky: seq<string>, w: Window) {
    sticky != [] && Chain(f, all, sticky, w, 8)
  }

  predicate WindowSticky(f: Facts, d: Desks, w: Window) {
    StickyUnder(f, Managed(d), d.sticky, w)
  }

  predicate Shows(f: Facts, d: Desks, w: Window) {
    ShowsOn(d.current, DeskOf(d, w), WindowSticky(f, d, w))
  }

  predicate IsAway(f: Facts, d: Desks, w: Window) {
    w in d.stashed || (w in d.minimized && !Shows(f, d, w))
  }

  // --------------------------------------------------------------- operations

  function TagOf(f: Facts, all: set<Window>, current: string, tags: map<Window, string>, w: Window): string {
    match ParentIn(f, all, w)
    case Some(p) => if p in tags then tags[p] else current
    case None => current
  }

  /** Give the windows of `ws` that have no desk one, in order. */
  function TagFrom(f: Facts, all: set<Window>, current: string, ws: seq<Window>,
      tags: map<Window, string>): map<Window, string>
    decreases ws
  {
    if ws == [] then tags
    else if ws[0] in tags then TagFrom(f, all, current, ws[1..], tags)
    else TagFrom(f, all, current, ws[1..], tags[ws[0] := TagOf(f, all, current, tags, ws[0])])
  }

  function TagNew(f: Facts, d: Desks): Desks {
    d.(tags := TagFrom(f, Managed(d), d.current, AllWindows(d), d.tags))
  }

  function Strays(f: Facts, d: Desks): set<Window> {
    set w | w in d.space && DeskOf(d, w) != "" && DeskOf(d, w) != d.current && w in d.drawn && !WindowSticky(f, d, w)
  }

  function DesksRefresh(f: Facts, d: Desks): Desks {
    var t := TagNew(f, d.(stashed := Keep(d.stashed, d.alive)));
    t.(space := Drop(t.space, Strays(f, t)), stashed := t.stashed + Keep(t.space, Strays(f, t)))
  }

  /** Once round the event loop: the space and the minimised list forget the dead too. */
  function Turn(f: Facts, d: Desks): Desks {
    DesksRefresh(f, d.(space := Keep(d.space, d.alive), minimized := Keep(d.minimized, d.alive)))
  }

  /** Before the moves of a switch: the dead gone from the stash, every window tagged. */
  function Readied(f: Facts, d: Desks): Desks {
    TagNew(f, d.(stashed := Keep(d.stashed, d.alive)))
  }

  /** The new desk and list in force, every managed window retagged by `SwitchWindow`. */
  function Retagged(f: Facts, r: Desks, desk: string, sticky: seq<string>): Desks {
    var all := Managed(r);
    r.(current := desk, sticky := sticky,
       tags := map w | w in r.tags.Keys + all ::
         if w in all then
           SwitchWindow(desk, DeskOf(r, w), StickyUnder(f, all, r.sticky, w), StickyUnder(f, all, sticky, w)).0
         else r.tags[w])
  }

  function Hidden(f: Facts, e: Desks): set<Window> { set w | w in e.space && !Shows(f, e, w) }

  function Returning(f: Facts, e: Desks): set<Window> { set w | w in e.stashed && Shows(f, e, w) }

  /** The moves: hidden windows to the end of the stash (in tiling order, when tiling),
      returning ones back on top of the space in the order they were stashed. */
  function Moved(f: Facts, e: Desks, place: Option<map<Window, nat>>): Desks {
    var stash := Keep(e.space, Hidden(f, e));
    e.(space := Drop(e.space, Hidden(f, e)) + Keep(e.stashed, Returning(f, e)),
       stashed := Drop(e.stashed, Returning(f, e)) + (if place.Some? then SortByPlace(stash, place.value) else stash))
  }

  predicate NotAfter(place: map<Window, nat>, a: Window, b: Window) {
    b !in place || (a in place && place[a] <= place[b])
  }

  function Insert(x: Window, s: seq<Window>, place: map<Window, nat>): seq<Window> {
    if s == [] || NotAfter(place, x, s[0]) then [x] + s else [s[0]] + Insert(x, s[1..], place)
  }

  /** The stable sort of the tiles by output and place. */
  function SortByPlace(s: seq<Window>, place: map<Window, nat>): seq<Window> {
    if s == [] then [] else Insert(s[0], SortByPlace(s[1..], place), place)
  }

  function NewList(d: Desks, sticky: Option<seq<string>>): seq<string> {
    if sticky.Some? then Clean(sticky.value) else d.sticky
  }

  function SetDesk(f: Facts, d: Desks, desk: string, sticky: Option<seq<string>>,
                   place: Option<map<Window, nat>>, focused: Option<Window>): Desks
  {
    var r := Readied(f, d);
    var m := Moved(f, Retagged(f, r, desk, NewList(d, sticky)), place);
    m.(lastFocus := if d.current != desk && focused.Some? && d.current != ""
      then d.lastFocus[d.current := focused.value] else d.lastFocus,
       events := if d.current != desk || NewList(d, sticky) != d.sticky then d.events + [(desk, NewList(d, sticky))]
         else d.events)
  }

  /** The window that gets the keyboard after a switch, if the switch chooses one. */
  function FocusAfter(f: Facts, d: Desks): Option<Window> {
    if d.current in d.lastFocus && d.lastFocus[d.current] in d.space then Some(d.lastFocus[d.current])
    else TopOwn(f, d, d.space)
  }

  function TopOwn(f: Facts, d: Desks, s: seq<Window>): Option<Window> {
    if s == [] then None
    else
      var w := s[|s| - 1];
      if DeskOf(d, w) == d.current && !WindowSticky(f, d, w) then Some(w) else TopOwn(f, d, s[..|s| - 1])
  }

  function Stash(d: Desks, w: Window): Desks {
    if w in d.stashed || w !in d.space then d
    else d.(space := Drop(d.space, {w}), stashed := d.stashed + [w])
  }

  function Restore(d: Desks, w: Window): Desks {
    if w !in d.stashed then d
    else d.(stashed := Drop(d.stashed, {w}), space := if w in d.alive then d.space + [w] else d.space)
  }

  /** The second half of `move_window_to_desk`: the window has its desk, put it there. */
  function Place(f: Facts, t: Desks, w: Window): Desks {
    if w in t.stashed then (if Shows(f, t, w) then Restore(t, w) else t)
    else if !Shows(f, t, w) && w !in t.minimized then Stash(t, w)
    else t
  }

  function MoveToDesk(f: Facts, d: Desks, w: Window, desk: string): Desks {
    var t := TagNew(f, d);
    Place(f, t.(tags := t.tags[w := desk]), w)
  }

  function ShowDeskOf(f: Facts, d: Desks, w: Window, place: Option<map<Window, nat>>, focused: Option<Window>): Desks {
    if !IsAway(f, d, w) then d
    else
      var desk := DeskOf(d, w);
      var e := if desk != d.current then SetDesk(f, d, desk, None, place, focused) else d;
      Restore(e, w)
  }

  function MinimizeStashed(d: Desks, w: Window): Desks {
    if w !in d.stashed then d else d.(stashed := Drop(d.stashed, {w}), minimized := d.minimized + [w])
  }

  function Minimize(d: Desks, w: Window): Desks {
    if w in d.minimized then d
    else if w in d.stashed then MinimizeStashed(d, w)
    else if w in d.space then d.(space := Drop(d.space, {w}), minimized := d.minimized + [w])
    else d
  }

  function Unminimize(f: Facts, d: Desks, w: Window, place: Option<map<Window, nat>>, focused: Option<Window>): Desks {
    var e := ShowDeskOf(f, d, w, place, focused);
    if w !in e.minimized then e
    else e.(minimized := Drop(e.minimized, {w}), space := if w in e.alive then e.space + [w] else e.space)
  }

  // -------------------------------------------------------------- the invariant

  /** Each managed window is in exactly one place, and every live window is managed. */
  ghost predicate Sound(d: Desks) {
    NoDup(AllWindows(d)) && d.alive <= Managed(d)
  }

  /** ... and the stash holds only windows that have a desk and do not show. */
  ghost predicate Inv(f: Facts, d: Desks) {
    && Sound(d)
    && (forall w :: w in d.stashed ==> w in d.tags && !Shows(f, d, w))
  }

  /** Everything has a desk, and every drawn window in the space belongs there. */
  ghost predicate Settled(f: Facts, d: Desks) {
    && (forall w :: w in AllWindows(d) ==> w in d.tags)
    && (forall w :: w in d.space && w in d.drawn ==> Shows(f, d, w))
  }

  lemma Places(d: Desks)
    ensures NoDup(AllWindows(d)) <==>
      && NoDup(d.space) && NoDup(d.stashed) && NoDup(d.minimized)
      && (forall w :: w in d.space ==> w !in d.stashed && w !in d.minimized)
      && (forall w :: w in d.stashed ==> w !in d.minimized)
  {
    NoDupConcat(d.space, d.stashed);
    NoDupConcat(d.space + d.stashed, d.minimized);
  }

  /** The invariant's two halves in the terms of the property: a drawn window that is not
      minimised is in the space exactly when it shows. */
  lemma InSpaceIffShows(f: Facts, d: Desks, w: Window)
    requires Inv(f, d) && Settled(f, d) && w in Managed(d) && w in d.drawn && w !in d.minimized
    ensures w in d.space <==> Shows(f, d, w)
  {
  }

  lemma {:induction false} ChainGrows(f: Facts, all: set<Window>, more: set<Window>, sticky: seq<string>, w: Window,
      hops: nat)
    requires all <= more && Chain(f, all, sticky, w, hops)
    ensures Chain(f, more, sticky, w, hops)
    decreases hops
  {
    if !IsSticky(sticky, f.app(w)) {
      ChainGrows(f, all, more, sticky, ParentIn(f, all, w).value, hops - 1);
    }
  }

  lemma {:induction false} TagFromTags(f: Facts, all: set<Window>, current: string, ws: seq<Window>,
      tags: map<Window, string>)
    ensures var t := TagFrom(f, all, current, ws, tags);
      && t.Keys == tags.Keys + Elements(ws)
      && (forall w :: w in tags ==> t[w] == tags[w])
    decreases ws
  {
    if ws != [] {
      var tags' := if ws[0] in tags then tags else tags[ws[0] := TagOf(f, all, current, tags, ws[0])];
      TagFromTags(f, all, current, ws[1..], tags');
      assert Elements(ws) == {ws[0]} + Elements(ws[1..]);
    }
  }

  /** A new window gets the desk of the window it belongs to if that has one or gets one before
      it, and the current desk if it belongs to none or comes first. */
  lemma {:induction false} NewTags(f: Facts, all: set<Window>, current: string, ws: seq<Window>,
      tags: map<Window, string>, k: nat)
    requires k < |ws| && ws[k] !in tags && ws[k] !in ws[..k]
    ensures var t := TagFrom(f, all, current, ws, tags);
      && ws[k] in t
      && match ParentIn(f, all, ws[k])
         case Some(p) => if p in tags || p in ws[..k] then p in t && t[ws[k]] == t[p] else t[ws[k]] == current
         case None => t[ws[k]] == current
    decreases ws
  {
    var tags' := if ws[0] in tags then tags else tags[ws[0] := TagOf(f, all, current, tags, ws[0])];
    TagFromTags(f, all, current, ws[1..], tags');
    if k > 0 {
      assert ws[..k] == [ws[0]] + ws[1..][..k - 1];
      NewTags(f, all, current, ws[1..], tags', k - 1);
    }
  }

  /** Fewer windows about, the same desk: what did not show still does not. */
  lemma HiddenStaysHidden(f: Facts, d: Desks, e: Desks, w: Window)
    requires Managed(e) <= Managed(d) && e.sticky == d.sticky && e.current == d.current
    requires DeskOf(e, w) == DeskOf(d, w) && !Shows(f, d, w)
    ensures !Shows(f, e, w)
  {
  }

  /** Shows depends on nothing but the desk, the list, the tags and which windows there are. */
  lemma ShowsAlike(f: Facts, d: Desks, e: Desks, w: Window)
    requires Managed(e) == Managed(d) && e.sticky == d.sticky && e.current == d.current && DeskOf(e, w) == DeskOf(d, w)
    ensures Shows(f, e, w) == Shows(f, d, w)
  {
  }

  lemma ManagedIs(d: Desks)
    ensures forall w :: w in Managed(d) <==> w in d.space || w in d.stashed || w in d.minimized
  {
  }

  lemma PruneSound(d: Desks, e: Desks)
    requires Sound(d)
    requires e == d.(space := Keep(d.space, d.alive), stashed := Keep(d.stashed, d.alive),
      minimized := Keep(d.minimized, d.alive))
          || e == d.(stashed := Keep(d.stashed, d.alive))
    ensures Sound(e) && Managed(e) <= Managed(d)
  {
    Places(d);
    KeepNoDup(d.space, d.alive);
    KeepNoDup(d.stashed, d.alive);
    KeepNoDup(d.minimized, d.alive);
    Places(e);
    ManagedIs(d);
    ManagedIs(e);
  }

  /** Forgetting dead windows, wherever they are, keeps the invariant. */
  lemma PruneKeeps(f: Facts, d: Desks, e: Desks)
    requires Inv(f, d)
    requires e == d.(space := Keep(d.space, d.alive), stashed := Keep(d.stashed, d.alive),
      minimized := Keep(d.minimized, d.alive))
          || e == d.(stashed := Keep(d.stashed, d.alive))
    ensures Inv(f, e) && Managed(e) <= Managed(d)
  {
    PruneSound(d, e);
    hide Managed, Shows, Sound;
    forall w | w in e.stashed ensures !Shows(f, e, w) { HiddenStaysHidden(f, d, e, w); }
  }

  lemma TagNewSound(f: Facts, d: Desks)
    requires Sound(d)
    ensures var t := TagNew(f, d);
      && Sound(t) && t == d.(tags := t.tags)
      && Managed(t) == Managed(d)
      && (forall w :: w in AllWindows(t) ==> w in t.tags)
      && (forall w :: w in d.tags ==> w in t.tags && t.tags[w] == d.tags[w])
  {
    TagFromTags(f, Managed(d), d.current, AllWindows(d), d.tags);
  }

  lemma TagNewKeeps(f: Facts, d: Desks)
    requires Inv(f, d)
    ensures Inv(f, TagNew(f, d))
  {
    TagNewSound(f, d);
    var t := TagNew(f, d);
    forall w | w in t.stashed ensures !Shows(f, t, w) { ShowsAlike(f, d, t, w); }
  }

  /** Putting strays away, every window tagged. */
  lemma StraysGo(f: Facts, t: Desks)
    requires Sound(t) && forall w :: w in AllWindows(t) ==> w in t.tags
    ensures var e := t.(space := Drop(t.space, Strays(f, t)), stashed := t.stashed + Keep(t.space, Strays(f, t)));
      && Sound(e) && Settled(f, e) && Managed(e) == Managed(t)
      && (Inv(f, t) ==> Inv(f, e))
  {
    var strays := Strays(f, t);
    var e := t.(space := Drop(t.space, strays), stashed := t.stashed + Keep(t.space, strays));
    Places(t);
    DropNoDup(t.space, strays);
    KeepNoDup(t.space, strays);
    NoDupConcat(t.stashed, Keep(t.space, strays));
    Places(e);
    ManagedIs(t);
    ManagedIs(e);
    assert Managed(e) == Managed(t);
    forall w ensures Shows(f, e, w) == Shows(f, t, w) { ShowsAlike(f, t, e, w); }
  }

  /** At the end of `desks_refresh` everything in the space belongs there, whatever the stash
      was like; and the invariant is kept. */
  lemma RefreshSettles(f: Facts, d: Desks)
    requires Sound(d)
    ensures var e := DesksRefresh(f, d); Sound(e) && Settled(f, e) && (Inv(f, d) ==> Inv(f, e))
  {
    var p := d.(stashed := Keep(d.stashed, d.alive));
    PruneSound(d, p);
    TagNewSound(f, p);
    hide Inv, Settled, Sound, Managed, AllWindows, TagNew;
    StraysGo(f, TagNew(f, p));
    if Inv(f, d) {
      PruneKeeps(f, d, p);
      TagNewKeeps(f, p);
    }
  }

  /** A refresh, said without the code: of the windows in the space those that are drawn and do
      not show are put away, nothing else moves, and the dead leave the stash. */
  lemma RefreshMeans(f: Facts, d: Desks, w: Window)
    requires Sound(d)
    ensures var e := DesksRefresh(f, d);
      && e.minimized == d.minimized && e.current == d.current && e.sticky == d.sticky
      && (w in e.space <==> w in d.space && (w !in d.drawn || Shows(f, e, w)))
      && (w in e.stashed <==> (w in d.stashed && w in d.alive) || (w in d.space && w in d.drawn && !Shows(f, e, w)))
  {
    var p := d.(stashed := Keep(d.stashed, d.alive));
    PruneSound(d, p);
    TagNewSound(f, p);
    var t, e := TagNew(f, p), DesksRefresh(f, d);
    hide Inv, Settled, Sound, TagNew;
    StraysGo(f, t);
    ShowsAlike(f, t, e, w);
    hide Managed, AllWindows, Chain;
  }

  /** ... and once per turn, exactly the live windows are managed. */
  lemma TurnSettles(f: Facts, d: Desks)
    requires Sound(d)
    ensures var e := Turn(f, d);
      Sound(e) && Settled(f, e) && Managed(e) == e.alive == d.alive && (Inv(f, d) ==> Inv(f, e))
  {
    var q := d.(space := Keep(d.space, d.alive), minimized := Keep(d.minimized, d.alive));
    var p := q.(stashed := Keep(d.stashed, d.alive));
    PruneSound(d, p);
    if Inv(f, d) { PruneKeeps(f, d, p); }
    KeepAll(p.stashed, d.alive);
    assert Turn(f, d) == DesksRefresh(f, p);
    RefreshSettles(f, p);
    RefreshManages(f, p);
    ManagedIs(p);
    hide Inv, Settled, DesksRefresh, Turn;
  }

  /** A turn, said without the code: the dead are forgotten everywhere, and of the living those are
      put away that were in the space, drawn, and do not show. */
  lemma TurnMeans(f: Facts, d: Desks, w: Window)
    requires Sound(d)
    ensures var e := Turn(f, d);
      && e.current == d.current && e.sticky == d.sticky && e.alive == d.alive
      && (w in e.minimized <==> w in d.minimized && w in d.alive)
      && (w in e.space <==> w in d.space && w in d.alive && (w !in d.drawn || Shows(f, e, w)))
      && (w in e.stashed <==>
            w in d.alive && (w in d.stashed || (w in d.space && w in d.drawn && !Shows(f, e, w))))
  {
    var q := d.(space := Keep(d.space, d.alive), minimized := Keep(d.minimized, d.alive));
    PruneSoundHalf(d, q);
    hide DesksRefresh, Shows, Sound;
    RefreshMeans(f, q, w);
    assert DesksRefresh(f, q).alive == d.alive by { RefreshAlive(f, q); }
  }

  lemma RefreshAlive(f: Facts, d: Desks)
    ensures DesksRefresh(f, d).alive == d.alive
  {
    hide TagFrom, Strays;
  }

  lemma PruneSoundHalf(d: Desks, q: Desks)
    requires Sound(d) && q == d.(space := Keep(d.space, d.alive), minimized := Keep(d.minimized, d.alive))
    ensures Sound(q)
  {
    Places(d);
    KeepNoDup(d.space, d.alive);
    KeepNoDup(d.minimized, d.alive);
    Places(q);
    ManagedIs(d);
    ManagedIs(q);
  }

  lemma RefreshManages(f: Facts, p: Desks)
    requires Keep(p.stashed, p.alive) == p.stashed
    ensures Managed(DesksRefresh(f, p)) == Managed(p) && DesksRefresh(f, p).alive == p.alive
  {
    hide TagFrom, Strays;
    ManagedIs(p);
    ManagedIs(DesksRefresh(f, p));
  }

  lemma {:induction false} InsertElements(x: Window, s: seq<Window>, place: map<Window, nat>)
    ensures Elements(Insert(x, s, place)) == {x} + Elements(s)
    ensures NoDup(s) && x !in s ==> NoDup(Insert(x, s, place))
  {
    if s != [] && !NotAfter(place, x, s[0]) {
      InsertElements(x, s[1..], place);
      assert Elements(s) == {s[0]} + Elements(s[1..]);
      assert s[0] !in Elements(Insert(x, s[1..], place)) || x == s[0] || s[0] in s[1..];
    }
  }

  lemma {:induction false} SortElements(s: seq<Window>, place: map<Window, nat>)
    ensures Elements(SortByPlace(s, place)) == Elements(s)
    ensures NoDup(s) ==> NoDup(SortByPlace(s, place))
  {
    if s != [] {
      SortElements(s[1..], place);
      InsertElements(s[0], SortByPlace(s[1..], place), place);
      assert Elements(s) == {s[0]} + Elements(s[1..]);
      assert s[0] in SortByPlace(s[1..], place) <==> s[0] in Elements(s[1..]);
    }
  }

  /** The moves of a switch put every window on the right side, and lose none. */
  lemma MovedSettles(f: Facts, e: Desks, place: Option<map<Window, nat>>)
    requires Sound(e)
    requires forall w :: w in AllWindows(e) ==> w in e.tags
    ensures var m := Moved(f, e, place);
      && Inv(f, m) && Settled(f, m) && Managed(m) == Managed(e)
      && (forall w :: w in m.space ==> Shows(f, m, w))
      && (forall w :: w in m.space <==> (w in e.space || w in e.stashed) && Shows(f, e, w))
  {
    var m := Moved(f, e, place);
    var stash := Keep(e.space, Hidden(f, e));
    var sorted := if place.Some? then SortByPlace(stash, place.value) else stash;
    Places(e);
    KeepNoDup(e.space, Hidden(f, e));
    if place.Some? { SortElements(stash, place.value); }
    assert NoDup(sorted) && Elements(sorted) == Elements(stash);
    assert forall w :: w in sorted <==> w in Elements(sorted);
    DropNoDup(e.space, Hidden(f, e));
    KeepNoDup(e.stashed, Returning(f, e));
    DropNoDup(e.stashed, Returning(f, e));
    NoDupConcat(Drop(e.space, Hidden(f, e)), Keep(e.stashed, Returning(f, e)));
    NoDupConcat(Drop(e.stashed, Returning(f, e)), sorted);
    hide SortByPlace, Shows, NoDup, AllWindows;
    assert forall w :: w in m.stashed <==> (w in e.space || w in e.stashed) && !Shows(f, e, w);
    Places(m);
    ManagedIs(e);
    ManagedIs(m);
    assert Managed(m) == Managed(e);
    forall w ensures Shows(f, m, w) == Shows(f, e, w) { ShowsAlike(f, e, m, w); }
    assert forall w :: w in AllWindows(m) <==> w in Managed(m);
    assert forall w :: w in AllWindows(e) <==> w in Managed(e);
  }

  /** What was said to the shell and who had the keyboard do not matter to the places. */
  lemma OnlyNotes(f: Facts, m: Desks, e: Desks)
    requires e == m.(lastFocus := e.lastFocus, events := e.events)
    ensures Inv(f, m) <==> Inv(f, e)
    ensures Settled(f, m) <==> Settled(f, e)
    ensures Managed(m) == Managed(e) && forall w :: Shows(f, m, w) == Shows(f, e, w)
  {
  }

  /** The state the moves of a switch start from. */
  lemma ReadyToMove(f: Facts, d: Desks, desk: string, list: seq<string>)
    requires Sound(d)
    ensures var r := Readied(f, d); var t := Retagged(f, r, desk, list);
      && Sound(r) && Sound(t) && t.alive == d.alive && Managed(t) == Managed(r)
      && (forall w :: w in AllWindows(r) ==> w in r.tags)
      && (forall w :: w in AllWindows(t) ==> w in t.tags)
      && t.current == desk && t.sticky == list && t.space == d.space && t.minimized == d.minimized
      && t.stashed == Keep(d.stashed, d.alive)
      && r.sticky == d.sticky && (forall w :: w in d.tags ==> w in r.tags && r.tags[w] == d.tags[w])
  {
    var p := d.(stashed := Keep(d.stashed, d.alive));
    PruneSound(d, p);
    TagFromTags(f, Managed(p), p.current, AllWindows(p), p.tags);
    var r := Readied(f, d);
    assert AllWindows(r) == AllWindows(p);
    assert AllWindows(Retagged(f, r, desk, list)) == AllWindows(r);
  }

  /** After every switch, whatever the desk, the list and the layout, and even if the
      stash was wrong before. */
  lemma SetDeskSettles(f: Facts, d: Desks, desk: string, sticky: Option<seq<string>>, place: Option<map<Window, nat>>,
      focused: Option<Window>)
    requires Sound(d)
    ensures var e := SetDesk(f, d, desk, sticky, place, focused);
      && Inv(f, e) && Settled(f, e) && e.current == desk && e.alive == d.alive && e.minimized == d.minimized
      && (forall w :: w in e.space ==> Shows(f, e, w))
      && Managed(e) == Managed(Readied(f, d))
      && e.tags == Retagged(f, Readied(f, d), desk, NewList(d, sticky)).tags
  {
    hide Retagged, Readied, Inv, Sound, Settled, Shows, Managed, AllWindows;
    ReadyToMove(f, d, desk, NewList(d, sticky));
    var t := Retagged(f, Readied(f, d), desk, NewList(d, sticky));
    MovedSettles(f, t, place);
    OnlyNotes(f, Moved(f, t, place), SetDesk(f, d, desk, sticky, place, focused));
  }

  /** No sticky window is ever in the stash. */
  lemma NoStickyInStash(f: Facts, d: Desks, w: Window)
    requires Inv(f, d) && WindowSticky(f, d, w)
    ensures w !in d.stashed
  {
  }

  lemma {:induction false} ChainLonger(f: Facts, all: set<Window>, sticky: seq<string>, w: Window, hops: nat, more: nat)
    requires hops <= more && Chain(f, all, sticky, w, hops)
    ensures Chain(f, all, sticky, w, more)
    decreases hops
  {
    if !IsSticky(sticky, f.app(w)) { ChainLonger(f, all, sticky, ParentIn(f, all, w).value, hops - 1, more - 1); }
  }

  /** What a window owes its stickiness to is sticky too, so it is not in the stash: a
      switch that forgets dead stashed windows makes nobody less sticky. */
  lemma {:induction false} ChainOutsideStash(f: Facts, d: Desks, left: set<Window>, w: Window, hops: nat)
    requires Inv(f, d) && hops <= 8 && Chain(f, Managed(d), d.sticky, w, hops)
    requires forall x :: x in d.space || x in d.minimized ==> x in left
    ensures Chain(f, left, d.sticky, w, hops)
    decreases hops
  {
    if !IsSticky(d.sticky, f.app(w)) {
      var p := ParentIn(f, Managed(d), w).value;
      ChainLonger(f, Managed(d), d.sticky, p, hops - 1, 8);
      NoStickyInStash(f, d, p);
      ChainOutsideStash(f, d, left, p, hops - 1);
    }
  }

  /** A window that is sticky when a switch starts belongs to the new desk afterwards and
      shows on it, whether or not the switch takes its app off the list. */
  lemma StickyTravels(f: Facts, d: Desks, desk: string, sticky: Option<seq<string>>, place: Option<map<Window, nat>>,
      focused: Option<Window>, w: Window)
    requires Inv(f, d) && w in Managed(d) && WindowSticky(f, d, w)
    ensures var e := SetDesk(f, d, desk, sticky, place, focused);
      DeskOf(e, w) == desk && (w in d.space ==> w in e.space) && !IsAway(f, e, w)
  {
    NoStickyInStash(f, d, w);
    ManagedIs(d);
    ReadyToMove(f, d, desk, NewList(d, sticky));
    var r := Readied(f, d);
    ManagedIs(Retagged(f, r, desk, NewList(d, sticky)));
    ChainOutsideStash(f, d, Managed(r), w, 8);
    hide Readied, Inv, Settled, StickyUnder, Managed, Chain;
    SetDeskSettles(f, d, desk, sticky, place, focused);
    var t := Retagged(f, r, desk, NewList(d, sticky));
    assert t.tags[w] == desk;
    MovedSettles(f, t, place);
  }

  /** ... and a window of the desk that is showing is not hidden by a later switch to that
      same desk, whatever list it brings. */
  lemma OwnWindowStays(f: Facts, d: Desks, sticky: Option<seq<string>>, place: Option<map<Window, nat>>,
      focused: Option<Window>, w: Window)
    requires Inv(f, d) && w in d.space && w in d.tags && d.tags[w] == d.current
    ensures var e := SetDesk(f, d, d.current, sticky, place, focused); DeskOf(e, w) == d.current && w in e.space
  {
    assert Sound(d);
    hide Readied, Inv, Settled, StickyUnder, Managed;
    SetDeskSettles(f, d, d.current, sticky, place, focused);
    ReadyToMove(f, d, d.current, NewList(d, sticky));
    var r := Readied(f, d);
    ManagedIs(r);
    var t := Retagged(f, r, d.current, NewList(d, sticky));
    assert t.tags[w] == d.current;
    MovedSettles(f, t, place);
  }

  // ---------------------------------------------------------- the smaller moves

  /** Taking one window from one place to the end of another. */
  lemma OneMove(d: Desks, e: Desks, w: Window)
    requires NoDup(AllWindows(d))
    requires
      || (w in d.space && e == d.(space := Drop(d.space, {w}), stashed := d.stashed + [w]))
      || (w in d.space && e == d.(space := Drop(d.space, {w}), minimized := d.minimized + [w]))
      || (w in d.stashed && e == d.(stashed := Drop(d.stashed, {w}), minimized := d.minimized + [w]))
      || (w in d.stashed && e == d.(stashed := Drop(d.stashed, {w}), space := d.space + [w]))
      || (w in d.minimized && e == d.(minimized := Drop(d.minimized, {w}), space := d.space + [w]))
    ensures NoDup(AllWindows(e)) && Managed(e) == Managed(d)
  {
    Places(d);
    DropNoDup(d.space, {w});
    DropNoDup(d.stashed, {w});
    DropNoDup(d.minimized, {w});
    NoDupConcat(d.stashed, [w]);
    NoDupConcat(d.minimized, [w]);
    NoDupConcat(d.space, [w]);
    Places(e);
    ManagedIs(d);
    ManagedIs(e);
  }

  /** Forgetting one dead window. */
  lemma OneLossSound(d: Desks, e: Desks, w: Window)
    requires Sound(d) && w !in d.alive
    requires e == d.(stashed := Drop(d.stashed, {w})) || e == d.(minimized := Drop(d.minimized, {w}))
    ensures Sound(e) && Managed(e) <= Managed(d)
  {
    Places(d);
    DropNoDup(d.stashed, {w});
    DropNoDup(d.minimized, {w});
    Places(e);
    ManagedIs(d);
    ManagedIs(e);
  }

  lemma PlaceSound(f: Facts, t: Desks, w: Window)
    requires Sound(t) && w in Managed(t)
    ensures var e := Place(f, t, w);
      && Sound(e) && e.tags == t.tags && e.drawn == t.drawn && (w in e.space ==> Shows(f, t, w))
      && (w in t.alive ==> Managed(e) == Managed(t) && forall x :: Shows(f, e, x) == Shows(f, t, x))
      && (w in t.alive && w !in t.minimized ==>
           (w in e.stashed <==> !Shows(f, t, w)) && (w in e.space <==> Shows(f, t, w)))
      && (forall x :: x != w ==> (x in e.space <==> x in t.space) && (x in e.stashed <==> x in t.stashed))
  {
    var e := Place(f, t, w);
    ManagedIs(t);
    Places(t);
    if w in t.stashed && Shows(f, t, w) && w !in t.alive {
      OneLossSound(t, e, w);
    } else {
      if e != t { OneMove(t, e, w); }
      hide AllWindows, Managed, NoDup, Chain, WindowSticky;
      forall x ensures Shows(f, e, x) == Shows(f, t, x) { ShowsAlike(f, t, e, x); }
    }
  }

  lemma PlaceKeeps(f: Facts, t: Desks, w: Window)
    requires Sound(t) && w in t.tags && w in Managed(t)
    requires forall x :: x in t.stashed && x != w ==> x in t.tags && !Shows(f, t, x)
    ensures Inv(f, Place(f, t, w))
  {
    var e := Place(f, t, w);
    ManagedIs(t);
    if w in t.stashed && Shows(f, t, w) && w !in t.alive {
      LoseStashed(f, t, w);
    } else {
      PlaceSound(f, t, w);
      if e != t { OneMove(t, e, w); }
      hide AllWindows, Managed, NoDup, Chain, WindowSticky;
      forall x ensures Shows(f, e, x) == Shows(f, t, x) { ShowsAlike(f, t, e, x); }
    }
  }

  lemma LoseStashed(f: Facts, t: Desks, w: Window)
    requires Sound(t) && w !in t.alive
    requires forall x :: x in t.stashed && x != w ==> x in t.tags && !Shows(f, t, x)
    ensures Inv(f, t.(stashed := Drop(t.stashed, {w})))
  {
    var e := t.(stashed := Drop(t.stashed, {w}));
    OneLossSound(t, e, w);
    hide Sound, Managed, Shows;
    forall x | x in e.stashed ensures !Shows(f, e, x) { HiddenStaysHidden(f, t, e, x); }
  }

  lemma MoveToDeskInv(f: Facts, d: Desks, w: Window, desk: string)
    requires Inv(f, d) && w in Managed(d)
    ensures Inv(f, MoveToDesk(f, d, w, desk))
  {
    TagNewSound(f, d);
    TagNewKeeps(f, d);
    var n := TagNew(f, d);
    var t := n.(tags := n.tags[w := desk]);
    assert AllWindows(t) == AllWindows(n);
    forall x | x in t.stashed && x != w ensures !Shows(f, t, x) { ShowsAlike(f, n, t, x); }
    hide TagNew, Place, Shows;
    PlaceKeeps(f, t, w);
  }

  lemma MoveToDeskSound(f: Facts, d: Desks, w: Window, desk: string)
    requires Sound(d) && w in Managed(d)
    ensures Sound(MoveToDesk(f, d, w, desk))
  {
    TagNewSound(f, d);
    var n := TagNew(f, d);
    var t := n.(tags := n.tags[w := desk]);
    assert AllWindows(t) == AllWindows(n);
    hide TagNew, Place, Shows;
    PlaceSound(f, t, w);
  }

  /** Giving a live window to a desk keeps every window of the space in its place, and puts
      this one in its own; the stash need not be right for that, but stays right if it is. */
  lemma MoveToDeskKeeps(f: Facts, d: Desks, w: Window, desk: string)
    requires Sound(d) && Settled(f, d) && w in d.alive
    ensures var e := MoveToDesk(f, d, w, desk);
      && Settled(f, e) && Managed(e) == Managed(d)
      && DeskOf(e, w) == desk
      && (w !in d.minimized ==> (w in e.space <==> Shows(f, e, w)))
      && (forall x :: x != w ==> (x in e.space <==> x in d.space) && (x in e.stashed <==> x in d.stashed))
      && (Inv(f, d) ==> Inv(f, e))
  {
    var e := MoveToDesk(f, d, w, desk);
    var t := d.(tags := d.tags[w := desk]);
    TaggedAlready(f, d);
    ManagedIs(d);
    if Inv(f, d) { MoveToDeskInv(f, d, w, desk); }
    assert AllWindows(t) == AllWindows(d);
    hide TagNew, Place, MoveToDesk, Inv, NoDup, AllWindows;
    forall x | x != w ensures Shows(f, t, x) == Shows(f, d, x) { ShowsAlike(f, d, t, x); }
    hide Shows;
    PlaceSound(f, t, w);
    assert forall x :: x in AllWindows(e) <==> x in Managed(e) by { ManagedIs(e); }
    assert forall x :: x in AllWindows(d) <==> x in Managed(d);
  }

  lemma TaggedAlready(f: Facts, d: Desks)
    requires forall w :: w in AllWindows(d) ==> w in d.tags
    ensures TagNew(f, d) == d
    ensures forall w, desk :: MoveToDesk(f, d, w, desk) == Place(f, d.(tags := d.tags[w := desk]), w)
  {
    TagFromTags(f, Managed(d), d.current, AllWindows(d), d.tags);
    assert d.tags.Keys + Elements(AllWindows(d)) == d.tags.Keys;
    assert TagNew(f, d).tags == d.tags;
  }

  /** No window but `w` changes its place. */
  ghost predicate OnlyMoves(d: Desks, e: Desks, w: Window) {
    forall x :: x != w ==>
      && (x in e.space <==> x in d.space)
      && (x in e.stashed <==> x in d.stashed)
      && (x in e.minimized <==> x in d.minimized)
  }

  lemma MinimizePlaces(d: Desks, w: Window)
    requires Sound(d)
    ensures var e := Minimize(d, w);
      && Sound(e) && Managed(e) == Managed(d) && OnlyMoves(d, e, w)
      && e == d.(space := e.space, stashed := e.stashed, minimized := e.minimized)
      && (w in Managed(d) ==> w in e.minimized) && w !in e.space && w !in e.stashed
  {
    hide NoDup, AllWindows, Managed;
    var e := Minimize(d, w);
    Places(d);
    ManagedIs(d);
    if w in d.space || w in d.stashed {
      OneMove(d, e, w);
      Places(e);
    }
  }

  lemma MinimizeKeeps(f: Facts, d: Desks, w: Window)
    requires Sound(d)
    ensures var e := Minimize(d, w);
      Sound(e) && Managed(e) == Managed(d) && (Settled(f, d) ==> Settled(f, e)) && (Inv(f, d) ==> Inv(f, e))
    ensures w in Managed(d) ==> w in Minimize(d, w).minimized
    ensures OnlyMoves(d, Minimize(d, w), w)
  {
    var e := Minimize(d, w);
    MinimizePlaces(d, w);
    ManagedIs(d);
    ManagedIs(e);
    hide AllWindows, Managed, NoDup, Minimize, Chain, WindowSticky;
    forall x ensures Shows(f, e, x) == Shows(f, d, x) { ShowsAlike(f, d, e, x); }
    assert forall x :: x in AllWindows(e) <==> x in Managed(e);
    assert forall x :: x in AllWindows(d) <==> x in Managed(d);
  }

  /** A window put away is away from the current desk: reaching for it always switches. */
  lemma AwayIsElsewhere(f: Facts, d: Desks, w: Window)
    requires Inv(f, d) && IsAway(f, d, w)
    ensures DeskOf(d, w) != "" && DeskOf(d, w) != d.current && !WindowSticky(f, d, w)
  {
  }

  /** `show_desk_of`: "stashed although its desk is showing" is never found, and whatever
      was reached for is not away afterwards. */
  lemma ShowDeskOfShows(f: Facts, d: Desks, w: Window, place: Option<map<Window, nat>>, focused: Option<Window>)
    requires Inv(f, d)
    ensures IsAway(f, d, w) ==>
      DeskOf(d, w) != d.current && w !in SetDesk(f, d, DeskOf(d, w), None, place, focused).stashed
    ensures var e := ShowDeskOf(f, d, w, place, focused);
      && e == (if IsAway(f, d, w) then SetDesk(f, d, DeskOf(d, w), None, place, focused) else d)
      && Inv(f, e) && (Settled(f, d) ==> Settled(f, e)) && e.alive == d.alive
      && !IsAway(f, e, w)
      && (w in d.stashed && w in d.alive ==> w in e.space)
  {
    if IsAway(f, d, w) {
      AwayIsElsewhere(f, d, w);
      var desk := DeskOf(d, w);
      var e := SetDesk(f, d, desk, None, place, focused);
      ReadyToMove(f, d, desk, d.sticky);
      SetDeskSettles(f, d, desk, None, place, focused);
      var r := Readied(f, d);
      ManagedIs(e);
      ManagedIs(Retagged(f, r, desk, d.sticky));
      MovedSettles(f, Retagged(f, r, desk, d.sticky), place);
      hide Readied, Moved, Managed, AllWindows, Chain, WindowSticky;
      assert w in d.tags || w !in d.stashed;
      assert w in Managed(r) ==> DeskOf(e, w) == desk;
      assert Shows(f, e, w) || w !in Managed(e);
    }
  }

  lemma RestoreSound(d: Desks, w: Window)
    requires Sound(d)
    ensures Sound(Restore(d, w)) && w !in Restore(d, w).stashed
    ensures Restore(d, w).minimized == d.minimized
  {
    var e := Restore(d, w);
    Places(d);
    if w in d.stashed {
      if w in d.alive { OneMove(d, e, w); } else { OneLossSound(d, e, w); }
    }
  }

  /** One live window from the stash to the space. */
  lemma RestoreSettles(f: Facts, d: Desks, w: Window)
    requires Sound(d) && Settled(f, d) && (w in d.stashed ==> Shows(f, d, w) && w in d.alive)
    ensures Settled(f, Restore(d, w))
  {
    var e := Restore(d, w);
    if w in d.stashed {
      OneMove(d, e, w);
      hide AllWindows, Managed, NoDup, Chain, WindowSticky;
      forall x ensures Shows(f, e, x) == Shows(f, d, x) { ShowsAlike(f, d, e, x); }
      ManagedIs(e);
      ManagedIs(d);
      assert forall x :: x in AllWindows(e) <==> x in Managed(e);
      assert forall x :: x in AllWindows(d) <==> x in Managed(d);
    }
  }

  /** In the stash with nothing to hide it. */
  predicate Stranded(d: Desks, w: Window) {
    w in d.stashed && DeskOf(d, w) == d.current
  }

  /** Under the invariant that does not happen. */
  lemma NeverStranded(f: Facts, d: Desks, w: Window)
    requires Inv(f, d)
    ensures !Stranded(d, w)
  {
  }

  /** A window with a desk shows once that desk is the current one. */
  lemma ShowsAtHome(f: Facts, d: Desks, place: Option<map<Window, nat>>, focused: Option<Window>, w: Window)
    requires Sound(d) && w in d.tags
    ensures var e := SetDesk(f, d, d.tags[w], None, place, focused);
      && w !in e.stashed && (w in e.minimized ==> DeskOf(e, w) == d.tags[w] && Shows(f, e, w))
  {
    var desk := d.tags[w];
    var r := Readied(f, d);
    ReadyToMove(f, d, desk, d.sticky);
    SetDeskSettles(f, d, desk, None, place, focused);
    var e := SetDesk(f, d, desk, None, place, focused);
    assert w in Managed(r) ==> DeskOf(e, w) == desk;
    ManagedIs(e);
    hide Readied, Retagged, SetDesk, Managed, AllWindows, WindowSticky;
    assert w in e.stashed || w in e.minimized ==> w in Managed(e);
  }

  /** Whatever state the stash is in, a window that was reached for is not away afterwards:
      what the branch for a stranded window is there for. */
  lemma ReachesAnyway(f: Facts, d: Desks, w: Window, place: Option<map<Window, nat>>, focused: Option<Window>)
    requires Sound(d)
    ensures var e := ShowDeskOf(f, d, w, place, focused);
      Sound(e) && !IsAway(f, e, w) && e.minimized == d.minimized && e.alive == d.alive
  {
    if IsAway(f, d, w) {
      var desk := DeskOf(d, w);
      var e := if desk != d.current then SetDesk(f, d, desk, None, place, focused) else d;
      if desk != d.current {
        SetDeskSettles(f, d, desk, None, place, focused);
        if w in d.tags { ShowsAtHome(f, d, place, focused, w); }
      }
      Places(d);
      RestoreSound(e, w);
      hide SetDesk, Sound, Managed, WindowSticky, NoDup;
    }
  }

  lemma ReachSettles(f: Facts, d: Desks, w: Window, place: Option<map<Window, nat>>, focused: Option<Window>)
    requires Sound(d) && Settled(f, d) && (w in d.alive || !Stranded(d, w))
    ensures Settled(f, ShowDeskOf(f, d, w, place, focused))
  {
    if IsAway(f, d, w) {
      var desk := DeskOf(d, w);
      assert w in AllWindows(d) && w in d.tags;
      if desk != d.current {
        SetDeskSettles(f, d, desk, None, place, focused);
        ShowsAtHome(f, d, place, focused, w);
      } else {
        RestoreSettles(f, d, w);
      }
      hide SetDesk, Sound, Settled, Managed, WindowSticky, NoDup;
    }
  }

  lemma BringBack(f: Facts, e: Desks, w: Window)
    requires Sound(e) && w in e.minimized
    ensures var u := e.(minimized := Drop(e.minimized, {w}), space := if w in e.alive then e.space + [w] else e.space);
      && Sound(u)
      && (Settled(f, e) && w in e.alive && !IsAway(f, e, w) ==> Settled(f, u))
      && (Inv(f, e) ==> Inv(f, u))
      && OnlyMoves(e, u, w)
  {
    var u := e.(minimized := Drop(e.minimized, {w}), space := if w in e.alive then e.space + [w] else e.space);
    if w in e.alive {
      OneMove(e, u, w);
      hide AllWindows, Managed, NoDup, Chain, WindowSticky;
      forall x ensures Shows(f, u, x) == Shows(f, e, x) { ShowsAlike(f, e, u, x); }
      ManagedIs(e);
      ManagedIs(u);
      assert forall x :: x in AllWindows(u) <==> x in Managed(u);
      assert forall x :: x in AllWindows(e) <==> x in Managed(e);
    } else {
      OneLossSound(e, u, w);
      hide Sound, Managed, Shows;
      if Inv(f, e) {
        forall x | x in u.stashed ensures !Shows(f, u, x) { HiddenStaysHidden(f, e, u, x); }
      }
    }
  }

  lemma UnminimizeKeeps(f: Facts, d: Desks, w: Window, place: Option<map<Window, nat>>, focused: Option<Window>)
    requires Sound(d)
    ensures var e := Unminimize(f, d, w, place, focused);
      && Sound(e)
      && (Settled(f, d) && w in d.alive ==> Settled(f, e))
      && (Inv(f, d) ==> Inv(f, e))
      && (w in d.minimized && w in d.alive ==> w in e.space)
      && w !in e.minimized && OnlyMoves(ShowDeskOf(f, d, w, place, focused), e, w)
  {
    hide ShowDeskOf, SetDesk, Sound, Inv, Settled, IsAway;
    var e := ShowDeskOf(f, d, w, place, focused);
    ReachesAnyway(f, d, w, place, focused);
    if Settled(f, d) && w in d.alive { ReachSettles(f, d, w, place, focused); }
    if Inv(f, d) { ShowDeskOfShows(f, d, w, place, focused); }
    if w in e.minimized { BringBack(f, e, w); }
  }

  predicate Own(f: Facts, d: Desks, w: Window) {
    DeskOf(d, w) == d.current && !WindowSticky(f, d, w)
  }

  /** The `i`th window of the stack is the desk's own, and none above it is. */
  ghost predicate TopAt(f: Facts, d: Desks, s: seq<Window>, i: int) {
    0 <= i < |s| && Own(f, d, s[i]) && forall j :: i < j < |s| ==> !Own(f, d, s[j])
  }

  /** The keyboard goes to the window that had it when the desk was left, if that is in the
      space; else to the top window that is the desk's own; else nowhere. */
  lemma FocusMeans(f: Facts, d: Desks)
    ensures var back := d.current in d.lastFocus && d.lastFocus[d.current] in d.space;
      match FocusAfter(f, d)
      case Some(w) =>
        && w in d.space
        && (back ==> w == d.lastFocus[d.current])
        && (!back ==> exists i :: TopAt(f, d, d.space, i) && d.space[i] == w)
      case None => !back && forall w :: w in d.space ==> !Own(f, d, w)
  {
    var i := TopOwnMeans(f, d, d.space);
    hide Own, TopOwn;
  }

  lemma {:induction false} TopOwnMeans(f: Facts, d: Desks, s: seq<Window>) returns (i: int)
    ensures match TopOwn(f, d, s)
      case Some(w) => TopAt(f, d, s, i) && s[i] == w
      case None => forall w :: w in s ==> !Own(f, d, w)
  {
    i := |s| - 1;
    if s != [] {
      assert TopOwn(f, d, s) == if Own(f, d, s[i]) then Some(s[i]) else TopOwn(f, d, s[..i]) by { hide WindowSticky; }
      hide Own, TopOwn;
      if !Own(f, d, s[i]) {
        var n := i;
        i := TopOwnMeans(f, d, s[..n]);
        assert forall j :: 0 <= j < n ==> s[..n][j] == s[j];
      }
    }
  }

  // ------------------------------------------------------------- what a switch means

  /** The window `hops` dialogs up from `s`. */
  ghost function Ancestor(f: Facts, all: set<Window>, s: Window, hops: nat): Option<Window>
    decreases hops
  {
    if hops == 0 then Some(s)
    else match ParentIn(f, all, s)
         case Some(p) => Ancestor(f, all, p, hops - 1)
         case None => None
  }

  /** Some entry of the list, padding and case aside, names this window's application. */
  ghost predicate Named(f: Facts, list: seq<string>, w: Window) {
    f.app(w) != "" && exists k :: 0 <= k < |list| && Text.SameName(Text.Trim(list[k]), f.app(w))
  }

  /** The list names the window or one of the seven it is a dialog of, directly or not. */
  ghost predicate NamedAbove(f: Facts, all: set<Window>, list: seq<string>, w: Window, hops: nat) {
    exists i: nat :: i < hops && Ancestor(f, all, w, i).Some? && Named(f, list, Ancestor(f, all, w, i).value)
  }

  lemma {:induction false} ChainMeans(f: Facts, all: set<Window>, list: seq<string>, w: Window, hops: nat)
    ensures Chain(f, all, Clean(list), w, hops) <==> NamedAbove(f, all, list, w, hops)
    decreases hops
  {
    hide Clean, Named;
    if hops > 0 {
      NamedIff(f, list, w);
      assert Ancestor(f, all, w, 0) == Some(w);
      match ParentIn(f, all, w)
      case None =>
        assert forall i: nat :: i > 0 ==> Ancestor(f, all, w, i).None?;
      case Some(p) =>
        ChainMeans(f, all, list, p, hops - 1);
        assert forall i: nat :: i > 0 ==> Ancestor(f, all, w, i) == Ancestor(f, all, p, i - 1);
        if NamedAbove(f, all, list, p, hops - 1) {
          var i: nat :| i < hops - 1 && Ancestor(f, all, p, i).Some? && Named(f, list, Ancestor(f, all, p, i).value);
          assert Ancestor(f, all, w, i + 1) == Ancestor(f, all, p, i);
        }
    }
  }

  lemma NamedIff(f: Facts, list: seq<string>, w: Window)
    ensures IsSticky(Clean(list), f.app(w)) <==> Named(f, list, w)
  {
    CleanKeepsMeaning(list, f.app(w));
  }

  lemma StickyMeans(f: Facts, all: set<Window>, list: seq<string>, w: Window)
    ensures StickyUnder(f, all, Clean(list), w) <==> NamedAbove(f, all, list, w, 8)
  {
    hide Clean, NamedAbove;
    ChainMeans(f, all, list, w, 8);
    if Clean(list) == [] { NoneSticky(f, all, w, 8); }
  }

  lemma {:induction false} NoneSticky(f: Facts, all: set<Window>, w: Window, hops: nat)
    ensures !Chain(f, all, [], w, hops)
    decreases hops
  {
    if hops > 0 && ParentIn(f, all, w).Some? { NoneSticky(f, all, ParentIn(f, all, w).value, hops - 1); }
  }

  /** A switch, said without the code. The desk and the list given are in force; of the windows
      that are not minimised those are in the space that belong to the desk or to none, or that
      the list names, themselves or above them; the shell is told if and only if desk or list
      changed; and the desk that was left remembers who had the keyboard. */
  lemma SwitchMeans(f: Facts, d: Desks, desk: string, list: seq<string>, place: Option<map<Window, nat>>,
      focused: Option<Window>)
    requires Sound(d)
    ensures var e := SetDesk(f, d, desk, Some(list), place, focused);
      && e.current == desk && e.sticky == Clean(list) && e.alive == d.alive && e.drawn == d.drawn
      && (forall w :: w in Managed(e) && w !in e.minimized ==>
            (w in e.space <==> DeskOf(e, w) == desk || DeskOf(e, w) == "" || NamedAbove(f, Managed(e), list, w, 8)))
      && e.events == d.events + (if d.current != desk || Clean(list) != d.sticky then [(desk, Clean(list))] else [])
      && e.lastFocus == (if d.current != desk && d.current != "" && focused.Some?
                         then d.lastFocus[d.current := focused.value] else d.lastFocus)
  {
    SetDeskSettles(f, d, desk, Some(list), place, focused);
    var e := SetDesk(f, d, desk, Some(list), place, focused);
    assert e.sticky == Clean(list);
    SpaceIsShown(f, e);
    forall w ensures StickyUnder(f, Managed(e), Clean(list), w) <==> NamedAbove(f, Managed(e), list, w, 8) {
      StickyMeans(f, Managed(e), list, w);
    }
    hide Inv, Settled, Managed, StickyUnder, NamedAbove, Retagged, Readied, Clean;
  }

  lemma SpaceIsShown(f: Facts, e: Desks)
    requires Inv(f, e) && forall w :: w in e.space ==> Shows(f, e, w)
    ensures forall w :: w in Managed(e) && w !in e.minimized ==> (w in e.space <==> Shows(f, e, w))
  {
    ManagedIs(e);
  }

  /** Without a list the one in force stays, and the shell is told of a new desk only. */
  lemma SwitchWithoutList(f: Facts, d: Desks, desk: string, place: Option<map<Window, nat>>, focused: Option<Window>)
    ensures var e := SetDesk(f, d, desk, None, place, focused);
      e.sticky == d.sticky && e.events == d.events + (if d.current != desk then [(desk, d.sticky)] else [])
  {
    hide Retagged, Readied, Moved;
    assert Retagged(f, Readied(f, d), desk, d.sticky).sticky == d.sticky
      by { ListKept(f, Readied(f, d), desk, d.sticky); }
    MovedKeepsList(f, Retagged(f, Readied(f, d), desk, d.sticky), place);
  }

  lemma ListKept(f: Facts, r: Desks, desk: string, list: seq<string>)
    ensures Retagged(f, r, desk, list).sticky == list
  {
  }

  lemma MovedKeepsList(f: Facts, t: Desks, place: Option<map<Window, nat>>)
    ensures Moved(f, t, place).sticky == t.sticky
  {
  }

  /** A window keeps its desk in a switch unless it had none or was sticky, and then belongs to the
      new one. */
  lemma SwitchTags(f: Facts, d: Desks, desk: string, sticky: Option<seq<string>>, place: Option<map<Window, nat>>,
      focused: Option<Window>, w: Window)
    requires Sound(d) && w in d.tags
    ensures var e := SetDesk(f, d, desk, sticky, place, focused);
      w in Managed(e) ==>
        DeskOf(e, w) == if d.tags[w] == "" || StickyUnder(f, Managed(e), d.sticky, w) then desk else d.tags[w]
  {
    SetDeskSettles(f, d, desk, sticky, place, focused);
    ReadyToMove(f, d, desk, NewList(d, sticky));
    hide Inv, Settled, SetDesk, Managed, StickyUnder, Readied;
  }
}
