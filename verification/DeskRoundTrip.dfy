/** Going to another desk and back, and the order windows come back in
    (mindwm/src/desk.rs, `set_desk`). */
module DeskRoundTrip {
  import opened Common
  import opened Sticky
  import opened Desk

  ghost predicate Before<T(!new)>(s: seq<T>, a: T, b: T) {
    exists i, j :: 0 <= i < j < |s| && s[i] == a && s[j] == b
  }

  lemma BeforeCons<T(!new)>(x: T, s: seq<T>, a: T, b: T)
    requires (x == a && b in s) || Before(s, a, b)
    ensures Before([x] + s, a, b)
  {
    var t := [x] + s;
    if x == a && b in s {
      var j :| 0 <= j < |s| && s[j] == b;
      assert t[0] == a && t[j + 1] == b;
    } else {
      var i, j :| 0 <= i < j < |s| && s[i] == a && s[j] == b;
      assert t[i + 1] == a && t[j + 1] == b;
    }
  }

  lemma {:induction false} KeepBefore<T(!new)>(s: seq<T>, keep: set<T>, a: T, b: T)
    requires Before(s, a, b) && a in keep && b in keep
    ensures Before(Keep(s, keep), a, b)
  {
    if Before(s[1..], a, b) { KeepBefore(s[1..], keep, a, b); }
    if s[0] in keep { BeforeCons(s[0], Keep(s[1..], keep), a, b); }
  }

  lemma {:induction false} DropBefore<T(!new)>(s: seq<T>, gone: set<T>, a: T, b: T)
    requires Before(s, a, b) && a !in gone && b !in gone
    ensures Before(Drop(s, gone), a, b)
  {
    if Before(s[1..], a, b) { DropBefore(s[1..], gone, a, b); }
    if s[0] !in gone { BeforeCons(s[0], Drop(s[1..], gone), a, b); }
  }

  lemma BeforeConcat<T(!new)>(s: seq<T>, t: seq<T>, a: T, b: T)
    requires Before(s, a, b) || Before(t, a, b) || (a in s && b in t)
    ensures Before(s + t, a, b)
  {
    var u := s + t;
    if Before(s, a, b) {
      var i, j :| 0 <= i < j < |s| && s[i] == a && s[j] == b;
      assert u[i] == a && u[j] == b;
    } else if Before(t, a, b) {
      var i, j :| 0 <= i < j < |t| && t[i] == a && t[j] == b;
      assert u[|s| + i] == a && u[|s| + j] == b;
    } else {
      var i :| 0 <= i < |s| && s[i] == a;
      var j :| 0 <= j < |t| && t[j] == b;
      assert u[i] == a && u[|s| + j] == b;
    }
  }

  /** A switch restores windows in the order they were stashed, leaves the windows that
      stay in their order, and puts the returning ones above those. */
  lemma SwitchKeepsOrder(f: Facts, d: Desks, desk: string, sticky: Option<seq<string>>,
      place: Option<map<Window, nat>>, focused: Option<Window>, a: Window, b: Window)
    requires Inv(f, d)
    requires var e := SetDesk(f, d, desk, sticky, place, focused); a in e.space && b in e.space
    requires Before(d.stashed, a, b) || Before(d.space, a, b) || (a in d.space && b in d.stashed)
    ensures Before(SetDesk(f, d, desk, sticky, place, focused).space, a, b)
  {
    ReadyToMove(f, d, desk, NewList(d, sticky));
    var t := Retagged(f, Readied(f, d), desk, NewList(d, sticky));
    MovedSettles(f, t, place);
    Places(d);
    hide Retagged, Readied, Shows, Inv, Settled, NoDup, Managed;
    var back := Returning(f, t);
    assert a in d.stashed ==> a in d.alive && a in back;
    assert b in d.stashed ==> b in d.alive && b in back;
    if Before(d.stashed, a, b) {
      KeepBefore(d.stashed, d.alive, a, b);
      KeepBefore(t.stashed, back, a, b);
    } else if Before(d.space, a, b) {
      DropBefore(d.space, Hidden(f, t), a, b);
    }
    BeforeConcat(Drop(t.space, Hidden(f, t)), Keep(t.stashed, back), a, b);
  }

  /** Without tiling, windows are put away in the order they were stacked. */
  lemma StashKeepsOrder(f: Facts, d: Desks, desk: string, sticky: Option<seq<string>>, focused: Option<Window>,
      a: Window, b: Window)
    requires Inv(f, d) && Before(d.space, a, b)
    requires var e := SetDesk(f, d, desk, sticky, None, focused); a in e.stashed && b in e.stashed
    ensures Before(SetDesk(f, d, desk, sticky, None, focused).stashed, a, b)
  {
    ReadyToMove(f, d, desk, NewList(d, sticky));
    var t := Retagged(f, Readied(f, d), desk, NewList(d, sticky));
    Places(d);
    hide Retagged, Readied, Shows, Inv, Settled, NoDup, Managed;
    KeepBefore(d.space, Hidden(f, t), a, b);
    BeforeConcat(Drop(t.stashed, Returning(f, t)), Keep(t.space, Hidden(f, t)), a, b);
  }

  ghost predicate InTileOrder(s: seq<Window>, place: map<Window, nat>) {
    forall i, j :: 0 <= i < j < |s| ==> NotAfter(place, s[i], s[j])
  }

  lemma {:induction false} InsertSorted(x: Window, s: seq<Window>, place: map<Window, nat>)
    requires InTileOrder(s, place)
    ensures InTileOrder(Insert(x, s, place), place)
  {
    if s != [] && !NotAfter(place, x, s[0]) {
      var r := Insert(x, s[1..], place);
      InsertSorted(x, s[1..], place);
      InsertElements(x, s[1..], place);
      forall j | 0 <= j < |r| ensures NotAfter(place, s[0], r[j]) {
        assert r[j] in Elements(r);
      }
    }
  }

  /** When tiling, the windows put away are in the order of their tiles. */
  lemma {:induction false} StashInTileOrder(s: seq<Window>, place: map<Window, nat>)
    ensures InTileOrder(SortByPlace(s, place), place)
  {
    hide InTileOrder, Insert;
    if s == [] {
      assert InTileOrder([], place) by { EmptyInOrder(place); }
    } else {
      StashInTileOrder(s[1..], place);
      InsertSorted(s[0], SortByPlace(s[1..], place), place);
    }
  }

  lemma EmptyInOrder(place: map<Window, nat>)
    ensures InTileOrder([], place)
  {
  }

  // ---------------------------------------------------------------- there and back

  ghost predicate AllTagged(d: Desks) {
    forall w :: w in Managed(d) ==> w in d.tags && d.tags[w] != ""
  }

  lemma ReadiedAlready(f: Facts, d: Desks)
    requires AllTagged(d) && d.alive == Managed(d)
    ensures Readied(f, d) == d
  {
    ManagedIs(d);
    KeepAll(d.stashed, d.alive);
    TagFromTags(f, Managed(d), d.current, AllWindows(d), d.tags);
    assert d.tags.Keys + Elements(AllWindows(d)) == d.tags.Keys;
    assert TagFrom(f, Managed(d), d.current, AllWindows(d), d.tags) == d.tags;
  }

  /** One switch, every window tagged and alive, the list unchanged. */
  lemma PlainSwitch(f: Facts, d: Desks, desk: string, place: Option<map<Window, nat>>, focused: Option<Window>)
    requires Inv(f, d) && AllTagged(d) && d.alive == Managed(d) && desk != ""
    ensures var e := SetDesk(f, d, desk, None, place, focused);
      && Inv(f, e) && AllTagged(e) && e.alive == Managed(e) && Managed(e) == Managed(d)
      && e.current == desk && e.sticky == d.sticky && e.minimized == d.minimized
      && (forall w :: w in Managed(d) ==> e.tags[w] == if WindowSticky(f, d, w) then desk else d.tags[w])
      && (forall w :: w in Managed(d) && w !in d.minimized ==> (w in e.space <==> Shows(f, e, w)))
  {
    ReadiedAlready(f, d);
    SetDeskSettles(f, d, desk, None, place, focused);
    var e := SetDesk(f, d, desk, None, place, focused);
    hide SetDesk, Managed, Inv, Settled, Sound, WindowSticky, Readied, Retagged;
  }

  /** From desk A to B and back: exactly the windows that belonged in the space are in it
      again, and every window that is not sticky has the desk it had. */
  lemma RoundTrip(f: Facts, d: Desks, desk: string, p1: Option<map<Window, nat>>, p2: Option<map<Window, nat>>,
      f1: Option<Window>, f2: Option<Window>)
    requires Inv(f, d) && AllTagged(d) && d.alive == Managed(d) && desk != "" && d.current != ""
    ensures var e := SetDesk(f, SetDesk(f, d, desk, None, p1, f1), d.current, None, p2, f2);
      && (forall w :: w in e.space <==> w in d.space && Shows(f, d, w))
      && (forall w :: w in Managed(d) && !WindowSticky(f, d, w) ==> DeskOf(e, w) == DeskOf(d, w))
      && e.minimized == d.minimized && e.current == d.current && e.sticky == d.sticky
      && (Elements(e.space) == Elements(d.space) <==> forall w :: w in d.space ==> Shows(f, d, w))
  {
    hide SetDesk, Managed, NoDup, AllWindows, StickyUnder;
    PlainSwitch(f, d, desk, p1, f1);
    var c := SetDesk(f, d, desk, None, p1, f1);
    PlainSwitch(f, c, d.current, p2, f2);
    var e := SetDesk(f, c, d.current, None, p2, f2);
    Places(d);
    Places(e);
    ManagedIs(d);
    ManagedIs(e);
    assert forall w :: WindowSticky(f, e, w) == WindowSticky(f, d, w) && WindowSticky(f, c, w) == WindowSticky(f, d, w);
    forall w ensures w in e.space <==> w in d.space && Shows(f, d, w) {
      if w in Managed(d) && w !in d.minimized {
        assert Shows(f, e, w) == Shows(f, d, w);
      }
    }
    assert forall w :: w in Elements(d.space) <==> w in d.space;
    assert forall w :: w in Elements(e.space) <==> w in e.space;
  }

  /** Where a window that shows is while the other desk is showing. */
  lemma Meanwhile(f: Facts, d: Desks, desk: string, place: Option<map<Window, nat>>, focused: Option<Window>, w: Window)
    requires Inv(f, d) && AllTagged(d) && d.alive == Managed(d) && desk != "" && d.current != ""
    requires w in d.space && Shows(f, d, w)
    ensures var c := SetDesk(f, d, desk, None, place, focused);
      if WindowSticky(f, d, w) || desk == d.current then w in c.space else w in c.stashed
  {
    PlainSwitch(f, d, desk, place, focused);
    var c := SetDesk(f, d, desk, None, place, focused);
    Places(d);
    ManagedIs(d);
    ManagedIs(c);
    hide SetDesk, Managed, NoDup, AllWindows, StickyUnder;
    assert WindowSticky(f, c, w) == WindowSticky(f, d, w);
  }

  /** ... and the order: of two windows that show, the one below stays below, unless the switch
      put it away while the upper one, being sticky, stayed; then it comes back on top. */
  lemma RoundTripOrder(f: Facts, d: Desks, desk: string, p2: Option<map<Window, nat>>, f1: Option<Window>,
      f2: Option<Window>, a: Window, b: Window)
    requires Inv(f, d) && AllTagged(d) && d.alive == Managed(d) && desk != "" && d.current != ""
    requires Before(d.space, a, b) && Shows(f, d, a) && Shows(f, d, b)
    ensures var e := SetDesk(f, SetDesk(f, d, desk, None, None, f1), d.current, None, p2, f2);
      if desk != d.current && !WindowSticky(f, d, a) && WindowSticky(f, d, b) then Before(e.space, b, a)
      else Before(e.space, a, b)
  {
    var c := SetDesk(f, d, desk, None, None, f1);
    assert a in d.space && b in d.space;
    hide SetDesk, Managed, NoDup, AllWindows, WindowSticky, Inv, AllTagged;
    PlainSwitch(f, d, desk, None, f1);
    RoundTrip(f, d, desk, None, p2, f1, f2);
    Meanwhile(f, d, desk, None, f1, a);
    Meanwhile(f, d, desk, None, f1, b);
    if a in c.space && b in c.space {
      SwitchKeepsOrder(f, d, desk, None, None, f1, a, b);
    } else if a in c.stashed && b in c.stashed {
      StashKeepsOrder(f, d, desk, None, f1, a, b);
    }
    if a in c.stashed && b in c.space {
      SwitchKeepsOrder(f, c, d.current, None, p2, f2, b, a);
    } else {
      SwitchKeepsOrder(f, c, d.current, None, p2, f2, a, b);
    }
  }

  /** A window that opened for another desk and has not drawn yet is in the space though it does
      not show; the trip puts it away. */
  lemma RoundTripCanLose()
    ensures
      var f := Facts(w => "tool", w => if w == 2 then Some(1) else None);
      var d := Desks("work", [], [2], [1], [], map[1 := "play", 2 := "play"], map[], {1, 2}, {1}, []);
      var e := SetDesk(f, SetDesk(f, d, "rest", None, None, None), "work", None, None, None);
      && Inv(f, d) && Settled(f, d) && AllTagged(d) && d.alive == Managed(d)
      && 2 in d.space && 2 !in e.space
  {
    var f := Facts(w => "tool", w => if w == 2 then Some(1) else None);
    var d := Desks("work", [], [2], [1], [], map[1 := "play", 2 := "play"], map[], {1, 2}, {1}, []);
    assert "play"[0] != "work"[0];
    StrayStart(f, d, "work", "play");
    hide SetDesk, Inv, Settled, AllTagged, Managed, Shows;
    RoundTrip(f, d, "rest", None, None, None, None);
  }

  /** Window 1 is away on the other desk and window 2, which belongs there too, has yet to draw. */
  lemma StrayStart(f: Facts, d: Desks, here: string, there: string)
    requires here != there && there != ""
    requires d == Desks(here, [], [2], [1], [], map[1 := there, 2 := there], map[], {1, 2}, {1}, [])
    ensures Inv(f, d) && Settled(f, d) && AllTagged(d) && d.alive == Managed(d) && !Shows(f, d, 2)
  {
    assert AllWindows(d) == [2, 1];
    ManagedIs(d);
    assert Managed(d) == {1, 2};
  }
}
