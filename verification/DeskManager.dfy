/** The desks as the compositor keeps them (mindwm/src/desk.rs): lists it edits in place,
    each operation proved against its function in module `Desk`. */
module DeskManager {
  import opened Common
  import opened Sticky
  import opened Desk

  lemma {:induction false} RemoveAt(s: seq<Window>, pos: nat)
    requires pos < |s| && NoDup(s)
    ensures s[..pos] + s[pos + 1..] == Drop(s, {s[pos]})
  {
    if pos == 0 {
      DropNothing(s[1..], {s[0]});
    } else {
      RemoveAt(s[1..], pos - 1);
      assert s[1..][..pos - 1] + s[1..][pos..] == s[1..pos] + s[pos + 1..];
      assert s[..pos] + s[pos + 1..] == [s[0]] + (s[1..pos] + s[pos + 1..]);
    }
  }

  lemma {:induction false} KeepNone(s: seq<Window>, keep: set<Window>)
    requires forall w :: w in s ==> w !in keep
    ensures Keep(s, keep) == []
  {
    if s != [] { KeepNone(s[1..], keep); }
  }

  lemma KeepSnoc(s: seq<Window>, i: nat, keep: set<Window>)
    requires i < |s|
    ensures Keep(s[..i + 1], keep) == Keep(s[..i], keep) + (if s[i] in keep then [s[i]] else [])
  {
    assert s[..i + 1] == s[..i] + [s[i]];
    KeepConcat(s[..i], [s[i]], keep);
  }

  lemma ElementsSnoc(s: seq<Window>, i: nat)
    requires i < |s|
    ensures Elements(s[..i + 1]) == Elements(s[..i]) + {s[i]}
  {
  }

  method Position(s: seq<Window>, w: Window) returns (pos: nat)
    ensures pos <= |s| && (pos < |s| ==> s[pos] == w) && w !in s[..pos]
  {
    pos := 0;
    while pos < |s| && s[pos] != w
      invariant pos <= |s| && w !in s[..pos]
    {
      pos := pos + 1;
    }
  }

  class Manager {
    const facts: Facts
    var current: string
    var sticky: seq<string>
    var space: seq<Window>
    var stashed: seq<Window>
    var minimized: seq<Window>
    var tags: map<Window, string>
    var lastFocus: map<string, Window>
    var alive: set<Window>
    var drawn: set<Window>
    var events: seq<(string, seq<string>)>

    ghost function View(): Desks
      reads this
    {
      Desks(current, sticky, space, stashed, minimized, tags, lastFocus, alive, drawn, events)
    }

    constructor (f: Facts)
      ensures facts == f && View() == Desks("", [], [], [], [], map[], map[], {}, {}, [])
    {
      facts, current, sticky, space, stashed, minimized := f, "", [], [], [], [];
      tags, lastFocus, alive, drawn, events := map[], map[], {}, {}, [];
    }

    /** Up from dialog to dialog, eight windows at most. */
    method IsStickyUnder(list: seq<string>, window: Window) returns (r: bool)
      ensures r == StickyUnder(facts, Managed(View()), list, window)
    {
      if list == [] {
        return false;
      }
      var all := Elements(space + stashed + minimized);
      var w := window;
      for hop := 0 to 8
        invariant Chain(facts, all, list, window, 8) == Chain(facts, all, list, w, 8 - hop)
      {
        if IsSticky(list, facts.app(w)) {
          return true;
        }
        var parent := ParentIn(facts, all, w);
        if parent.None? {
          return false;
        }
        w := parent.value;
      }
      return false;
    }

    method TagNewWindows()
      modifies this`tags
      ensures View() == TagNew(facts, old(View()))
    {
      var ws := space + stashed + minimized;
      var all := Elements(ws);
      for i := 0 to |ws|
        invariant TagFrom(facts, all, current, ws[i..], tags) == TagFrom(facts, all, current, ws, old(tags))
      {
        assert ws[i..][1..] == ws[i + 1..];
        if ws[i] !in tags {
          tags := tags[ws[i] := TagOf(facts, all, current, tags, ws[i])];
        }
      }
    }

    method StashWindow(w: Window)
      requires NoDup(space)
      modifies this`space, this`stashed
      ensures View() == Stash(old(View()), w)
    {
      if w in stashed {
        return;
      }
      var pos := Position(space, w);
      if pos < |space| {
        RemoveAt(space, pos);
        space := space[..pos] + space[pos + 1..];
        stashed := stashed + [w];
      }
    }

    method RestoreWindow(w: Window)
      requires NoDup(stashed)
      modifies this`space, this`stashed
      ensures View() == Restore(old(View()), w)
    {
      var pos := Position(stashed, w);
      if pos == |stashed| {
        return;
      }
      RemoveAt(stashed, pos);
      stashed := stashed[..pos] + stashed[pos + 1..];
      if w in alive {
        space := space + [w];
      }
    }

    /** Stash a list of windows of the space, in order. */
    method StashAll(ws: seq<Window>)
      requires CanStash(View(), ws)
      modifies this`space, this`stashed
      ensures View() == StashedUpTo(old(View()), ws, |ws|)
    {
      StashedNone(View(), ws);
      for i := 0 to |ws|
        invariant View() == StashedUpTo(old(View()), ws, i)
      {
        StashNext(old(View()), ws, i);
        StashWindow(ws[i]);
      }
    }

    /** Restore a list of live stashed windows, in order. */
    method RestoreAll(ws: seq<Window>)
      requires CanRestore(View(), ws)
      modifies this`space, this`stashed
      ensures View() == RestoredUpTo(old(View()), ws, |ws|)
    {
      RestoredNone(View(), ws);
      for i := 0 to |ws|
        invariant View() == RestoredUpTo(old(View()), ws, i)
      {
        RestoreNext(old(View()), ws, i);
        RestoreWindow(ws[i]);
      }
    }

    /** Drawn windows of the space that belong to a desk that is not showing. */
    method FindStrays() returns (strays: seq<Window>)
      ensures strays == Keep(space, Strays(facts, View()))
    {
      ghost var t := View();
      strays := [];
      for i := 0 to |space|
        invariant strays == Keep(space[..i], Strays(facts, t))
      {
        var w := space[i];
        KeepSnoc(space, i, Strays(facts, t));
        hide StickyUnder, Keep;
        if w in tags && tags[w] != "" && tags[w] != current && w in drawn {
          var s := IsStickyUnder(sticky, w);
          if !s {
            strays := strays + [w];
          }
        }
      }
      assert space[..|space|] == space;
    }

    method Refresh()
      requires NoDup(AllWindows(View()))
      modifies this`space, this`stashed, this`tags
      ensures View() == DesksRefresh(facts, old(View()))
    {
      ghost var d := View();
      stashed := Keep(stashed, alive);
      TagNewWindows();
      StraysCanGo(facts, d, View());
      hide Strays, TagNew, NoDup, DesksRefresh, CanStash, StashedUpTo;
      var strays := FindStrays();
      StashAll(strays);
    }

    /** The decisions of a switch, made for every window before any is moved: its new desk,
        and whether it goes away or comes back. */
    method Decide(oldSticky: seq<string>)
        returns (newTags: map<Window, string>, stash: seq<Window>, restore: seq<Window>)
      requires NoDup(AllWindows(View())) && forall w :: w in AllWindows(View()) ==> w in tags
      ensures var e := Retagged(facts, View().(sticky := oldSticky), current, sticky);
        newTags == e.tags && stash == Keep(e.space, Hidden(facts, e)) && restore == Keep(e.stashed, Returning(facts, e))
    {
      ghost var r := View().(sticky := oldSticky);
      ghost var e := Retagged(facts, r, current, sticky);
      var ws := space + stashed + minimized;
      assert ws == AllWindows(r);
      newTags, stash, restore := tags, [], [];
      for i := 0 to |ws|
        invariant Decided(facts, r, e, i, newTags, stash, restore)
      {
        hide Decided, StickyUnder, Retagged, NoDup, SwitchWindow, AllWindows, Managed;
        DecideNext(facts, r, e, i, newTags, stash, restore);
        var before := IsStickyUnder(oldSticky, ws[i]);
        var after := IsStickyUnder(sticky, ws[i]);
        newTags, stash, restore := DecideOne(ws[i], before, after, newTags, stash, restore);
      }
      DecidedAll(facts, r, e, newTags, stash, restore);
    }

    /** One window of a switch. */
    method DecideOne(w: Window, before: bool, after: bool, tags0: map<Window, string>, stash0: seq<Window>,
        restore0: seq<Window>)
      returns (newTags: map<Window, string>, stash: seq<Window>, restore: seq<Window>)
      requires w in tags0
      ensures var (tag, shows) := SwitchWindow(current, tags0[w], before, after);
        && newTags == tags0[w := tag]
        && stash == (if w !in stashed && !shows && w !in minimized then stash0 + [w] else stash0)
        && restore == (if w in stashed && shows then restore0 + [w] else restore0)
    {
      newTags, stash, restore := tags0, stash0, restore0;
      var (tag, shows) := SwitchWindow(current, tags0[w], before, after);
      newTags := newTags[w := tag];
      if w in stashed {
        if shows {
          restore := restore + [w];
        }
      } else if !shows && w !in minimized {
        stash := stash + [w];
      }
    }

    /** The moves of a switch. */
    method MoveWindows(stash: seq<Window>, restore: seq<Window>, place: Option<map<Window, nat>>)
      requires NoDup(AllWindows(View())) && (forall w :: w in stashed ==> w in alive)
      requires stash == Keep(space, Hidden(facts, View())) && restore == Keep(stashed, Returning(facts, View()))
      modifies this`space, this`stashed
      ensures View() == Moved(facts, old(View()), place)
    {
      ghost var e := View();
      var ordered := if place.Some? then SortByPlace(stash, place.value) else stash;
      MovesInTwo(facts, e, place, ordered, restore);
      StashAll(ordered);
      var back := Keep(stashed, Elements(restore));
      RestoreAll(back);
    }

    /** The switch itself, without the notes it leaves: who had the keyboard, and the event. */
    method MoveToNewDesk(desk: string, list: Option<seq<string>>, place: Option<map<Window, nat>>)
      requires Sound(View())
      modifies this`current, this`sticky, this`space, this`stashed, this`tags
      ensures var d := old(View());
        View() == Moved(facts, Retagged(facts, Readied(facts, d), desk, NewList(d, list)), place)
    {
      ghost var d := View();
      ReadyToMove(facts, d, desk, NewList(d, list));
      var oldSticky := sticky;
      stashed := Keep(stashed, alive);
      TagNewWindows();
      ghost var r := View();
      current := desk;
      if list.Some? {
        sticky := CleanSticky(list.value);
      }
      assert AllWindows(View()) == AllWindows(r) && View().(sticky := oldSticky) == r.(current := desk);
      RetagIgnoresDesk(facts, r, desk, sticky);
      hide Retagged, Moved, TagNew, AllWindows;
      var newTags, stash, restore := Decide(oldSticky);
      tags := newTags;
      assert View() == Retagged(facts, r, desk, sticky);
      MoveWindows(stash, restore, place);
    }

    method SwitchDesk(desk: string, list: Option<seq<string>>, place: Option<map<Window, nat>>, focused: Option<Window>)
      returns (activate: Option<Window>)
      requires Sound(View())
      modifies this
      ensures View() == SetDesk(facts, old(View()), desk, list, place, focused)
      ensures activate == if old(current) != desk then FocusAfter(facts, View()) else None
    {
      hide Retagged, Moved, Readied;
      var old_, oldSticky := current, sticky;
      MovedKeepsNotes(facts, View(), desk, NewList(View(), list), place);
      MoveToNewDesk(desk, list, place);
      if old_ != desk && focused.Some? && old_ != "" {
        lastFocus := lastFocus[old_ := focused.value];
      }
      if old_ != desk || sticky != oldSticky {
        events := events + [(desk, sticky)];
      }
      activate := None;
      if old_ != desk {
        activate := ChooseFocus();
      }
    }

    /** Who had the keyboard when the desk was left, else the top window of its own. */
    method ChooseFocus() returns (activate: Option<Window>)
      ensures activate == FocusAfter(facts, View())
    {
      if current in lastFocus && lastFocus[current] in space {
        return Some(lastFocus[current]);
      }
      var i := |space|;
      assert space[..i] == space;
      while i > 0
        invariant i <= |space|
        invariant TopOwn(facts, View(), space) == TopOwn(facts, View(), space[..i])
      {
        i := i - 1;
        assert space[..i + 1][..i] == space[..i] && space[..i + 1][i] == space[i];
        var s := IsStickyUnder(sticky, space[i]);
        if (if space[i] in tags then tags[space[i]] else "") == current && !s {
          return Some(space[i]);
        }
      }
      return None;
    }

    method MoveWindowToDesk(w: Window, desk: string)
      requires NoDup(AllWindows(View()))
      modifies this`tags, this`space, this`stashed
      ensures View() == MoveToDesk(facts, old(View()), w, desk)
    {
      Places(View());
      TagNewWindows();
      tags := tags[w := desk];
      var s := IsStickyUnder(sticky, w);
      var shows := ShowsOn(current, desk, s);
      if w in stashed {
        if shows {
          RestoreWindow(w);
        }
      } else if !shows && w !in minimized {
        StashWindow(w);
      }
    }

    /** Go to the desk of a window and show it. `stranded` reports the branch for a
        window stashed although its desk is showing: under the invariant it is never taken. */
    method ReachFor(w: Window, place: Option<map<Window, nat>>, focused: Option<Window>) returns (stranded: bool)
      requires Sound(View())
      modifies this
      ensures View() == ShowDeskOf(facts, old(View()), w, place, focused)
      ensures Inv(facts, old(View())) ==> !stranded
    {
      stranded := false;
      var s := IsStickyUnder(sticky, w);
      var desk := if w in tags then tags[w] else "";
      if w !in stashed && (w !in minimized || ShowsOn(current, desk, s)) {
        return;
      }
      ghost var d := View();
      SetDeskSettles(facts, d, desk, None, place, focused);
      if Inv(facts, d) { ShowDeskOfShows(facts, d, w, place, focused); }
      hide SetDesk, Inv;
      if desk != current {
        var _ := SwitchDesk(desk, None, place, focused);
      }
      Places(View());
      if w in stashed {
        stranded := true;
        RestoreWindow(w);
      }
    }

    method HandOverStashed(w: Window) returns (was: bool)
      requires NoDup(stashed)
      modifies this`stashed, this`minimized
      ensures View() == MinimizeStashed(old(View()), w) && (was <==> w in old(stashed))
    {
      var pos := Position(stashed, w);
      if pos == |stashed| {
        return false;
      }
      RemoveAt(stashed, pos);
      stashed := stashed[..pos] + stashed[pos + 1..];
      minimized := minimized + [w];
      return true;
    }
  }

  lemma {:induction false} DropSame(s: seq<Window>, a: set<Window>, b: set<Window>)
    requires forall w :: w in s ==> (w in a <==> w in b)
    ensures Drop(s, a) == Drop(s, b)
  {
    if s != [] { DropSame(s[1..], a, b); }
  }

  lemma {:induction false} KeepSame(s: seq<Window>, a: set<Window>, b: set<Window>)
    requires forall w :: w in s ==> (w in a <==> w in b)
    ensures Keep(s, a) == Keep(s, b)
  {
    if s != [] { KeepSame(s[1..], a, b); }
  }

  // ------------------------------------------------ what the loops accomplish

  lemma NextUp(ws: seq<Window>, i: nat)
    requires NoDup(ws) && i < |ws|
    ensures ws[i] in ws && ws[i] !in ws[..i] && ws[i] !in Elements(ws[..i])
    ensures ws[..i + 1] == ws[..i] + [ws[i]] && Elements(ws[..i + 1]) == Elements(ws[..i]) + {ws[i]}
  {
  }

  ghost predicate CanStash(d: Desks, ws: seq<Window>) {
    NoDup(d.space) && NoDup(ws) && forall w :: w in ws ==> w in d.space && w !in d.stashed
  }

  ghost function StashedUpTo(d: Desks, ws: seq<Window>, i: nat): Desks
    requires i <= |ws|
  {
    d.(space := Drop(d.space, Elements(ws[..i])), stashed := d.stashed + ws[..i])
  }

  lemma StashedNone(d: Desks, ws: seq<Window>)
    ensures StashedUpTo(d, ws, 0) == d
  {
    DropNothing(d.space, Elements(ws[..0]));
  }

  lemma StashNext(d: Desks, ws: seq<Window>, i: nat)
    requires CanStash(d, ws) && i < |ws|
    ensures NoDup(StashedUpTo(d, ws, i).space)
    ensures Stash(StashedUpTo(d, ws, i), ws[i]) == StashedUpTo(d, ws, i + 1)
  {
    NextUp(ws, i);
    var before := Elements(ws[..i]);
    assert ws[i] in d.space && ws[i] !in d.stashed;
    hide NoDup, Elements;
    DropNoDup(d.space, before);
    DropDrop(d.space, before, {ws[i]});
  }

  ghost predicate CanRestore(d: Desks, ws: seq<Window>) {
    NoDup(d.stashed) && NoDup(ws) && forall w :: w in ws ==> w in d.stashed && w in d.alive
  }

  ghost function RestoredUpTo(d: Desks, ws: seq<Window>, i: nat): Desks
    requires i <= |ws|
  {
    d.(stashed := Drop(d.stashed, Elements(ws[..i])), space := d.space + ws[..i])
  }

  lemma RestoredNone(d: Desks, ws: seq<Window>)
    ensures RestoredUpTo(d, ws, 0) == d
  {
    DropNothing(d.stashed, Elements(ws[..0]));
  }

  lemma RestoreNext(d: Desks, ws: seq<Window>, i: nat)
    requires CanRestore(d, ws) && i < |ws|
    ensures NoDup(RestoredUpTo(d, ws, i).stashed)
    ensures Restore(RestoredUpTo(d, ws, i), ws[i]) == RestoredUpTo(d, ws, i + 1)
  {
    NextUp(ws, i);
    var before := Elements(ws[..i]);
    assert ws[i] in d.stashed && ws[i] in d.alive;
    hide NoDup, Elements;
    DropNoDup(d.stashed, before);
    DropDrop(d.stashed, before, {ws[i]});
  }

  lemma StraysCanGo(f: Facts, d: Desks, t: Desks)
    requires NoDup(AllWindows(d)) && t == TagNew(f, d.(stashed := Keep(d.stashed, d.alive)))
    ensures var strays := Keep(t.space, Strays(f, t));
      CanStash(t, strays) && StashedUpTo(t, strays, |strays|) == DesksRefresh(f, d)
  {
    var strays := Keep(t.space, Strays(f, t));
    Places(d);
    KeepNoDup(t.space, Strays(f, t));
    assert strays[..|strays|] == strays;
    DropSame(t.space, Elements(strays), Strays(f, t));
  }

  lemma OrderedIs(f: Facts, e: Desks, place: Option<map<Window, nat>>, ordered: seq<Window>)
    requires NoDup(AllWindows(e))
    requires var stash := Keep(e.space, Hidden(f, e));
      ordered == if place.Some? then SortByPlace(stash, place.value) else stash
    ensures CanStash(e, ordered) && Drop(e.space, Elements(ordered)) == Drop(e.space, Hidden(f, e))
    ensures NoDup(ordered) && NoDup(e.stashed) && forall w :: w in e.stashed ==> w !in ordered
  {
    var stash := Keep(e.space, Hidden(f, e));
    Places(e);
    KeepNoDup(e.space, Hidden(f, e));
    if place.Some? { SortElements(stash, place.value); }
    assert forall w :: w in ordered <==> w in Elements(ordered);
    assert forall w :: w in stash <==> w in Elements(stash);
    hide SortByPlace, Shows, AllWindows;
    DropSame(e.space, Elements(ordered), Hidden(f, e));
  }

  /** Stashing the hidden windows and then restoring the returning ones is the whole move. */
  lemma MovesInTwo(f: Facts, e: Desks, place: Option<map<Window, nat>>, ordered: seq<Window>, restore: seq<Window>)
    requires NoDup(AllWindows(e)) && (forall w :: w in e.stashed ==> w in e.alive)
    requires restore == Keep(e.stashed, Returning(f, e))
    requires var stash := Keep(e.space, Hidden(f, e));
      ordered == if place.Some? then SortByPlace(stash, place.value) else stash
    ensures CanStash(e, ordered)
    ensures var m := StashedUpTo(e, ordered, |ordered|);
      && Keep(m.stashed, Elements(restore)) == restore
      && CanRestore(m, restore) && RestoredUpTo(m, restore, |restore|) == Moved(f, e, place)
  {
    hide *;
    OrderedIs(f, e, place, ordered);
    RestoreSplit(e.stashed, ordered, Returning(f, e), restore);
    TwoMoves(f, e, place, ordered, restore);
  }

  lemma TwoMoves(f: Facts, e: Desks, place: Option<map<Window, nat>>, ordered: seq<Window>, restore: seq<Window>)
    requires CanStash(e, ordered) && restore == Keep(e.stashed, Returning(f, e)) &&
      (forall w :: w in e.stashed ==> w in e.alive)
    requires var stash := Keep(e.space, Hidden(f, e));
      ordered == if place.Some? then SortByPlace(stash, place.value) else stash
    requires Drop(e.space, Elements(ordered)) == Drop(e.space, Hidden(f, e))
    requires NoDup(e.stashed + ordered) && NoDup(restore)
    requires Drop(e.stashed + ordered, Elements(restore)) == Drop(e.stashed, Returning(f, e)) + ordered
    ensures var m := StashedUpTo(e, ordered, |ordered|);
      m.stashed == e.stashed + ordered && CanRestore(m, restore) &&
        RestoredUpTo(m, restore, |restore|) == Moved(f, e, place)
  {
    assert ordered[..|ordered|] == ordered && restore[..|restore|] == restore;
    hide SortByPlace, Hidden, Returning, Keep, Drop, NoDup, Elements;
  }

  /** Taking `restore`, the elements of `stashed` in `back`, out of `stashed + more`. */
  lemma RestoreSplit(stashed: seq<Window>, more: seq<Window>, back: set<Window>, restore: seq<Window>)
    requires NoDup(stashed) && NoDup(more) && (forall w :: w in stashed ==> w !in more)
    requires restore == Keep(stashed, back)
    ensures Keep(stashed + more, Elements(restore)) == restore
    ensures NoDup(stashed + more) && NoDup(restore)
    ensures Drop(stashed + more, Elements(restore)) == Drop(stashed, back) + more
  {
    assert forall w :: w in restore <==> w in Elements(restore);
    KeepNoDup(stashed, back);
    KeepConcat(stashed, more, Elements(restore));
    KeepNone(more, Elements(restore));
    KeepSame(stashed, Elements(restore), back);
    NoDupConcat(stashed, more);
    DropConcat(stashed, more, Elements(restore));
    DropNothing(more, Elements(restore));
    DropSame(stashed, Elements(restore), back);
  }

  ghost function Mixed(a: map<Window, string>, b: map<Window, string>, done: set<Window>): map<Window, string>
    requires a.Keys == b.Keys
  {
    map w | w in a :: if w in done then b[w] else a[w]
  }

  lemma MixedNext(a: map<Window, string>, b: map<Window, string>, done: set<Window>, w: Window)
    requires a.Keys == b.Keys && w in a && w !in done
    ensures w in Mixed(a, b, done) && Mixed(a, b, done)[w] == a[w]
    ensures Mixed(a, b, done)[w := b[w]] == Mixed(a, b, done + {w})
  {
  }

  /** The decisions made for the first `i` windows. */
  ghost predicate Decided(f: Facts, r: Desks, e: Desks, i: nat, tags: map<Window, string>, stash: seq<Window>,
      restore: seq<Window>)
    requires i <= |AllWindows(r)|
  {
    var done := AllWindows(r)[..i];
    && tags.Keys == r.tags.Keys == e.tags.Keys
    && tags == Mixed(r.tags, e.tags, Elements(done))
    && stash == Keep(done, Hidden(f, e))
    && restore == Keep(done, Returning(f, e))
  }

  lemma MovedKeepsNotes(f: Facts, d: Desks, desk: string, list: seq<string>, place: Option<map<Window, nat>>)
    ensures var m := Moved(f, Retagged(f, Readied(f, d), desk, list), place);
      m.current == desk && m.sticky == list && m.lastFocus == d.lastFocus && m.events == d.events
  {
  }

  lemma RetagIgnoresDesk(f: Facts, r: Desks, desk: string, list: seq<string>)
    ensures Retagged(f, r.(current := desk), desk, list) == Retagged(f, r, desk, list)
    ensures AllWindows(Retagged(f, r, desk, list)) == AllWindows(r)
  {
  }

  lemma SideOf(f: Facts, r: Desks, e: Desks, w: Window)
    requires e == Retagged(f, r, e.current, e.sticky) && w in AllWindows(r) && NoDup(AllWindows(r))
    ensures w in Hidden(f, e) <==> w !in r.stashed && !Shows(f, e, w) && w !in r.minimized
    ensures w in Returning(f, e) <==> w in r.stashed && Shows(f, e, w)
  {
    Places(r);
    hide Shows, NoDup;
  }

  lemma DecideNext(f: Facts, r: Desks, e: Desks, i: nat, tags: map<Window, string>, stash: seq<Window>,
      restore: seq<Window>)
    requires NoDup(AllWindows(r)) && (forall w :: w in AllWindows(r) ==> w in r.tags) && i < |AllWindows(r)|
    requires e == Retagged(f, r, e.current, e.sticky)
    requires Decided(f, r, e, i, tags, stash, restore)
    ensures var w := AllWindows(r)[i];
      && w in tags
      && var (tag, shows) := SwitchWindow(e.current, tags[w], StickyUnder(f, Managed(r), r.sticky, w),
           StickyUnder(f, Managed(r), e.sticky, w));
         Decided(f, r, e, i + 1, tags[w := tag],
                 if w !in r.stashed && !shows && w !in r.minimized then stash + [w] else stash,
                 if w in r.stashed && shows then restore + [w] else restore)
  {
    var ws := AllWindows(r);
    var w := ws[i];
    SideOf(f, r, e, w);
    assert w !in Elements(ws[..i]) by { assert w !in ws[..i]; }
    MixedNext(r.tags, e.tags, Elements(ws[..i]), w);
    ElementsSnoc(ws, i);
    hide StickyUnder, Managed, NoDup, Retagged, AllWindows, Hidden, Returning, SwitchWindow, Shows, Mixed, Keep,
      Elements;
    KeepSnoc(ws, i, Hidden(f, e));
    KeepSnoc(ws, i, Returning(f, e));
  }

  lemma DecidedAll(f: Facts, r: Desks, e: Desks, tags: map<Window, string>, stash: seq<Window>, restore: seq<Window>)
    requires NoDup(AllWindows(r)) && (forall w :: w in AllWindows(r) ==> w in r.tags)
    requires e == Retagged(f, r, e.current, e.sticky)
    requires Decided(f, r, e, |AllWindows(r)|, tags, stash, restore)
    ensures tags == e.tags && stash == Keep(e.space, Hidden(f, e)) && restore == Keep(e.stashed, Returning(f, e))
  {
    var ws := AllWindows(r);
    assert ws[..|ws|] == ws;
    assert forall w :: w in tags ==> tags[w] == e.tags[w];
    hide Shows, Retagged, Mixed, Keep;
    KeepFromSpace(r, Hidden(f, e));
    KeepFromStash(r, Returning(f, e));
  }

  /** Picking from all the windows what is in one list only. */
  lemma KeepFromSpace(r: Desks, keep: set<Window>)
    requires NoDup(AllWindows(r)) && forall w :: w in keep ==> w in r.space
    ensures Keep(AllWindows(r), keep) == Keep(r.space, keep)
  {
    Places(r);
    hide NoDup, Keep;
    KeepConcat(r.space + r.stashed, r.minimized, keep);
    KeepConcat(r.space, r.stashed, keep);
    KeepNone(r.stashed, keep);
    KeepNone(r.minimized, keep);
  }

  lemma KeepFromStash(r: Desks, keep: set<Window>)
    requires NoDup(AllWindows(r)) && forall w :: w in keep ==> w in r.stashed
    ensures Keep(AllWindows(r), keep) == Keep(r.stashed, keep)
  {
    Places(r);
    hide NoDup, Keep;
    KeepConcat(r.space + r.stashed, r.minimized, keep);
    KeepConcat(r.space, r.stashed, keep);
    KeepNone(r.space, keep);
    KeepNone(r.minimized, keep);
  }
}
