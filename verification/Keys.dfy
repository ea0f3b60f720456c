/** Which key events reach a client (mindwm/src/input_handler.rs): a press the compositor
    takes for itself, or that only wakes the screen, must not leave its release behind. */
module Keys {
  import opened Common
  import Idle

  type Key = nat

  /** What decides about a key: a layer with the keyboard to itself, or the usual way. */
  datatype Context =
    | Exclusive(reset: bool)
    | Usual(reset: bool, cycleEscape: bool, barOpen: bool, inhibited: bool, logo: bool, ctrl: bool, alt: bool,
      shortcut: bool)

  datatype Event = Event(key: Key, pressed: bool, stage: Idle.Stage, context: Context)

  /** The first event after the screen went to sleep only wakes it (`note_activity`). */
  predicate Wakes(e: Event) {
    !e.stage.Active?
  }

  /** A press that triggers something of the compositor's. */
  predicate Intercepted(c: Context) {
    match c
    case Exclusive(reset) => reset
    case Usual(reset, cycleEscape, barOpen, inhibited, logo, ctrl, alt, shortcut) =>
      || reset
      || (cycleEscape && !inhibited)
      || (barOpen && !(logo || (ctrl && alt)))
      || (!inhibited && shortcut)
  }

  function Handle(suppressed: seq<Key>, e: Event): (seq<Key>, bool) {
    if e.pressed then
      if Wakes(e) || Intercepted(e.context) then (suppressed + [e.key], false) else (suppressed, true)
    else
      (Drop(suppressed, {e.key}), !Wakes(e) && e.key !in suppressed)
  }

  class Keyboard {
    var suppressed: seq<Key>

    constructor ()
      ensures suppressed == []
    {
      suppressed := [];
    }

    /** `swallow_wake_input`: nothing is forwarded, and a release is forgotten. */
    method SwallowWake(e: Event)
      modifies this
      ensures suppressed == if e.pressed then old(suppressed) + [e.key] else Drop(old(suppressed), {e.key})
    {
      if e.pressed {
        suppressed := suppressed + [e.key];
      } else {
        suppressed := Drop(suppressed, {e.key});
      }
    }

    /** `keyboard_key_to_action`, the filter of whichever path the key takes. */
    method Filter(e: Event) returns (forwarded: bool)
      modifies this
      ensures (suppressed, forwarded) == Handle(old(suppressed), e.(stage := Idle.Active))
    {
      if !e.pressed {
        if e.key in suppressed {
          suppressed := Drop(suppressed, {e.key});
          return false;
        }
        DropNothing(suppressed, {e.key});
        return true;
      }
      match e.context {
        case Exclusive(reset) =>
          if reset {
            suppressed := suppressed + [e.key];
            return false;
          }
          return true;
        case Usual(reset, cycleEscape, barOpen, inhibited, logo, ctrl, alt, shortcut) =>
          if reset {
            suppressed := suppressed + [e.key];
            return false;
          } else if cycleEscape && !inhibited {
            suppressed := suppressed + [e.key];
            return false;
          } else if barOpen && !(logo || (ctrl && alt)) {
            suppressed := suppressed + [e.key];
            return false;
          } else if !inhibited {
            if shortcut {
              suppressed := suppressed + [e.key];
            }
            return !shortcut;
          }
          return true;
      }
    }

    method OnKey(e: Event) returns (forwarded: bool)
      modifies this
      ensures (suppressed, forwarded) == Handle(old(suppressed), e)
    {
      if e.stage != Idle.Active {
        SwallowWake(e);
        return false;
      }
      forwarded := Filter(e);
    }
  }

  // ------------------------------------------------------------------- whole runs

  /** The keys suppressed after `es`, and for each event whether it was forwarded. */
  ghost function After(es: seq<Event>): (r: (seq<Key>, seq<bool>))
    ensures |r.1| == |es|
  {
    if es == [] then ([], [])
    else
      var (sup, fwd) := After(es[..|es| - 1]);
      var (sup', f) := Handle(sup, es[|es| - 1]);
      (sup', fwd + [f])
  }

  /** `p` is the press that holds key `k` down at the end of `es`. */
  ghost predicate HeldBy(es: seq<Event>, p: nat, k: Key) {
    p < |es| && es[p].key == k && es[p].pressed && forall i :: p < i < |es| ==> es[i].key != k
  }

  ghost predicate IsDown(es: seq<Event>, k: Key) {
    exists p: nat :: HeldBy(es, p, k)
  }

  /** Keys go down, then up, then down. */
  ghost predicate WellFormed(es: seq<Event>) {
    forall i :: 0 <= i < |es| ==> (es[i].pressed <==> !IsDown(es[..i], es[i].key))
  }

  /** A key is suppressed exactly when it is down and its press was withheld. */
  ghost predicate Paired(es: seq<Event>) {
    && NoDup(After(es).0)
    && (forall k :: k in After(es).0 <==> exists p: nat :: HeldBy(es, p, k) && !After(es).1[p])
  }

  lemma {:induction false} PairedAlways(es: seq<Event>)
    requires WellFormed(es)
    ensures Paired(es)
    decreases |es|
  {
    if es != [] {
      var n := |es| - 1;
      var before, e := es[..n], es[n];
      assert forall i :: 0 <= i < n ==> before[i] == es[i] && before[..i] == es[..i];
      PairedAlways(before);
      PairedNext(es);
    }
  }

  lemma PairedNext(es: seq<Event>)
    requires es != [] && Paired(es[..|es| - 1]) && (es[|es| - 1].pressed <==> !IsDown(es[..|es| - 1], es[|es| - 1].key))
    ensures Paired(es)
  {
    var n := |es| - 1;
    var before, e := es[..n], es[n];
    var sup, sup' := After(before).0, After(es).0;
    if e.key in sup {
      var p: nat :| HeldBy(before, p, e.key) && !After(before).1[p];
      assert IsDown(before, e.key);
    }
    NoDupConcat(sup, [e.key]);
    DropNoDup(sup, {e.key});
    forall k ensures k in sup' <==> exists p: nat :: HeldBy(es, p, k) && !After(es).1[p] {
      forall p: nat ensures HeldBy(es, p, k) <==> if e.key == k then p == n && e.pressed else HeldBy(before, p, k) {
      }
      if k == e.key {
        assert HeldBy(es, n, k) <==> e.pressed;
        assert k in sup' <==> e.pressed && !After(es).1[n];
      } else {
        assert k in sup' <==> k in sup;
        assert forall p: nat :: HeldBy(before, p, k) ==> After(es).1[p] == After(before).1[p];
        if p: nat :| HeldBy(before, p, k) && !After(before).1[p] { assert HeldBy(es, p, k) && !After(es).1[p]; }
      }
    }
  }

  lemma {:induction false} AfterPrefix(es: seq<Event>, i: nat)
    requires i < |es|
    ensures After(es).1[i] == Handle(After(es[..i]).0, es[i]).1
    decreases |es|
  {
    var n := |es| - 1;
    if i < n {
      AfterPrefix(es[..n], i);
      assert es[..n][..i] == es[..i];
    }
  }

  lemma PrefixWellFormed(es: seq<Event>, i: nat)
    requires WellFormed(es) && i <= |es|
    ensures WellFormed(es[..i])
  {
    assert forall j :: 0 <= j < i ==> es[..i][j] == es[j] && es[..i][..j] == es[..j];
  }

  /** Key pairing: `i` releases what `p` pressed. The release is forwarded only if the press
      was; and if the press was, the release is kept back only by having woken the screen. */
  lemma KeyPairing(es: seq<Event>, p: nat, i: nat)
    requires WellFormed(es) && p < i < |es| && !es[i].pressed && HeldBy(es[..i], p, es[i].key)
    ensures After(es).1[i] <==> After(es).1[p] && !Wakes(es[i])
  {
    PrefixWellFormed(es, i);
    PairedAlways(es[..i]);
    AfterPrefix(es, i);
    AfterPrefix(es, p);
    AfterPrefix(es[..i], p);
    assert es[..i][..p] == es[..p];
    assert forall q: nat :: HeldBy(es[..i], q, es[i].key) ==> q == p;
  }

  /** With every key up again, nothing is left suppressed. */
  lemma NothingLeft(es: seq<Event>)
    requires WellFormed(es) && forall k :: !IsDown(es, k)
    ensures After(es).0 == []
  {
    var left := After(es).0;
    assert left != [] ==> left[0] in left;
    PairedAlways(es);
    assert forall k: Key :: k in left ==> IsDown(es, k);
  }

  /** Which presses the compositor keeps. On a lit screen: with a layer that has the keyboard to
      itself, only the key that resets the displays; otherwise that one always, Escape while
      windows are cycled and every shortcut unless the client asked for them itself, and, while
      the bar is open, everything but the chords that start with the logo key or Ctrl and Alt. */
  lemma PressWithheldIff(suppressed: seq<Key>, e: Event)
    requires e.pressed && e.stage.Active?
    ensures e.context.Exclusive? ==> (!Handle(suppressed, e).1 <==> e.context.reset)
    ensures e.context.Usual? ==>
      var c := e.context;
      && (c.reset ==> !Handle(suppressed, e).1)
      && (c.barOpen && !c.logo && !(c.ctrl && c.alt) ==> !Handle(suppressed, e).1)
      && (!c.inhibited && (c.cycleEscape || c.shortcut) ==> !Handle(suppressed, e).1)
      && (!c.reset && (!c.barOpen || c.logo || (c.ctrl && c.alt)) && (c.inhibited || !(c.cycleEscape || c.shortcut)) ==>
            Handle(suppressed, e).1)
  {
  }

  /** On a sleeping screen no key gets through, pressed or released. */
  lemma WakingIsKept(suppressed: seq<Key>, e: Event)
    requires !e.stage.Active?
    ensures !Handle(suppressed, e).1
    ensures e.pressed ==> e.key in Handle(suppressed, e).0
    ensures !e.pressed ==> e.key !in Handle(suppressed, e).0
  {
  }
}
