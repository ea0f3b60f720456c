/** Desktop layouts saved by older shells, brought up to date and made safe to build windows
    from (mindshell/src/layout.rs). */
module Migration {
  import opened Common
  import opened LayoutIds

  /** A JSON value, as far as a layout looks into one. */
  datatype Value = Str(text: string) | Arr(items: seq<Value>) | Obj(fields: map<string, Value>) | Other(code: int)

  datatype Widget = Widget(id: string, kind: string, config: Value, extra: Value)

  datatype Panel = Panel(
    id: string, output: string, edge: string, size: int, length: int, align: string, margin: int, layer: string,
    opacity: real, autohide: bool, widgets: seq<Widget>, extra: Value)

  datatype Layout = Layout(version: nat, panels: seq<Panel>, wallpaper: Value, desktop: seq<Widget>, extra: Value)

  // -------------------------------------------------------------------- migrations

  function NewWidget(id: string, kind: string): Widget {
    Widget(id, kind, Obj(map[]), Obj(map[]))
  }

  /** The first widget of a kind. */
  function Position(ws: seq<Widget>, kind: string): (r: Option<nat>)
    ensures r.Some? ==> r.value < |ws| && ws[r.value].kind == kind
    ensures r.Some? <==> exists w :: w in ws && w.kind == kind
  {
    if ws == [] then None
    else if ws[0].kind == kind then Some(0)
    else
      var rest := Position(ws[1..], kind);
      if rest.Some? then Some(rest.value + 1) else None
  }

  predicate Has(ws: seq<Widget>, kind: string) {
    Position(ws, kind).Some?
  }

  function Insert(ws: seq<Widget>, at: nat, w: Widget): seq<Widget>
    requires at <= |ws|
  {
    ws[..at] + [w] + ws[at..]
  }

  function AddV2(ws: seq<Widget>): seq<Widget> {
    var mind := Position(ws, "mind");
    if mind.None? then ws
    else
      var bell := if Has(ws, "notifications") then ws
        else Insert(ws, mind.value + 1, NewWidget("notify", "notifications"));
      if Has(ws, "perf") then bell else Insert(bell, mind.value, NewWidget("perf", "perf"))
  }

  function AddV3(ws: seq<Widget>): seq<Widget> {
    if Has(ws, "updates") then ws
    else
      var bell, mind := Position(ws, "notifications"), Position(ws, "mind");
      if bell.Some? then Insert(ws, bell.value, NewWidget("updates", "updates"))
      else if mind.Some? then Insert(ws, mind.value + 1, NewWidget("updates", "updates"))
      else ws
  }

  /** The widgets whose kind is (or is not) among `kinds`. */
  function OfKinds(ws: seq<Widget>, kinds: set<string>, want: bool): (r: seq<Widget>)
    ensures forall w :: w in r <==> w in ws && (w.kind in kinds) == want
  {
    if ws == [] then []
    else if (ws[0].kind in kinds) == want then [ws[0]] + OfKinds(ws[1..], kinds, want)
    else OfKinds(ws[1..], kinds, want)
  }

  const NETWORK_KINDS: set<string> := {"network", "vpn"}

  function DropV4(ws: seq<Widget>): seq<Widget> {
    if Has(ws, "tray") then OfKinds(ws, NETWORK_KINDS, false) else ws
  }

  predicate AnyHas(panels: seq<Panel>, kind: string) {
    exists p :: p in panels && Has(p.widgets, kind)
  }

  function AddV5(panels: seq<Panel>): seq<Panel> {
    if panels == [] || AnyHas(panels, "desktop-view") then panels
    else panels[0 := panels[0].(widgets := Insert(panels[0].widgets, 0, NewWidget("view", "desktop-view")))]
  }

  /** What becomes of one panel's widgets before version 5. */
  function Upgraded(version: nat, ws: seq<Widget>): seq<Widget> {
    if version < 4 then DropV4(Added(version, ws)) else Added(version, ws)
  }

  function Added(version: nat, ws: seq<Widget>): seq<Widget> {
    var two := if version < 2 then AddV2(ws) else ws;
    if version < 3 then AddV3(two) else two
  }

  function Migrate(l: Layout): Layout {
    var panels := seq(|l.panels|,
      i requires 0 <= i < |l.panels| => l.panels[i].(widgets := Upgraded(l.version, l.panels[i].widgets)));
    if l.version < 5 then l.(version := 5, panels := AddV5(panels)) else l.(panels := panels)
  }

  // --------------------------------------------------------- what a migration may change

  const NEW_KINDS: set<string> := {"perf", "notifications", "updates", "desktop-view"}

  function Count(ws: seq<Widget>, kind: string): nat {
    if ws == [] then 0 else (if ws[0].kind == kind then 1 else 0) + Count(ws[1..], kind)
  }

  lemma {:induction false} CountConcat(a: seq<Widget>, b: seq<Widget>, kind: string)
    ensures Count(a + b, kind) == Count(a, kind) + Count(b, kind)
  {
    if a == [] {
      assert a + b == b;
    } else {
      assert (a + b)[1..] == a[1..] + b;
      CountConcat(a[1..], b, kind);
    }
  }

  lemma {:induction false} OfKindsConcat(a: seq<Widget>, b: seq<Widget>, kinds: set<string>, want: bool)
    ensures OfKinds(a + b, kinds, want) == OfKinds(a, kinds, want) + OfKinds(b, kinds, want)
  {
    if a == [] {
      assert a + b == b;
    } else {
      assert (a + b)[1..] == a[1..] + b;
      OfKindsConcat(a[1..], b, kinds, want);
    }
  }

  lemma {:induction false} HasIffCount(ws: seq<Widget>, kind: string)
    ensures Has(ws, kind) <==> Count(ws, kind) > 0
  {
    if ws != [] { HasIffCount(ws[1..], kind); }
  }

  /** `after` is `before` with at most one widget put in of each kind in `missing`, and of
      these only kinds it did not have. */
  ghost predicate Adds(missing: set<string>, before: seq<Widget>, after: seq<Widget>) {
    && OfKinds(after, missing, false) == OfKinds(before, missing, false)
    && forall kind :: Count(after, kind) == Count(before, kind) ||
         (kind in missing && Count(before, kind) == 0 && Count(after, kind) == 1)
  }

  lemma AddsTrans(missing: set<string>, a: seq<Widget>, b: seq<Widget>, c: seq<Widget>)
    requires Adds(missing, a, b) && Adds(missing, b, c)
    ensures Adds(missing, a, c)
  {
  }

  lemma InsertCounts(ws: seq<Widget>, at: nat, w: Widget, kind: string)
    requires at <= |ws|
    ensures Count(Insert(ws, at, w), kind) == Count(ws, kind) + if w.kind == kind then 1 else 0
  {
    assert ws == ws[..at] + ws[at..];
    CountConcat(ws[..at], ws[at..], kind);
    CountConcat(ws[..at], [w], kind);
    CountConcat(ws[..at] + [w], ws[at..], kind);
    assert [w][1..] == [];
  }

  lemma InsertAdds(missing: set<string>, ws: seq<Widget>, at: nat, w: Widget)
    requires at <= |ws| && w.kind in missing && !Has(ws, w.kind)
    ensures Adds(missing, ws, Insert(ws, at, w))
  {
    HasIffCount(ws, w.kind);
    InsertOfKinds(missing, ws, at, w);
    hide Insert, OfKinds, Has, Count;
    forall kind ensures Count(Insert(ws, at, w), kind) == Count(ws, kind) + if w.kind == kind then 1 else 0 {
      InsertCounts(ws, at, w, kind);
    }
  }

  lemma InsertOfKinds(missing: set<string>, ws: seq<Widget>, at: nat, w: Widget)
    requires at <= |ws| && w.kind in missing
    ensures OfKinds(Insert(ws, at, w), missing, false) == OfKinds(ws, missing, false)
  {
    assert OfKinds([w], missing, false) == [];
    hide OfKinds;
    var a, b := ws[..at], ws[at..];
    assert ws == a + b;
    OfKindsConcat(a, b, missing, false);
    OfKindsConcat(a, [w], missing, false);
    OfKindsConcat(a + [w], b, missing, false);
  }

  /** A kind that is not there stays out until it is put in. */
  lemma InsertHas(ws: seq<Widget>, at: nat, w: Widget, kind: string)
    requires at <= |ws|
    ensures Has(Insert(ws, at, w), kind) <==> Has(ws, kind) || w.kind == kind
  {
  }

  lemma AddsNothing(missing: set<string>, ws: seq<Widget>)
    ensures Adds(missing, ws, ws)
  {
  }

  lemma AddsHas(missing: set<string>, a: seq<Widget>, b: seq<Widget>, kind: string)
    requires Adds(missing, a, b)
    ensures Has(a, kind) ==> Has(b, kind)
    ensures kind !in missing ==> (Has(b, kind) <==> Has(a, kind))
  {
    HasIffCount(a, kind);
    HasIffCount(b, kind);
  }

  lemma AddV2Adds(missing: set<string>, ws: seq<Widget>)
    requires !Has(ws, "perf") ==> "perf" in missing
    requires !Has(ws, "notifications") ==> "notifications" in missing
    ensures Adds(missing, ws, AddV2(ws))
    ensures Has(ws, "mind") ==> Has(AddV2(ws), "perf") && Has(AddV2(ws), "notifications")
  {
    hide Adds, Position, Insert;
    var mind := Position(ws, "mind");
    AddsNothing(missing, ws);
    if mind.Some? {
      var bell := ws;
      if !Has(ws, "notifications") {
        var w := NewWidget("notify", "notifications");
        bell := Insert(ws, mind.value + 1, w);
        InsertAdds(missing, ws, mind.value + 1, w);
        InsertHas(ws, mind.value + 1, w, "perf");
        InsertHas(ws, mind.value + 1, w, "notifications");
        assert mind.value <= |bell| by { InsertLength(ws, mind.value + 1, w); }
      }
      if !Has(ws, "perf") {
        var w := NewWidget("perf", "perf");
        InsertAdds(missing, bell, mind.value, w);
        InsertHas(bell, mind.value, w, "perf");
        InsertHas(bell, mind.value, w, "notifications");
        AddsTrans(missing, ws, bell, Insert(bell, mind.value, w));
      }
    }
  }

  lemma InsertLength(ws: seq<Widget>, at: nat, w: Widget)
    requires at <= |ws|
    ensures |Insert(ws, at, w)| == |ws| + 1
  {
  }

  lemma AddV3Adds(missing: set<string>, ws: seq<Widget>)
    requires !Has(ws, "updates") ==> "updates" in missing
    ensures Adds(missing, ws, AddV3(ws))
    ensures Has(ws, "mind") || Has(ws, "notifications") ==> Has(AddV3(ws), "updates")
  {
    hide Adds, Position, Insert;
    AddsNothing(missing, ws);
    if !Has(ws, "updates") {
      var w := NewWidget("updates", "updates");
      var bell, mind := Position(ws, "notifications"), Position(ws, "mind");
      if bell.Some? {
        InsertAdds(missing, ws, bell.value, w);
        InsertHas(ws, bell.value, w, "updates");
      } else if mind.Some? {
        InsertAdds(missing, ws, mind.value + 1, w);
        InsertHas(ws, mind.value + 1, w, "updates");
      }
    }
  }

  /** The kinds this panel could be given. */
  function FreshFor(ws: seq<Widget>): set<string> {
    set kind | kind in NEW_KINDS && !Has(ws, kind)
  }

  /** The kinds this panel loses. */
  function Lost(version: nat, ws: seq<Widget>): set<string> {
    if version < 4 && Has(ws, "tray") then NETWORK_KINDS else {}
  }

  lemma {:induction false} OfKindsSwap(ws: seq<Widget>, a: set<string>, b: set<string>)
    ensures OfKinds(OfKinds(ws, a, false), b, false) == OfKinds(OfKinds(ws, b, false), a, false)
  {
    if ws != [] {
      OfKindsSwap(ws[1..], a, b);
      var w, rest := [ws[0]], ws[1..];
      assert OfKinds(w, a, false) + OfKinds(rest, a, false) == OfKinds(ws, a, false)
        by { assert w + rest == ws; OfKindsConcat(w, rest, a, false); }
      assert OfKinds(w, b, false) + OfKinds(rest, b, false) == OfKinds(ws, b, false)
        by { assert w + rest == ws; OfKindsConcat(w, rest, b, false); }
      OfKindsConcat(OfKinds(w, a, false), OfKinds(rest, a, false), b, false);
      OfKindsConcat(OfKinds(w, b, false), OfKinds(rest, b, false), a, false);
    }
  }

  lemma {:induction false} OfKindsNone(ws: seq<Widget>)
    ensures OfKinds(ws, {}, false) == ws
  {
    if ws != [] { OfKindsNone(ws[1..]); }
  }

  lemma {:induction false} OfKindsCount(ws: seq<Widget>, kinds: set<string>, kind: string)
    ensures Count(OfKinds(ws, kinds, false), kind) == if kind in kinds then 0 else Count(ws, kind)
  {
    if ws != [] {
      OfKindsCount(ws[1..], kinds, kind);
      var r := OfKinds(ws, kinds, false);
      assert ws[0].kind !in kinds ==> r[1..] == OfKinds(ws[1..], kinds, false);
    }
  }

  /** What `after` may be for a panel that had `ws`: its own widgets in their order, without
      the kinds lost, and beside them at most one widget of each kind it did not have. */
  ghost predicate Faithful(lost: set<string>, ws: seq<Widget>, after: seq<Widget>) {
    && OfKinds(after, FreshFor(ws), false) == OfKinds(ws, lost, false)
    && forall kind :: Count(after, kind) ==
         (if kind in lost then 0 else Count(ws, kind)) + if kind in FreshFor(ws) && Has(after, kind) then 1 else 0
  }

  lemma {:induction false} OfKindsOwn(ws: seq<Widget>, own: seq<Widget>)
    requires forall w :: w in ws ==> w in own
    ensures OfKinds(ws, FreshFor(own), false) == ws
  {
    if ws != [] {
      assert ws[0] in own && Has(own, ws[0].kind);
      OfKindsOwn(ws[1..], own);
    }
  }

  lemma AddsFaithful(lost: set<string>, ws: seq<Widget>, added: seq<Widget>)
    requires Adds(FreshFor(ws), ws, added) && lost !! NEW_KINDS
    ensures Faithful(lost, ws, OfKinds(added, lost, false))
  {
    var missing := FreshFor(ws);
    var after := OfKinds(added, lost, false);
    OfKindsOwn(ws, ws);
    OfKindsSwap(added, lost, missing);
    forall kind
      ensures Count(after, kind) == (if kind in lost then 0 else Count(ws, kind)) +
        if kind in missing && Has(after, kind) then 1 else 0
    {
      OfKindsCount(added, lost, kind);
      HasIffCount(ws, kind);
      HasIffCount(after, kind);
    }
  }

  lemma AddedAdds(version: nat, ws: seq<Widget>)
    ensures Adds(FreshFor(ws), ws, Added(version, ws))
    ensures version < 2 && Has(ws, "mind") ==>
      Has(Added(version, ws), "perf") && Has(Added(version, ws), "notifications") && Has(Added(version, ws), "updates")
  {
    var missing := FreshFor(ws);
    var two := if version < 2 then AddV2(ws) else ws;
    assert forall kind :: kind in NEW_KINDS && !Has(ws, kind) ==> kind in missing;
    hide Adds, Has, AddV2, AddV3, FreshFor;
    AddsNothing(missing, ws);
    AddsNothing(missing, two);
    AddV2Adds(missing, ws);
    AddsHas(missing, ws, two, "updates");
    AddsHas(missing, ws, two, "mind");
    AddV3Adds(missing, two);
    AddsTrans(missing, ws, two, Added(version, ws));
    AddsHas(missing, two, Added(version, ws), "perf");
    AddsHas(missing, two, Added(version, ws), "notifications");
  }

  lemma UpgradedDrops(version: nat, ws: seq<Widget>)
    ensures Upgraded(version, ws) == OfKinds(Added(version, ws), Lost(version, ws), false)
  {
    hide Adds, Has, Added, FreshFor;
    AddedAdds(version, ws);
    assert "tray" !in FreshFor(ws) by { FreshAreNew(ws); }
    AddsHas(FreshFor(ws), ws, Added(version, ws), "tray");
    OfKindsNone(Added(version, ws));
  }

  lemma FreshAreNew(ws: seq<Widget>)
    ensures FreshFor(ws) <= NEW_KINDS
  {
  }

  lemma UpgradedFaithful(version: nat, ws: seq<Widget>)
    ensures Faithful(Lost(version, ws), ws, Upgraded(version, ws))
    ensures version < 2 && Has(ws, "mind") ==>
      Has(Upgraded(version, ws), "perf") && Has(Upgraded(version, ws), "notifications") &&
        Has(Upgraded(version, ws), "updates")
  {
    hide Adds, Faithful, FreshFor, Added, Upgraded, Has, OfKinds;
    AddedAdds(version, ws);
    UpgradedDrops(version, ws);
    var three := Added(version, ws);
    AddsFaithful(Lost(version, ws), ws, three);
    StillHas(three, Lost(version, ws), "perf");
    StillHas(three, Lost(version, ws), "notifications");
    StillHas(three, Lost(version, ws), "updates");
  }

  lemma StillHas(ws: seq<Widget>, kinds: set<string>, kind: string)
    requires kind !in kinds
    ensures Has(OfKinds(ws, kinds, false), kind) <==> Has(ws, kind)
  {
  }

  /** A kind that is not there yet can still be put in. */
  lemma InsertFaithful(lost: set<string>, ws: seq<Widget>, after: seq<Widget>, w: Widget)
    requires Faithful(lost, ws, after) && w.kind in FreshFor(ws) && w.kind !in lost && !Has(after, w.kind)
    ensures Faithful(lost, ws, Insert(after, 0, w))
  {
  }

  /** Whatever the version a layout comes from, every panel keeps its own widgets in order (but
      for network and vpn beside a tray), is given no kind it had, and gets each new one once;
      a panel from before version 2 with a Mind widget has the three that belong beside it. */
  lemma MigrateFaithful(l: Layout, i: nat)
    requires i < |l.panels|
    ensures |Migrate(l).panels| == |l.panels| && Migrate(l).desktop == l.desktop
    ensures Migrate(l).panels[i].(widgets := l.panels[i].widgets) == l.panels[i]
    ensures var (before, after) := (l.panels[i].widgets, Migrate(l).panels[i].widgets);
      && Faithful(Lost(l.version, before), before, after)
      && (l.version < 2 && Has(before, "mind") ==>
           Has(after, "perf") && Has(after, "notifications") && Has(after, "updates"))
  {
    hide Faithful, Upgraded, Lost, Insert, Migrate, FreshFor, Has;
    var before := l.panels[i].widgets;
    var after := Upgraded(l.version, before);
    UpgradedFaithful(l.version, before);
    MigrateAt(l, i);
    if i == 0 && l.version < 5 && !Has(after, "desktop-view") {
      var w := NewWidget("view", "desktop-view");
      KeptKind(l.version, before, "desktop-view");
      LostAreOld(l.version, before);
      InsertFaithful(Lost(l.version, before), before, after, w);
      InsertHas(after, 0, w, "perf");
      InsertHas(after, 0, w, "notifications");
      InsertHas(after, 0, w, "updates");
    }
  }

  lemma LostAreOld(version: nat, ws: seq<Widget>)
    ensures Lost(version, ws) !! NEW_KINDS
  {
  }

  /** Only the first panel gets more than its own upgrade, and only the view indicator. */
  lemma MigrateAt(l: Layout, i: nat)
    requires i < |l.panels|
    ensures |Migrate(l).panels| == |l.panels| && Migrate(l).desktop == l.desktop
    ensures var (p, q, ws) := (l.panels[i], Migrate(l).panels[i], Upgraded(l.version, l.panels[i].widgets));
      || q == p.(widgets := ws)
      || (&& i == 0 && l.version < 5 && !Has(ws, "desktop-view")
          && q == p.(widgets := Insert(ws, 0, NewWidget("view", "desktop-view"))))
  {
  }

  lemma KeptKind(version: nat, ws: seq<Widget>, kind: string)
    requires kind in NEW_KINDS && !Has(Upgraded(version, ws), kind)
    ensures kind in FreshFor(ws)
  {
    hide Upgraded, OfKinds, Lost, Has, Count;
    LostAreOld(version, ws);
    UpgradedFaithful(version, ws);
    HasIffCount(ws, kind);
    HasIffCount(Upgraded(version, ws), kind);
  }

  /** After a migration some panel has the view indicator. */
  lemma ViewIndicator(l: Layout)
    requires l.panels != [] && l.version < 5
    ensures AnyHas(Migrate(l).panels, "desktop-view")
  {
    hide Upgraded;
    var panels := seq(|l.panels|,
      i requires 0 <= i < |l.panels| => l.panels[i].(widgets := Upgraded(l.version, l.panels[i].widgets)));
    if !AnyHas(panels, "desktop-view") {
      InsertHas(panels[0].widgets, 0, NewWidget("view", "desktop-view"), "desktop-view");
      assert AddV5(panels)[0] in AddV5(panels);
    }
  }

  // ------------------------------------------------------------------------- repair

  const OLD_FILES := "mindos-files.desktop"
  const NEW_FILES := "org.gnome.Nautilus.desktop"

  function RenamedPin(pin: Value): Value {
    if pin == Str(OLD_FILES) then Str(NEW_FILES) else pin
  }

  function RenamedPins(config: Value): Value {
    if config.Obj? && "pins" in config.fields && config.fields["pins"].Arr? then
      var pins := config.fields["pins"].items;
      Obj(config.fields["pins" := Arr(seq(|pins|, i requires 0 <= i < |pins| => RenamedPin(pins[i])))])
    else config
  }

  /** A widget in a panel (`bar`) or on the desktop, with the id it is to have. */
  function RepairWidget(w: Widget, id: string, bar: bool): Widget {
    var kind := if w.kind == "" then "unknown" else w.kind;
    var config := if w.config.Obj? then w.config else Obj(map[]);
    Widget(id, kind, if bar && kind == "taskbar" then RenamedPins(config) else config, w.extra)
  }

  function WidgetIds(ws: seq<Widget>): (ids: seq<string>)
    ensures |ids| == |ws|
  {
    seq(|ws|, i requires 0 <= i < |ws| => ws[i].id)
  }

  function PanelIds(ps: seq<Panel>): (ids: seq<string>)
    ensures |ids| == |ps|
  {
    seq(|ps|, i requires 0 <= i < |ps| => ps[i].id)
  }

  function RepairWidgets(owner: string, ws: seq<Widget>, bar: bool): (r: seq<Widget>)
    ensures |r| == |ws|
  {
    var ids := Fix(Indexed(owner), WidgetIds(ws)).0;
    seq(|ws|, i requires 0 <= i < |ws| => RepairWidget(ws[i], ids[i], bar))
  }

  function Clamp(x: int, lo: int, hi: int): int {
    if x < lo then lo else if x > hi then hi else x
  }

  function RepairPanel(p: Panel, id: string): Panel {
    p.(id := id,
       edge := if p.edge in {"top", "bottom", "left", "right"} then p.edge else "bottom",
       size := Clamp(p.size, 16, 400),
       length := if p.length <= 0 then 0 else Clamp(p.length, 10, 100),
       margin := Clamp(p.margin, 0, 200),
       align := if p.align in {"start", "center", "end"} then p.align else "center",
       layer := if p.layer in {"top", "bottom"} then p.layer else "top",
       opacity := if 0.0 <= p.opacity <= 1.0 then p.opacity else 0.92,
       output := if p.output == "" then "*" else p.output,
       widgets := RepairWidgets(id, p.widgets, true))
  }

  function RepairPanels(ps: seq<Panel>): (r: seq<Panel>)
    ensures |r| == |ps|
  {
    var ids := Fix(Counted, PanelIds(ps)).0;
    seq(|ps|, i requires 0 <= i < |ps| => RepairPanel(ps[i], ids[i]))
  }

  /** `sanitized`. */
  function Sanitize(l: Layout): Layout {
    var l := Migrate(l);
    l.(panels := RepairPanels(l.panels), desktop := RepairWidgets("desktop", l.desktop, false))
  }

  // ------------------------------------------------------------- sanitizing twice

  lemma RenamedTwice(config: Value)
    ensures RenamedPins(RenamedPins(config)) == RenamedPins(config)
  {
    if config.Obj? && "pins" in config.fields && config.fields["pins"].Arr? {
      var pins := config.fields["pins"].items;
      var once := RenamedPins(config).fields["pins"].items;
      assert forall i :: 0 <= i < |pins| ==> RenamedPin(once[i]) == once[i];
      assert seq(|once|, i requires 0 <= i < |once| => RenamedPin(once[i])) == once;
    }
  }

  lemma WidgetTwice(w: Widget, id: string, bar: bool)
    ensures RepairWidget(RepairWidget(w, id, bar), id, bar) == RepairWidget(w, id, bar)
  {
    var config := if w.config.Obj? then w.config else Obj(map[]);
    RenamedTwice(config);
    assert RenamedPins(config).Obj?;
    hide RenamedPins;
  }

  lemma RepairedIds(owner: string, ws: seq<Widget>, bar: bool)
    ensures WidgetIds(RepairWidgets(owner, ws, bar)) == Fix(Indexed(owner), WidgetIds(ws)).0
  {
  }

  /** Widgets are settled after one pass. */
  lemma WidgetsTwice(owner: string, ws: seq<Widget>, bar: bool)
    ensures RepairWidgets(owner, RepairWidgets(owner, ws, bar), bar) == RepairWidgets(owner, ws, bar)
  {
    var ids := Fix(Indexed(owner), WidgetIds(ws)).0;
    var once := RepairWidgets(owner, ws, bar);
    RepairedIds(owner, ws, bar);
    IndexedStable(owner, WidgetIds(ws));
    forall i | 0 <= i < |ws| ensures RepairWidget(once[i], ids[i], bar) == once[i] {
      WidgetTwice(ws[i], ids[i], bar);
    }
    hide Fix, RepairWidget;
  }

  lemma PanelTwice(p: Panel, id: string)
    ensures RepairPanel(RepairPanel(p, id), id) == RepairPanel(p, id)
  {
    WidgetsTwice(id, p.widgets, true);
    hide RepairWidgets;
  }

  lemma RepairedPanelIds(ps: seq<Panel>)
    ensures PanelIds(RepairPanels(ps)) == Fix(Counted, PanelIds(ps)).0
  {
  }

  /** The panels are settled after one pass exactly when their ids are. */
  lemma PanelsTwice(ps: seq<Panel>)
    ensures RepairPanels(RepairPanels(ps)) == RepairPanels(ps) <==>
      Fix(Counted, PanelIds(RepairPanels(ps))).0 == PanelIds(RepairPanels(ps))
  {
    hide Fix;
    var ids := Fix(Counted, PanelIds(ps)).0;
    var once := RepairPanels(ps);
    RepairedPanelIds(ps);
    RepairedPanelIds(once);
    if Fix(Counted, PanelIds(once)).0 == PanelIds(once) {
      forall i | 0 <= i < |ps| ensures RepairPanel(once[i], ids[i]) == once[i] { PanelTwice(ps[i], ids[i]); }
      hide RepairPanel;
      assert RepairPanels(once) == once;
    }
  }

  /** A sanitized layout is left alone exactly when its panel ids are. */
  lemma SettledByIds(l: Layout)
    ensures Sanitize(Sanitize(l)) == Sanitize(l) <==>
      Fix(Counted, PanelIds(Sanitize(l).panels)).0 == PanelIds(Sanitize(l).panels)
  {
    var m := Migrate(l);
    assert m.version >= 5;
    hide Migrate, RepairPanels, RepairWidgets, Fix, PanelIds;
    var once := Sanitize(l);
    assert Migrate(once) == once;
    WidgetsTwice("desktop", m.desktop, false);
    PanelsTwice(m.panels);
  }

  /** Sanitizing twice is sanitizing once exactly when, among the panel ids the layout came with,
      every id that is replaced before a clash clashes as well. */
  lemma SanitizeTwice(l: Layout)
    ensures Sanitize(Sanitize(l)) == Sanitize(l) <==> ClashesFirst(PanelIds(l.panels), |l.panels|)
  {
    hide Migrate, RepairPanels, PanelIds, Fix, ClashesFirst;
    SettledByIds(l);
    MigrateKeepsIds(l);
    RepairedPanelIds(Migrate(l).panels);
    CountedStableIff(PanelIds(l.panels));
  }

  /** So it is a fixed point whenever its panel ids are distinct. */
  lemma DistinctIsFixedPoint(l: Layout)
    requires NoDup(PanelIds(Sanitize(l).panels))
    ensures Sanitize(Sanitize(l)) == Sanitize(l)
  {
    hide Migrate, RepairPanels, PanelIds, Fix;
    SettledByIds(l);
    var panels := Migrate(l).panels;
    RepairedPanelIds(panels);
    FixNonEmpty(Counted, PanelIds(panels));
    DistinctStay(Counted, PanelIds(Sanitize(l).panels));
  }

  lemma MigrateKeepsIds(l: Layout)
    ensures PanelIds(Migrate(l).panels) == PanelIds(l.panels)
  {
  }

  /** Three panels of which one is called like a generated id and two have none: the second
      pass renames a panel again. */
  lemma NotAlwaysFixedPoint(l: Layout)
    requires PanelIds(l.panels) == ["panel-2", "", ""]
    ensures Sanitize(Sanitize(l)) != Sanitize(l)
  {
    hide Migrate, RepairPanels, PanelIds, Fix;
    MigrateKeepsIds(l);
    RepairedPanelIds(Migrate(l).panels);
    CountedUnstable();
    SettledByIds(l);
    assert "panel-1" != "panel-2";
  }

  // ------------------------------------------------------------------- distinct ids

  /** The id has the form of a generated widget id. */
  ghost predicate WidgetForm(id: string) {
    exists owner: string, i: nat :: id == Name(Indexed(owner), i, 0)
  }

  ghost predicate NoneGenerated(ws: seq<Widget>) {
    forall w :: w in ws ==> !WidgetForm(w.id)
  }

  const NEW_IDS: set<string> := {"notify", "perf", "updates", "view"}

  /** Only new widgets come in. */
  lemma UpgradedMembers(version: nat, ws: seq<Widget>, w: Widget)
    requires w in Upgraded(version, ws)
    ensures w in ws || w.id in NEW_IDS
  {
    hide AddV2, AddV3, Has;
    var two := if version < 2 then AddV2(ws) else ws;
    if w in AddV3(two) { AddV3Members(two, w); }
    if w in AddV2(ws) { AddV2Members(ws, w); }
  }

  lemma AddV2Members(ws: seq<Widget>, w: Widget)
    requires w in AddV2(ws)
    ensures w in ws || w.id in NEW_IDS
  {
    hide Position;
  }

  lemma AddV3Members(ws: seq<Widget>, w: Widget)
    requires w in AddV3(ws)
    ensures w in ws || w.id in NEW_IDS
  {
  }

  lemma NewIdsAreNot(id: string)
    requires id in NEW_IDS
    ensures !WidgetForm(id)
  {
    assert '-' !in id;
    forall owner: string, i: nat ensures id != Name(Indexed(owner), i, 0) {
      assert Name(Indexed(owner), i, 0)[|owner|] == '-';
    }
  }

  lemma MigratedNotGenerated(l: Layout, i: nat)
    requires i < |l.panels| && NoneGenerated(l.panels[i].widgets)
    ensures i < |Migrate(l).panels| && NoneGenerated(Migrate(l).panels[i].widgets)
  {
    hide Migrate, Upgraded, Has, WidgetForm;
    MigrateAt(l, i);
    var ws := Upgraded(l.version, l.panels[i].widgets);
    forall w | w in Migrate(l).panels[i].widgets ensures !WidgetForm(w.id) {
      if w in ws { UpgradedMembers(l.version, l.panels[i].widgets, w); }
      if w.id in NEW_IDS { NewIdsAreNot(w.id); }
    }
  }

  lemma NoneGeneratedDistinct(owner: string, ws: seq<Widget>, bar: bool)
    requires NoneGenerated(ws)
    ensures NoDup(WidgetIds(RepairWidgets(owner, ws, bar)))
  {
    RepairedIds(owner, ws, bar);
    var ids := WidgetIds(ws);
    forall j | 0 <= j < |ids| ensures forall i: nat, n: nat :: ids[j] != Name(Indexed(owner), i, n) {
      assert ws[j] in ws;
      forall i: nat, n: nat ensures ids[j] != Name(Indexed(owner), i, n) {
        assert Name(Indexed(owner), i, n) == Name(Indexed(owner), i, 0);
      }
    }
    UngeneratedDistinct(Indexed(owner), ids);
  }

  /** No id in the layout has a generated form. */
  ghost predicate Plain(l: Layout) {
    && Ungenerated(Counted, PanelIds(l.panels))
    && (forall i :: 0 <= i < |l.panels| ==> NoneGenerated(l.panels[i].widgets))
    && NoneGenerated(l.desktop)
  }

  lemma MigrateDesktop(l: Layout)
    ensures Migrate(l).desktop == l.desktop && |Migrate(l).panels| == |l.panels|
  {
  }

  /** Then everything gets an id of its own, and a second pass changes nothing. */
  lemma PlainDistinct(l: Layout)
    requires Plain(l)
    ensures NoDup(PanelIds(Sanitize(l).panels)) && NoDup(WidgetIds(Sanitize(l).desktop))
    ensures forall i :: 0 <= i < |Sanitize(l).panels| ==> NoDup(WidgetIds(Sanitize(l).panels[i].widgets))
    ensures Sanitize(Sanitize(l)) == Sanitize(l)
  {
    hide Migrate, PanelIds, Fix, WidgetIds, NoneGenerated, Ungenerated, NoDup, RepairWidgets;
    MigrateKeepsIds(l);
    MigrateDesktop(l);
    var panels := Migrate(l).panels;
    RepairedPanelIds(panels);
    UngeneratedDistinct(Counted, PanelIds(panels));
    NoneGeneratedDistinct("desktop", l.desktop, false);
    forall i | 0 <= i < |panels| ensures NoDup(WidgetIds(Sanitize(l).panels[i].widgets)) {
      MigratedNotGenerated(l, i);
      NoneGeneratedDistinct(Fix(Counted, PanelIds(panels)).0[i], panels[i].widgets, true);
    }
    DistinctIsFixedPoint(l);
  }

  // --------------------------------------------------------- what windows are built from

  ghost predicate Buildable(p: Panel) {
    && p.id != "" && p.output != ""
    && p.edge in {"top", "bottom", "left", "right"} && p.align in {"start", "center", "end"} &&
         p.layer in {"top", "bottom"}
    && 16 <= p.size <= 400 && (p.length == 0 || 10 <= p.length <= 100) && 0 <= p.margin <= 200
    && 0.0 <= p.opacity <= 1.0
    && forall w :: w in p.widgets ==> Usable(w) && (w.kind == "taskbar" ==> !PinsOldFiles(w.config))
  }

  ghost predicate Usable(w: Widget) {
    w.id != "" && w.kind != "" && w.config.Obj?
  }

  ghost predicate PinsOldFiles(config: Value) {
    config.Obj? && "pins" in config.fields && config.fields["pins"].Arr? &&
      Str(OLD_FILES) in config.fields["pins"].items
  }

  lemma RenamedHasNone(config: Value)
    ensures !PinsOldFiles(RenamedPins(config))
  {
    assert OLD_FILES[0] != NEW_FILES[0];
  }

  lemma RepairedUsable(owner: string, ws: seq<Widget>, bar: bool, w: Widget)
    requires w in RepairWidgets(owner, ws, bar)
    ensures Usable(w) && (bar && w.kind == "taskbar" ==> !PinsOldFiles(w.config))
  {
    var ids := Fix(Indexed(owner), WidgetIds(ws)).0;
    FixNonEmpty(Indexed(owner), WidgetIds(ws));
    hide Fix, PinsOldFiles;
    var i :| 0 <= i < |ws| && w == RepairWidget(ws[i], ids[i], bar);
    assert ids[i] in ids;
    RenamedHasNone(if ws[i].config.Obj? then ws[i].config else Obj(map[]));
  }

  lemma PanelBuildable(p: Panel, id: string)
    requires id != ""
    ensures Buildable(RepairPanel(p, id))
  {
    forall w | w in RepairWidgets(id, p.widgets, true)
      ensures Usable(w) && (w.kind == "taskbar" ==> !PinsOldFiles(w.config)) {
      RepairedUsable(id, p.widgets, true, w);
    }
    hide RepairWidgets, PinsOldFiles, Usable;
  }

  /** Whatever was in the file, the host can build windows from what comes out: every value is
      in range, everything has an id and a kind, and no pin names the old Files entry. */
  lemma SanitizedBuildable(l: Layout)
    ensures forall p :: p in Sanitize(l).panels ==> Buildable(p)
    ensures forall w :: w in Sanitize(l).desktop ==> Usable(w)
    ensures Sanitize(l).version >= 5
  {
    var m := Migrate(l);
    assert m.version >= 5;
    hide Migrate, Buildable, Fix, RepairPanel, RepairWidgets;
    var ids := Fix(Counted, PanelIds(m.panels)).0;
    FixNonEmpty(Counted, PanelIds(m.panels));
    forall i | 0 <= i < |m.panels| ensures Buildable(RepairPanel(m.panels[i], ids[i])) {
      assert ids[i] in ids;
      PanelBuildable(m.panels[i], ids[i]);
    }
    forall w | w in Sanitize(l).desktop ensures Usable(w) { RepairedUsable("desktop", m.desktop, false, w); }
  }

  // --------------------------------------------------------------- what is left as it is

  /** Repairing a widget changes its id, an empty kind, a config that is no object, and the old
      Files entry in a taskbar's pins; nothing else. */
  lemma WidgetKept(w: Widget, id: string, bar: bool)
    ensures var r := RepairWidget(w, id, bar);
      && r.id == id && r.extra == w.extra
      && r.kind == (if w.kind == "" then "unknown" else w.kind)
      && (w.config.Obj? && !(bar && w.kind == "taskbar" && PinsOldFiles(w.config)) ==> r.config == w.config)
      && (!w.config.Obj? ==> r.config == Obj(map[]))
      && (w.config.Obj? ==> r.config.Obj? && r.config.fields.Keys == w.config.fields.Keys)
  {
    if w.config.Obj? && bar && w.kind == "taskbar" { PinsKept(w.config); }
    assert "unknown" != "taskbar" by { assert "unknown"[0] != "taskbar"[0]; }
    hide RenamedPins, PinsOldFiles;
  }

  lemma PinsKept(config: Value)
    requires config.Obj?
    ensures var r := RenamedPins(config);
      r.Obj? && r.fields.Keys == config.fields.Keys && (!PinsOldFiles(config) ==> r == config)
  {
    if "pins" in config.fields && config.fields["pins"].Arr? && !PinsOldFiles(config) {
      var pins := config.fields["pins"].items;
      assert forall i :: 0 <= i < |pins| ==> pins[i] in pins && RenamedPin(pins[i]) == pins[i];
      assert seq(|pins|, i requires 0 <= i < |pins| => RenamedPin(pins[i])) == pins;
      assert config.fields["pins" := Arr(pins)] == config.fields;
    }
  }

  /** A value in range stays; one out of range becomes the nearest bound or the default. */
  lemma PanelKept(p: Panel, id: string)
    ensures var r := RepairPanel(p, id);
      && r.id == id && r.autohide == p.autohide && r.extra == p.extra && |r.widgets| == |p.widgets|
      && r.edge == (if p.edge in {"top", "bottom", "left", "right"} then p.edge else "bottom")
      && r.align == (if p.align in {"start", "center", "end"} then p.align else "center")
      && r.layer == (if p.layer in {"top", "bottom"} then p.layer else "top")
      && r.output == (if p.output == "" then "*" else p.output)
      && r.opacity == (if 0.0 <= p.opacity <= 1.0 then p.opacity else 0.92)
      && Nearest(p.size, 16, 400, r.size) && Nearest(p.margin, 0, 200, r.margin)
      && (if p.length <= 0 then r.length == 0 else Nearest(p.length, 10, 100, r.length))
  {
  }

  /** `r` is the value in the range that is nearest to `x`. */
  ghost predicate Nearest(x: int, lo: int, hi: int, r: int) {
    lo <= r <= hi && forall y :: lo <= y <= hi ==> Distance(x, r) <= Distance(x, y)
  }

  function Distance(x: int, y: int): int {
    if x <= y then y - x else x - y
  }

  /** Everything about the layout is as it should be. */
  ghost predicate Proper(l: Layout) {
    && l.version >= 5
    && (forall p :: p in l.panels ==> Buildable(p) && NoDup(WidgetIds(p.widgets)))
    && (forall w :: w in l.desktop ==> Usable(w))
    && NoDup(PanelIds(l.panels)) && NoDup(WidgetIds(l.desktop))
  }

  lemma WidgetsStay(owner: string, ws: seq<Widget>, bar: bool)
    requires NoDup(WidgetIds(ws))
    requires forall w :: w in ws ==> Usable(w) && (bar && w.kind == "taskbar" ==> !PinsOldFiles(w.config))
    ensures RepairWidgets(owner, ws, bar) == ws
  {
    var ids := WidgetIds(ws);
    assert "" !in ids by { forall i | 0 <= i < |ids| ensures ids[i] != "" { assert ws[i] in ws; } }
    DistinctStay(Indexed(owner), ids);
    forall i | 0 <= i < |ws| ensures RepairWidget(ws[i], ids[i], bar) == ws[i] {
      assert ws[i] in ws;
      WidgetKept(ws[i], ids[i], bar);
    }
    hide Fix, RepairWidget, Usable, PinsOldFiles;
  }

  lemma PanelStays(p: Panel)
    requires Buildable(p) && NoDup(WidgetIds(p.widgets))
    ensures RepairPanel(p, p.id) == p
  {
    WidgetsStay(p.id, p.widgets, true);
    hide RepairWidgets, Usable, PinsOldFiles, NoDup;
  }

  lemma NewStays(l: Layout)
    requires l.version >= 5
    ensures Migrate(l) == l
  {
    assert Migrate(l).panels == l.panels;
  }

  /** A proper layout is left exactly as it is. */
  lemma ProperStays(l: Layout)
    requires Proper(l)
    ensures Sanitize(l) == l
  {
    assert Migrate(l) == l by { NewStays(l); }
    WidgetsStay("desktop", l.desktop, false);
    var ids := PanelIds(l.panels);
    assert "" !in ids by {
      forall i | 0 <= i < |ids| ensures ids[i] != "" { assert l.panels[i] in l.panels; }
    }
    DistinctStay(Counted, ids);
    forall i | 0 <= i < |l.panels| ensures RepairPanel(l.panels[i], ids[i]) == l.panels[i] {
      assert l.panels[i] in l.panels;
      PanelStays(l.panels[i]);
    }
    hide Migrate, Fix, RepairPanel, RepairWidgets, Buildable, NoDup;
    assert RepairPanels(l.panels) == l.panels;
  }

  /** Where the new widgets go: performance mode before the Mind widget and the bell behind it, the
      updates before the bell (or behind the Mind widget), the view indicator first. */
  lemma NewWidgetsBeside(ws: seq<Widget>)
    ensures Has(ws, "mind") && !Has(ws, "perf") && !Has(ws, "notifications") ==>
      var m := Position(ws, "mind").value;
      AddV2(ws) == ws[..m] + [NewWidget("perf", "perf"), ws[m], NewWidget("notify", "notifications")] + ws[m + 1..]
    ensures !Has(ws, "updates") && Has(ws, "notifications") ==>
      var n := Position(ws, "notifications").value;
      AddV3(ws) == ws[..n] + [NewWidget("updates", "updates"), ws[n]] + ws[n + 1..]
    ensures !Has(ws, "updates") && !Has(ws, "notifications") && Has(ws, "mind") ==>
      var m := Position(ws, "mind").value;
      AddV3(ws) == ws[..m] + [ws[m], NewWidget("updates", "updates")] + ws[m + 1..]
  {
    hide Position, Insert;
    var mind, bell := Position(ws, "mind"), Position(ws, "notifications");
    if mind.Some? {
      InsertBeside(ws, mind.value, NewWidget("updates", "updates"));
      InsertAround(ws, mind.value, NewWidget("perf", "perf"), NewWidget("notify", "notifications"));
    }
    if bell.Some? { InsertBeside(ws, bell.value, NewWidget("updates", "updates")); }
  }

  lemma InsertBeside(ws: seq<Widget>, n: nat, w: Widget)
    requires n < |ws|
    ensures Insert(ws, n, w) == ws[..n] + [w, ws[n]] + ws[n + 1..]
    ensures Insert(ws, n + 1, w) == ws[..n] + [ws[n], w] + ws[n + 1..]
  {
    assert ws[n..] == [ws[n]] + ws[n + 1..] && ws[..n + 1] == ws[..n] + [ws[n]];
  }

  lemma InsertAround(ws: seq<Widget>, n: nat, before: Widget, after: Widget)
    requires n < |ws|
    ensures |Insert(ws, n + 1, after)| == |ws| + 1
    ensures Insert(Insert(ws, n + 1, after), n, before) == ws[..n] + [before, ws[n], after] + ws[n + 1..]
  {
    var one := Insert(ws, n + 1, after);
    InsertBeside(ws, n, after);
    hide Insert;
    var front, back := ws[..n], ws[n + 1..];
    assert one == front + ([ws[n], after] + back);
    assert one[..n] == front && one[n] == ws[n] && one[n + 1..] == [after] + back;
    InsertBeside(one, n, before);
  }

  /** A layout from before version 3 gets the updates wherever there is something to put them
      beside; whatever its version, it comes out at 5 or as new as it was. */
  lemma MigrateUpdates(l: Layout, i: nat)
    requires i < |l.panels|
    ensures i < |Migrate(l).panels| && Migrate(l).version == if l.version < 5 then 5 else l.version
    ensures l.version < 3 && (Has(l.panels[i].widgets, "mind") || Has(l.panels[i].widgets, "notifications")) ==>
      Has(Migrate(l).panels[i].widgets, "updates")
    ensures Migrate(l).wallpaper == l.wallpaper && Migrate(l).extra == l.extra
  {
    var ws := l.panels[i].widgets;
    MigrateAt(l, i);
    assert Migrate(l).version == if l.version < 5 then 5 else l.version;
    assert Migrate(l).wallpaper == l.wallpaper && Migrate(l).extra == l.extra;
    if l.version < 3 {
      UpdatesAdded(l.version, ws);
      InsertHas(Upgraded(l.version, ws), 0, NewWidget("view", "desktop-view"), "updates");
    }
    hide Migrate, Upgraded, Insert, Has;
  }

  lemma UpdatesAdded(version: nat, ws: seq<Widget>)
    requires version < 3
    ensures Has(ws, "mind") || Has(ws, "notifications") ==> Has(Upgraded(version, ws), "updates")
  {
    hide Adds, Has, AddV2, AddV3, OfKinds, FreshFor, Upgraded;
    var two := if version < 2 then AddV2(ws) else ws;
    assert forall kind :: kind in NEW_KINDS && !Has(ws, kind) ==> kind in FreshFor(ws) by { FreshIs(ws); }
    AddsNothing(FreshFor(ws), ws);
    AddV2Adds(FreshFor(ws), ws);
    AddsHas(FreshFor(ws), ws, two, "mind");
    AddsHas(FreshFor(ws), ws, two, "notifications");
    AddsHas(FreshFor(ws), ws, two, "updates");
    AddV3Adds(FreshFor(ws), two);
    UpgradedDrops(version, ws);
    LostAreOld(version, ws);
    StillHas(Added(version, ws), Lost(version, ws), "updates");
  }

  lemma FreshIs(ws: seq<Widget>)
    ensures forall kind :: kind in NEW_KINDS && !Has(ws, kind) ==> kind in FreshFor(ws)
  {
  }
}
