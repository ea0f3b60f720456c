/** How the shell migrates and sanitizes a layout it has read (mindshell/src/layout.rs): the
    panels and widgets are gone through one by one and changed where they stand. */
module LayoutFile {
  import opened Common
  import opened LayoutIds
  import opened Migration

  method MigrateV2(ps: seq<Panel>) returns (panels: seq<Panel>)
    ensures |panels| == |ps| && forall k :: 0 <= k < |ps| ==> panels[k] == ps[k].(widgets := AddV2(ps[k].widgets))
  {
    hide AddV2;
    panels := ps;
    for i := 0 to |ps|
      invariant |panels| == |ps|
      invariant forall k :: 0 <= k < i ==> panels[k] == ps[k].(widgets := AddV2(ps[k].widgets))
      invariant forall k :: i <= k < |ps| ==> panels[k] == ps[k]
    {
      var ws := AddPerfAndBell(panels[i].widgets);
      panels := panels[i := panels[i].(widgets := ws)];
    }
  }

  method AddPerfAndBell(was: seq<Widget>) returns (ws: seq<Widget>)
    ensures ws == AddV2(was)
  {
    hide Position;
    ws := was;
    var mind := Position(ws, "mind");
    if mind.Some? {
      var perf, bell := Has(ws, "perf"), Has(ws, "notifications");
      if !bell {
        ws := Insert(ws, mind.value + 1, NewWidget("notify", "notifications"));
      }
      if !perf {
        ws := Insert(ws, mind.value, NewWidget("perf", "perf"));
      }
    }
  }

  method MigrateV3(ps: seq<Panel>) returns (panels: seq<Panel>)
    ensures |panels| == |ps| && forall k :: 0 <= k < |ps| ==> panels[k] == ps[k].(widgets := AddV3(ps[k].widgets))
  {
    hide AddV3;
    panels := ps;
    for i := 0 to |ps|
      invariant |panels| == |ps|
      invariant forall k :: 0 <= k < i ==> panels[k] == ps[k].(widgets := AddV3(ps[k].widgets))
      invariant forall k :: i <= k < |ps| ==> panels[k] == ps[k]
    {
      var ws := AddUpdates(panels[i].widgets);
      panels := panels[i := panels[i].(widgets := ws)];
    }
  }

  method AddUpdates(was: seq<Widget>) returns (ws: seq<Widget>)
    ensures ws == AddV3(was)
  {
    hide Position;
    ws := was;
    if Has(ws, "updates") {
      return;
    }
    var at := Position(ws, "notifications");
    if at.None? {
      var mind := Position(ws, "mind");
      at := if mind.Some? then Some(mind.value + 1) else None;
    }
    if at.Some? {
      ws := Insert(ws, at.value, NewWidget("updates", "updates"));
    }
  }

  method MigrateV4(ps: seq<Panel>) returns (panels: seq<Panel>)
    ensures |panels| == |ps| && forall k :: 0 <= k < |ps| ==> panels[k] == ps[k].(widgets := DropV4(ps[k].widgets))
  {
    panels := ps;
    for i := 0 to |ps|
      invariant |panels| == |ps|
      invariant forall k :: 0 <= k < i ==> panels[k] == ps[k].(widgets := DropV4(ps[k].widgets))
      invariant forall k :: i <= k < |ps| ==> panels[k] == ps[k]
    {
      if Has(panels[i].widgets, "tray") {
        panels := panels[i := panels[i].(widgets := OfKinds(panels[i].widgets, NETWORK_KINDS, false))];
      }
    }
  }

  method MigrateV5(ps: seq<Panel>) returns (panels: seq<Panel>)
    ensures panels == AddV5(ps)
  {
    for i := 0 to |ps|
      invariant forall k :: 0 <= k < i ==> !Has(ps[k].widgets, "desktop-view")
    {
      if Has(ps[i].widgets, "desktop-view") {
        assert ps[i] in ps;
        return ps;
      }
    }
    if ps == [] {
      return ps;
    }
    panels := ps[0 := ps[0].(widgets := Insert(ps[0].widgets, 0, NewWidget("view", "desktop-view")))];
  }

  method MigrateAll(l: Layout) returns (r: Layout)
    ensures r == Migrate(l)
  {
    hide AddV2, AddV3, DropV4, AddV5;
    r := l;
    if r.version == 0 {
      r := r.(version := 1);
    }
    if r.version < 2 {
      var panels := MigrateV2(r.panels);
      r := r.(panels := panels, version := 2);
    }
    if r.version < 3 {
      var panels := MigrateV3(r.panels);
      r := r.(panels := panels, version := 3);
    }
    if r.version < 4 {
      var panels := MigrateV4(r.panels);
      r := r.(panels := panels, version := 4);
    }
    assert r.panels == seq(|l.panels|,
      i requires 0 <= i < |l.panels| => l.panels[i].(widgets := Upgraded(l.version, l.panels[i].widgets)));
    if r.version < 5 {
      var panels := MigrateV5(r.panels);
      r := r.(panels := panels, version := 5);
    }
  }

  method RenamePins(config: Value) returns (r: Value)
    ensures r == RenamedPins(config)
  {
    if !(config.Obj? && "pins" in config.fields && config.fields["pins"].Arr?) {
      return config;
    }
    var was := config.fields["pins"].items;
    var pins := was;
    for i := 0 to |was|
      invariant |pins| == |was|
      invariant forall k :: 0 <= k < i ==> pins[k] == RenamedPin(was[k])
      invariant forall k :: i <= k < |was| ==> pins[k] == was[k]
    {
      if pins[i] == Str(OLD_FILES) {
        pins := pins[i := Str(NEW_FILES)];
      }
    }
    assert pins == seq(|was|, i requires 0 <= i < |was| => RenamedPin(was[i]));
    return Obj(config.fields["pins" := Arr(pins)]);
  }

  /** The ids in use before the `i`th, and how many of them were replaced. */
  ghost function Seen(namer: Namer, ids: seq<string>, i: nat): set<string>
    requires i <= |ids|
  {
    Elements(Fix(namer, ids[..i]).0)
  }

  ghost function Given(namer: Namer, ids: seq<string>, i: nat): nat
    requires i <= |ids|
  {
    Fix(namer, ids[..i]).1
  }

  lemma NoneSeen(namer: Namer, ids: seq<string>)
    ensures Seen(namer, ids, 0) == {} && Given(namer, ids, 0) == 0
  {
  }

  /** The id one panel or widget ends up with. */
  method NextId(namer: Namer, ghost ids: seq<string>, i: nat, was: string, seen: set<string>, n: nat)
    returns (id: string, seen': set<string>, n': nat)
    requires i < |ids| && was == ids[i] && seen == Seen(namer, ids, i) && n == Given(namer, ids, i)
    ensures id == Fix(namer, ids).0[i] && seen' == Seen(namer, ids, i + 1) && n' == Given(namer, ids, i + 1)
  {
    FixStep(namer, ids, i);
    hide Fix, Elements, Decimal, Name;
    id, n' := was, n;
    if id == "" || id in seen {
      n' := n + 1;
      id := Name(namer, i, n');
    }
    seen' := seen + {id};
  }

  method SanitizeWidgets(owner: string, ws: seq<Widget>, bar: bool) returns (out: seq<Widget>)
    ensures out == RepairWidgets(owner, ws, bar)
  {
    ghost var ids := WidgetIds(ws);
    ghost var fixed := Fix(Indexed(owner), ids).0;
    NoneSeen(Indexed(owner), ids);
    hide Fix, RepairWidget, Seen, Given;
    var seen: set<string>, n := {}, 0;
    out := [];
    for i := 0 to |ws|
      invariant |out| == i && seen == Seen(Indexed(owner), ids, i) && n == Given(Indexed(owner), ids, i)
      invariant forall k :: 0 <= k < i ==> out[k] == RepairWidget(ws[k], fixed[k], bar)
    {
      var id;
      id, seen, n := NextId(Indexed(owner), ids, i, ws[i].id, seen, n);
      var w := RepairOne(ws[i], id, bar);
      out := out + [w];
    }
  }

  method RepairOne(w: Widget, id: string, bar: bool) returns (r: Widget)
    ensures r == RepairWidget(w, id, bar)
  {
    r := w.(id := id);
    if r.kind == "" {
      r := r.(kind := "unknown");
    }
    if !r.config.Obj? {
      r := r.(config := Obj(map[]));
    }
    if bar && r.kind == "taskbar" {
      var config := RenamePins(r.config);
      r := r.(config := config);
    }
  }

  method SanitizePanel(p: Panel, id: string) returns (r: Panel)
    ensures r == RepairPanel(p, id)
  {
    hide RepairWidgets;
    r := p.(id := id);
    if r.edge !in {"top", "bottom", "left", "right"} { r := r.(edge := "bottom"); }
    r := r.(size := Clamp(r.size, 16, 400));
    r := r.(length := if r.length <= 0 then 0 else Clamp(r.length, 10, 100));
    r := r.(margin := Clamp(r.margin, 0, 200));
    if r.align !in {"start", "center", "end"} { r := r.(align := "center"); }
    if r.layer !in {"top", "bottom"} { r := r.(layer := "top"); }
    if !(0.0 <= r.opacity <= 1.0) { r := r.(opacity := 0.92); }
    if r.output == "" { r := r.(output := "*"); }
    var widgets := SanitizeWidgets(r.id, r.widgets, true);
    r := r.(widgets := widgets);
  }

  method Sanitized(l: Layout) returns (r: Layout)
    ensures r == Sanitize(l)
  {
    r := MigrateAll(l);
    var panels := SanitizePanels(r.panels);
    var desktop := SanitizeWidgets("desktop", r.desktop, false);
    hide Migrate, RepairPanels, RepairWidgets;
    r := r.(panels := panels, desktop := desktop);
  }

  method SanitizePanels(ps: seq<Panel>) returns (panels: seq<Panel>)
    ensures panels == RepairPanels(ps)
  {
    ghost var ids := PanelIds(ps);
    ghost var fixed := Fix(Counted, ids).0;
    NoneSeen(Counted, ids);
    hide Fix, RepairPanel, RepairPanels, Seen, Given;
    var seen: set<string>, n := {}, 0;
    panels := [];
    for i := 0 to |ps|
      invariant |panels| == i && seen == Seen(Counted, ids, i) && n == Given(Counted, ids, i)
      invariant forall k :: 0 <= k < i ==> panels[k] == RepairPanel(ps[k], fixed[k])
    {
      var id;
      id, seen, n := NextId(Counted, ids, i, ps[i].id, seen, n);
      var p := SanitizePanel(ps[i], id);
      panels := panels + [p];
    }
    RepairedOneByOne(ps, panels);
  }

  lemma RepairedOneByOne(ps: seq<Panel>, panels: seq<Panel>)
    requires |panels| == |ps|
    requires forall k :: 0 <= k < |ps| ==> panels[k] == RepairPanel(ps[k], Fix(Counted, PanelIds(ps)).0[k])
    ensures panels == RepairPanels(ps)
  {
  }
}
