/** Dwindle tilings and their dividers: how the tiles are laid out (mindwm/src/layout.rs) and
    which split a drag on the edge of a tile moves (mindwm/src/input_handler.rs). */
module Dwindle {
  import opened Common

  const MIN_TILE: int := 120

  datatype Tile = Tile(x: int, y: int, w: int, h: int)

  // -------------------------------------------------------------------- the tiling

  function Max(a: int, b: int): int { if a >= b then a else b }

  function Clamp(x: int, lo: int, hi: int): (r: int)
    requires lo <= hi
    ensures lo <= r <= hi
  {
    if x < lo then lo else if x > hi then hi else x
  }

  function Round(x: real): int {
    if x < 0.0 then -(0.5 - x).Floor else (x + 0.5).Floor
  }

  /** `split_at`: never less than a usable tile on either side. */
  function SplitAt(span: int, frac: real, gap: int): (r: int)
    ensures r >= MIN_TILE
    ensures span - gap >= 2 * MIN_TILE ==> span - gap - r >= MIN_TILE
  {
    var usable := Max(span - gap, 2 * MIN_TILE);
    Clamp(Round(usable as real * frac), MIN_TILE, usable - MIN_TILE)
  }

  function Share(frac: real): real {
    if frac <= 0.0 then 0.5 else if frac < 0.1 then 0.1 else if frac > 0.9 then 0.9 else frac
  }

  /** The split falls on the pixel nearest to the share asked for, unless a tile would get too
      small; a share of nothing is a half, and none is less than a tenth of the space. */
  lemma SplitNearest(span: int, frac: real, gap: int)
    ensures var r := SplitAt(span, Share(frac), gap);
      && TakesShare(r, Max(span - gap, 2 * MIN_TILE), Share(frac))
      && 0.1 <= Share(frac) <= 0.9
      && (0.1 <= frac <= 0.9 ==> Share(frac) == frac) && (frac <= 0.0 ==> Share(frac) == 0.5)
  {
    var x := Max(span - gap, 2 * MIN_TILE) as real * Share(frac);
    assert -0.5 <= x - Round(x) as real <= 0.5;
  }

  predicate Wide(rest: Tile) {
    rest.w >= rest.h
  }

  function Cut(rest: Tile, frac: real, gap: int): Tile {
    if Wide(rest) then Tile(rest.x, rest.y, SplitAt(rest.w, Share(frac), gap), rest.h)
    else Tile(rest.x, rest.y, rest.w, SplitAt(rest.h, Share(frac), gap))
  }

  function Remaining(rest: Tile, frac: real, gap: int): Tile {
    var t := Cut(rest, frac, gap);
    if Wide(rest) then Tile(rest.x + t.w + gap, rest.y, Max(rest.w - t.w - gap, MIN_TILE), rest.h)
    else Tile(rest.x, rest.y + t.h + gap, rest.w, Max(rest.h - t.h - gap, MIN_TILE))
  }

  /** What is left for the tiles from `i` on. */
  function RestAt(area: Tile, fracs: seq<real>, gap: int, i: nat): Tile
    requires i <= |fracs|
    decreases i
  {
    if i == 0 then area else Remaining(RestAt(area, fracs, gap, i - 1), fracs[i - 1], gap)
  }

  function TileAt(area: Tile, fracs: seq<real>, gap: int, i: nat): (Tile, bool)
    requires i < |fracs|
  {
    var rest := RestAt(area, fracs, gap, i);
    (if i + 1 == |fracs| then rest else Cut(rest, fracs[i], gap), Wide(rest))
  }

  /** `dwindle_rects`. */
  method DwindleRects(area: Tile, fracs: seq<real>, gap: int) returns (out: seq<(Tile, bool)>)
    ensures |out| == |fracs|
    ensures forall i :: 0 <= i < |out| ==> out[i] == TileAt(area, fracs, gap, i)
  {
    var n := |fracs|;
    out := [];
    var rest := area;
    for i := 0 to n
      invariant |out| == i && rest == RestAt(area, fracs, gap, i)
      invariant forall k :: 0 <= k < i ==> out[k] == TileAt(area, fracs, gap, k)
    {
      if i + 1 == n {
        out := out + [(rest, rest.w >= rest.h)];
        return;
      }
      var frac := Share(fracs[i]);
      if rest.w >= rest.h {
        var w1 := SplitAt(rest.w, frac, gap);
        out := out + [(Tile(rest.x, rest.y, w1, rest.h), true)];
        rest := Tile(rest.x + w1 + gap, rest.y, Max(rest.w - w1 - gap, MIN_TILE), rest.h);
      } else {
        var h1 := SplitAt(rest.h, frac, gap);
        out := out + [(Tile(rest.x, rest.y, rest.w, h1), false)];
        rest := Tile(rest.x, rest.y + h1 + gap, rest.w, Max(rest.h - h1 - gap, MIN_TILE));
      }
    }
  }

  // --------------------------------------------------------------- finding the divider

  datatype Edges = Edges(left: bool, right: bool, top: bool, bottom: bool)

  predicate Near(a: int, b: int) {
    -1 <= a - b <= 1
  }

  predicate Matches(tiles: seq<Tile>, splits: seq<bool>, i: nat, gap: int, vertical: bool, far: bool, j: nat)
    requires i < |tiles| == |splits| && j < |tiles|
  {
    && splits[j] == vertical
    && if far then j == i
       else j < i && if vertical then Near(tiles[j].x + tiles[j].w + gap, tiles[i].x)
         else Near(tiles[j].y + tiles[j].h + gap, tiles[i].y)
  }

  function Find(tiles: seq<Tile>, splits: seq<bool>, i: nat, gap: int, vertical: bool, far: bool,
      from: nat): (r: Option<nat>)
    requires i < |tiles| == |splits| && from < |tiles|
    ensures r.Some? ==> from <= r.value < |tiles| - 1 && Matches(tiles, splits, i, gap, vertical, far, r.value)
    ensures forall j :: from <= j < (if r.Some? then r.value else |tiles| - 1) ==>
      !Matches(tiles, splits, i, gap, vertical, far, j)
    decreases |tiles| - from
  {
    if from == |tiles| - 1 then None
    else if Matches(tiles, splits, i, gap, vertical, far, from) then Some(from)
    else Find(tiles, splits, i, gap, vertical, far, from + 1)
  }

  /** `dwindle_divider`. */
  function Divider(tiles: seq<Tile>, splits: seq<bool>, i: nat, edges: Edges, gap: int): Option<nat>
    requires |tiles| == |splits|
  {
    if |tiles| == 0 || i >= |tiles| then None
    else
      var sideways :=
        if edges.left then Find(tiles, splits, i, gap, true, false, 0)
        else if edges.right then Find(tiles, splits, i, gap, true, true, 0)
        else None;
      if sideways.Some? then sideways
      else if edges.top then Find(tiles, splits, i, gap, false, false, 0)
      else if edges.bottom then Find(tiles, splits, i, gap, false, true, 0)
      else None
  }

  // --------------------------------------------------------------- what it should find

  /** Each split leaves its tile left of or above the rest, which starts a little further. */
  ghost predicate Dwindles(tiles: seq<Tile>, splits: seq<bool>, gap: int) {
    && |tiles| == |splits|
    && forall j :: 0 <= j < |tiles| - 1 ==>
         var (t, next) := (tiles[j], tiles[j + 1]);
         if splits[j] then t.w + gap >= 2 && next.x == t.x + t.w + gap && next.y == t.y
         else t.h + gap >= 2 && next.x == t.x && next.y == t.y + t.h + gap
  }

  /** The last split of one direction among those before `i`. */
  function LastSplit(splits: seq<bool>, i: nat, vertical: bool): (r: Option<nat>)
    requires i <= |splits|
    ensures r.Some? ==> r.value < i && splits[r.value] == vertical
    ensures forall j :: (if r.Some? then r.value + 1 else 0) <= j < i ==> splits[j] != vertical
  {
    if i == 0 then None
    else if splits[i - 1] == vertical then Some(i - 1)
    else LastSplit(splits, i - 1, vertical)
  }

  /** A tile's own split, if it has one of that direction: the last tile splits nothing. */
  function OwnSplit(splits: seq<bool>, i: nat, vertical: bool): Option<nat>
    requires i < |splits|
  {
    if i + 1 < |splits| && splits[i] == vertical then Some(i) else None
  }

  function Expected(splits: seq<bool>, i: nat, edges: Edges): Option<nat>
    requires i < |splits|
  {
    var sideways := if edges.left then LastSplit(splits, i, true) else if edges.right then OwnSplit(splits, i, true)
      else None;
    if sideways.Some? then sideways
    else if edges.top then LastSplit(splits, i, false)
    else if edges.bottom then OwnSplit(splits, i, false)
    else None
  }

  function Start(t: Tile, vertical: bool): int {
    if vertical then t.x else t.y
  }

  function Divide(t: Tile, vertical: bool, gap: int): int {
    if vertical then t.x + t.w + gap else t.y + t.h + gap
  }

  /** Tiles start further right and further down as splits go by, and only then. */
  lemma {:induction false} StartsGrow(tiles: seq<Tile>, splits: seq<bool>, gap: int, j: nat, i: nat, vertical: bool)
    requires Dwindles(tiles, splits, gap) && j <= i < |tiles|
    ensures Start(tiles[j], vertical) <= Start(tiles[i], vertical)
    ensures (forall k :: j <= k < i ==> splits[k] != vertical) ==>
      Start(tiles[j], vertical) == Start(tiles[i], vertical)
    decreases i
  {
    if j < i {
      StartsGrow(tiles, splits, gap, j, i - 1, vertical);
      var t, next := tiles[i - 1], tiles[i - 1 + 1];
      assert if splits[i - 1] then next.x >= t.x + 2 && next.y == t.y else next.x == t.x && next.y >= t.y + 2;
    }
  }

  /** The divider of split `j` lies at the start of tile `i` only if no later split moved it on. */
  lemma DividerOfSplit(tiles: seq<Tile>, splits: seq<bool>, gap: int, j: nat, i: nat, vertical: bool)
    requires Dwindles(tiles, splits, gap) && j < i < |tiles| && splits[j] == vertical
    ensures Near(Divide(tiles[j], vertical, gap), Start(tiles[i], vertical)) <==>
      (forall k :: j < k < i ==> splits[k] != vertical)
  {
    assert Divide(tiles[j], vertical, gap) == Start(tiles[j + 1], vertical);
    StartsGrow(tiles, splits, gap, j + 1, i, vertical);
    if k :| j < k < i && splits[k] == vertical {
      StartsGrow(tiles, splits, gap, j + 1, k, vertical);
      assert Start(tiles[k + 1], vertical) >= Start(tiles[k], vertical) + 2;
      StartsGrow(tiles, splits, gap, k + 1, i, vertical);
    }
  }

  lemma FindIsLast(tiles: seq<Tile>, splits: seq<bool>, gap: int, i: nat, vertical: bool)
    requires Dwindles(tiles, splits, gap) && i < |tiles|
    ensures Find(tiles, splits, i, gap, vertical, false, 0) == LastSplit(splits, i, vertical)
  {
    var found, last := Find(tiles, splits, i, gap, vertical, false, 0), LastSplit(splits, i, vertical);
    if last.Some? {
      DividerOfSplit(tiles, splits, gap, last.value, i, vertical);
      assert Matches(tiles, splits, i, gap, vertical, false, last.value);
    }
    if found.Some? {
      DividerOfSplit(tiles, splits, gap, found.value, i, vertical);
    }
  }

  lemma FindIsOwn(tiles: seq<Tile>, splits: seq<bool>, gap: int, i: nat, vertical: bool)
    requires i < |tiles| == |splits|
    ensures Find(tiles, splits, i, gap, vertical, true, 0) == OwnSplit(splits, i, vertical)
  {
    var own := OwnSplit(splits, i, vertical);
    if own.Some? { assert Matches(tiles, splits, i, gap, vertical, true, i); }
  }

  /** For every edge and corner of every tile: left and top find the last split of that
      direction before the tile, right and bottom its own, and sideways goes first. */
  lemma DividerExact(tiles: seq<Tile>, splits: seq<bool>, gap: int, i: nat, edges: Edges)
    requires Dwindles(tiles, splits, gap) && i < |tiles|
    ensures Divider(tiles, splits, i, edges, gap) == Expected(splits, i, edges)
  {
    FindIsLast(tiles, splits, gap, i, true);
    FindIsLast(tiles, splits, gap, i, false);
    FindIsOwn(tiles, splits, gap, i, true);
    FindIsOwn(tiles, splits, gap, i, false);
    hide Find, LastSplit, Dwindles;
  }

  /** The left (top) edge has no divider exactly when the tile lies on that side of the area. */
  lemma NoDividerIffBoundary(tiles: seq<Tile>, splits: seq<bool>, gap: int, i: nat, vertical: bool)
    requires Dwindles(tiles, splits, gap) && i < |tiles|
    ensures LastSplit(splits, i, vertical).None? <==> Start(tiles[i], vertical) == Start(tiles[0], vertical)
  {
    StartsGrow(tiles, splits, gap, 0, i, vertical);
    var last := LastSplit(splits, i, vertical);
    if last.Some? {
      var j := last.value;
      StartsGrow(tiles, splits, gap, 0, j, vertical);
      assert Start(tiles[j + 1], vertical) >= Start(tiles[j], vertical) + 2;
      StartsGrow(tiles, splits, gap, j + 1, i, vertical);
    }
  }

  // ------------------------------------------------------- the tilings the layout makes

  ghost function TilesOf(area: Tile, fracs: seq<real>, gap: int): seq<Tile> {
    seq(|fracs|, i requires 0 <= i < |fracs| => TileAt(area, fracs, gap, i).0)
  }

  ghost function SplitsOf(area: Tile, fracs: seq<real>, gap: int): seq<bool> {
    seq(|fracs|, i requires 0 <= i < |fracs| => TileAt(area, fracs, gap, i).1)
  }

  lemma LayoutDwindles(area: Tile, fracs: seq<real>, gap: int)
    requires gap >= 0
    ensures Dwindles(TilesOf(area, fracs, gap), SplitsOf(area, fracs, gap), gap)
    ensures fracs != [] ==> TilesOf(area, fracs, gap)[0].x == area.x && TilesOf(area, fracs, gap)[0].y == area.y
  {
  }

  /** Every rest is still worth splitting. */
  ghost predicate Roomy(area: Tile, fracs: seq<real>, gap: int) {
    forall i :: 0 <= i < |fracs| - 1 ==>
      var rest := RestAt(area, fracs, gap, i);
      Max(rest.w, rest.h) >= gap + 2 * MIN_TILE
  }

  /** With room to split, what is left always reaches the right and bottom of the area. */
  lemma {:induction false} RestReaches(area: Tile, fracs: seq<real>, gap: int, i: nat)
    requires Roomy(area, fracs, gap) && i < |fracs|
    ensures var rest := RestAt(area, fracs, gap, i);
      rest.x + rest.w == area.x + area.w && rest.y + rest.h == area.y + area.h
    decreases i
  {
    if i > 0 {
      RestReaches(area, fracs, gap, i - 1);
    }
  }

  /** So the right (bottom) edge has no divider exactly when it is the edge of the area. */
  lemma NoOwnDividerIffBoundary(area: Tile, fracs: seq<real>, gap: int, i: nat, vertical: bool)
    requires gap >= 0 && Roomy(area, fracs, gap) && i < |fracs|
    ensures var t := TileAt(area, fracs, gap, i).0;
      OwnSplit(SplitsOf(area, fracs, gap), i, vertical).None? <==>
      if vertical then t.x + t.w == area.x + area.w else t.y + t.h == area.y + area.h
  {
    RestReaches(area, fracs, gap, i);
  }

  predicate InsideOf(t: Tile, area: Tile) {
    area.x <= t.x && area.y <= t.y && t.x + t.w <= area.x + area.w && t.y + t.h <= area.y + area.h
  }

  lemma {:induction false} RestFollows(area: Tile, fracs: seq<real>, gap: int, j: nat, i: nat)
    requires gap >= 0 && j <= i < |fracs|
    ensures var (a, b) := (RestAt(area, fracs, gap, j), RestAt(area, fracs, gap, i));
      && a.x <= b.x && a.y <= b.y
      && (a.w >= MIN_TILE && a.h >= MIN_TILE ==> b.w >= MIN_TILE && b.h >= MIN_TILE)
    decreases i
  {
    if j < i {
      RestFollows(area, fracs, gap, j, i - 1);
      hide Round, Clamp, Share;
    }
  }

  /** Never overlapping, never too small: an earlier tile is left of or above a later one, on
      the side its own split says, with the gap between them; and no tile of a usable area is
      less than usable. */
  lemma TilesApart(area: Tile, fracs: seq<real>, gap: int, j: nat, i: nat)
    requires gap >= 0 && j < i < |fracs|
    ensures var ((a, vertical), (b, _)) := (TileAt(area, fracs, gap, j), TileAt(area, fracs, gap, i));
      && (if vertical then a.x + a.w + gap <= b.x else a.y + a.h + gap <= b.y)
      && (area.w >= MIN_TILE && area.h >= MIN_TILE ==>
           a.w >= MIN_TILE && a.h >= MIN_TILE && b.w >= MIN_TILE && b.h >= MIN_TILE)
  {
    RestFollows(area, fracs, gap, j + 1, i);
    RestFollows(area, fracs, gap, 0, j);
    assert RestAt(area, fracs, gap, j + 1) == Remaining(RestAt(area, fracs, gap, j), fracs[j], gap);
    hide Round, Clamp, Share;
  }

  /** With room to split, every tile lies in the area. */
  lemma TilesInside(area: Tile, fracs: seq<real>, gap: int, i: nat)
    requires gap >= 0 && Roomy(area, fracs, gap) && i < |fracs|
    ensures InsideOf(TileAt(area, fracs, gap, i).0, area)
  {
    RestReaches(area, fracs, gap, i);
    RestFollows(area, fracs, gap, 0, i);
    hide Round, Clamp, Share;
  }

  /** The whole tiling in terms of the area: from where a tile starts there is left what reaches to
      the right and bottom of the area; it is split along its longer side; the tile takes the
      pixel nearest to its share of what the gap leaves, unless one side would get too small, and
      all of the other side; and the last tile takes everything. */
  lemma TilingMeans(area: Tile, fracs: seq<real>, gap: int, i: nat)
    requires gap >= 0 && Roomy(area, fracs, gap) && i < |fracs|
    ensures var ((t, vertical), share) := (TileAt(area, fracs, gap, i), Share(fracs[i]));
      var (w, h) := (area.x + area.w - t.x, area.y + area.h - t.y);
      && (vertical <==> w >= h)
      && (i + 1 == |fracs| ==> t.w == w && t.h == h)
      && (i + 1 < |fracs| ==>
            && (if vertical then t.h == h else t.w == w)
            && TakesShare(if vertical then t.w else t.h, (if vertical then w else h) - gap, share))
  {
    RestReaches(area, fracs, gap, i);
    var rest := RestAt(area, fracs, gap, i);
    if i + 1 < |fracs| {
      assert Max(rest.w, rest.h) >= gap + 2 * MIN_TILE;
      SplitNearest(rest.w, fracs[i], gap);
      SplitNearest(rest.h, fracs[i], gap);
      hide SplitAt, Share, RestAt;
    }
  }

  /** `n` of `usable` pixels is the share asked for, to the nearest pixel, with a usable tile on
      either side. */
  ghost predicate TakesShare(n: int, usable: int, share: real) {
    && MIN_TILE <= n <= usable - MIN_TILE
    && (MIN_TILE < n < usable - MIN_TILE ==> -0.5 <= usable as real * share - n as real <= 0.5)
    && (n == MIN_TILE && MIN_TILE < usable - MIN_TILE ==> usable as real * share <= n as real + 0.5)
    && (n == usable - MIN_TILE && MIN_TILE < n ==> usable as real * share >= n as real - 0.5)
  }
}
