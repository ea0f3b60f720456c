/** The ids of panels and widgets in a desktop layout (mindshell/src/layout.rs): an empty or
    repeated id is replaced by a generated one. */
module LayoutIds {
  import opened Common

  // --------------------------------------------------------------- generated names

  function Digit(d: nat): char
    requires d < 10
  {
    "0123456789"[d]
  }

  function Decimal(n: nat): (s: string)
    ensures s != [] && forall i :: 0 <= i < |s| ==> s[i] in "0123456789"
  {
    if n < 10 then [Digit(n)] else Decimal(n / 10) + [Digit(n % 10)]
  }

  lemma {:induction false} DecimalInjective(a: nat, b: nat)
    requires Decimal(a) == Decimal(b)
    ensures a == b
  {
    var s, t := Decimal(a), Decimal(b);
    assert s[|s| - 1] == Digit(a % 10) && t[|t| - 1] == Digit(b % 10);
    assert a >= 10 ==> |s| >= 2;
    assert b >= 10 ==> |t| >= 2;
    assert a % 10 == b % 10;
    if a >= 10 && b >= 10 {
      assert Decimal(a / 10) == s[..|s| - 1] && Decimal(b / 10) == t[..|t| - 1];
      DecimalInjective(a / 10, b / 10);
    }
  }

  /** Panels are numbered by how many were replaced, widgets by where they stand. */
  datatype Namer = Counted | Indexed(owner: string)

  function Name(namer: Namer, index: nat, number: nat): (s: string)
    ensures s != ""
  {
    match namer
    case Counted => "panel-" + Decimal(number)
    case Indexed(owner) => owner + "-w" + Decimal(index)
  }

  lemma NameInjective(namer: Namer, i: nat, m: nat, j: nat, n: nat)
    requires Name(namer, i, m) == Name(namer, j, n)
    ensures if namer.Counted? then m == n else i == j
  {
    var s := Name(namer, i, m);
    match namer
    case Counted =>
      assert s[|"panel-"|..] == Decimal(m) && s[|"panel-"|..] == Decimal(n);
      DecimalInjective(m, n);
    case Indexed(owner) =>
      assert s[|owner + "-w"|..] == Decimal(i) && s[|owner + "-w"|..] == Decimal(j);
      DecimalInjective(i, j);
  }

  // ---------------------------------------------------------------------- the repair

  /** The ids in use after going through `ids`, and how many were replaced. */
  function Fix(namer: Namer, ids: seq<string>): (r: (seq<string>, nat))
    ensures |r.0| == |ids|
  {
    if ids == [] then ([], 0)
    else
      var k := |ids| - 1;
      var (out, n) := Fix(namer, ids[..k]);
      if ids[k] == "" || ids[k] in out then (out + [Name(namer, k, n + 1)], n + 1) else (out + [ids[k]], n)
  }

  ghost predicate Replaced(namer: Namer, ids: seq<string>, k: nat)
    requires k < |ids|
  {
    ids[k] == "" || ids[k] in Fix(namer, ids[..k]).0
  }

  /** The name the `k`th id is given if it needs one. */
  ghost function NameFor(namer: Namer, ids: seq<string>, k: nat): string
    requires k < |ids|
  {
    Name(namer, k, Fix(namer, ids[..k]).1 + 1)
  }

  lemma {:induction false} FixAt(namer: Namer, ids: seq<string>, k: nat)
    requires k < |ids|
    ensures Fix(namer, ids).0[..k] == Fix(namer, ids[..k]).0
    ensures Fix(namer, ids).0[k] == if Replaced(namer, ids, k) then NameFor(namer, ids, k) else ids[k]
    decreases |ids|
  {
    var n := |ids| - 1;
    if k < n {
      FixAt(namer, ids[..n], k);
      assert ids[..n][..k] == ids[..k];
    }
  }

  /** One turn of the loop: what the `k`th id becomes, given the ids seen and the count so far. */
  lemma {:induction false} FixStep(namer: Namer, ids: seq<string>, k: nat)
    requires k < |ids|
    ensures var ((out, n), (out', n')) := (Fix(namer, ids[..k]), Fix(namer, ids[..k + 1]));
      var needs := ids[k] == "" || ids[k] in Elements(out);
      var id := if needs then Name(namer, k, n + 1) else ids[k];
      && Fix(namer, ids).0[k] == id
      && Elements(out') == Elements(out) + {id}
      && n' == if needs then n + 1 else n
  {
    hide Fix, Name, Elements;
    var out, id := Fix(namer, ids[..k]).0, Fix(namer, ids).0[k];
    FixAt(namer, ids, k);
    ElementsAppend(out, id);
    assert ids[..k + 1] == ids[..k] + [ids[k]];
    FixNext(namer, ids[..k], ids[k]);
  }

  lemma {:induction false} NumbersGrow(namer: Namer, ids: seq<string>, j: nat, k: nat)
    requires j <= k <= |ids|
    ensures Fix(namer, ids[..j]).1 <= Fix(namer, ids[..k]).1
    ensures j < k && Replaced(namer, ids, j) ==> Fix(namer, ids[..j]).1 < Fix(namer, ids[..k]).1
    decreases k
  {
    if j < k {
      NumbersGrow(namer, ids, j, k - 1);
      assert ids[..k][..k - 1] == ids[..k - 1];
    }
  }

  /** No id stays that a later one is then given. */
  ghost predicate NoClash(namer: Namer, ids: seq<string>) {
    forall j, k :: 0 <= j < k < |ids| && !Replaced(namer, ids, j) && Replaced(namer, ids, k) ==>
      ids[j] != NameFor(namer, ids, k)
  }

  lemma EarlierDiffers(namer: Namer, ids: seq<string>, j: nat, k: nat)
    requires j < k < |ids|
    ensures var out := Fix(namer, ids).0;
      out[j] == out[k] <==> !Replaced(namer, ids, j) && Replaced(namer, ids, k) && ids[j] == NameFor(namer, ids, k)
  {
    hide Fix, Name;
    var out := Fix(namer, ids).0;
    FixAt(namer, ids, j);
    FixAt(namer, ids, k);
    assert out[j] == out[..k][j] && out[j] in out[..k];
    if Replaced(namer, ids, j) && Replaced(namer, ids, k) && out[j] == out[k] {
      NumbersGrow(namer, ids, j, k);
      NameInjective(namer, j, Fix(namer, ids[..j]).1 + 1, k, Fix(namer, ids[..k]).1 + 1);
    }
  }

  /** The ids in use are distinct exactly when nothing clashes. */
  lemma DistinctIff(namer: Namer, ids: seq<string>)
    ensures NoDup(Fix(namer, ids).0) <==> NoClash(namer, ids)
  {
    hide Fix, Replaced, NameFor;
    var out := Fix(namer, ids).0;
    forall j, k | 0 <= j < k < |ids|
      ensures out[j] == out[k] <==>
        !Replaced(namer, ids, j) && Replaced(namer, ids, k) && ids[j] == NameFor(namer, ids, k)
    {
      EarlierDiffers(namer, ids, j, k);
    }
  }

  /** No supplied id has the form of a generated one. */
  ghost predicate Ungenerated(namer: Namer, ids: seq<string>) {
    forall j :: 0 <= j < |ids| ==> forall i: nat, n: nat :: ids[j] != Name(namer, i, n)
  }

  lemma UngeneratedDistinct(namer: Namer, ids: seq<string>)
    requires Ungenerated(namer, ids)
    ensures NoDup(Fix(namer, ids).0)
  {
    DistinctIff(namer, ids);
  }

  lemma FixNonEmpty(namer: Namer, ids: seq<string>)
    ensures "" !in Fix(namer, ids).0
  {
  }

  // -------------------------------------------------------------------- doing it twice

  /** Distinct, non-empty ids stay as they are. */
  lemma {:induction false} DistinctStay(namer: Namer, ids: seq<string>)
    requires NoDup(ids) && "" !in ids
    ensures Fix(namer, ids) == (ids, 0)
    decreases |ids|
  {
    if ids != [] {
      var k := |ids| - 1;
      assert ids == ids[..k] + [ids[k]];
      NoDupConcat(ids[..k], [ids[k]]);
      assert ids[k] in ids;
      DistinctStay(namer, ids[..k]);
    }
  }

  /** A list is left alone exactly when every id that would be replaced is the very name it
      would be given. */
  lemma {:induction false} StableIff(namer: Namer, ids: seq<string>)
    ensures Fix(namer, ids).0 == ids <==>
      forall k :: 0 <= k < |ids| && Replaced(namer, ids, k) ==> ids[k] == NameFor(namer, ids, k)
  {
    var out := Fix(namer, ids).0;
    forall k | 0 <= k < |ids| ensures out[k] == ids[k] <==>
      (Replaced(namer, ids, k) ==> ids[k] == NameFor(namer, ids, k)) {
      FixAt(namer, ids, k);
    }
    assert (forall k :: 0 <= k < |ids| ==> out[k] == ids[k]) ==> out == ids;
    if out == ids {
      forall k | 0 <= k < |ids| && Replaced(namer, ids, k)
        ensures ids[k] == NameFor(namer, ids, k) { assert out[k] == ids[k]; }
    }
    hide Fix, Replaced, NameFor;
  }

  /** The ids of widgets are settled after one pass, repeated or not: a name depends only on
      where its widget stands. */
  lemma {:induction false} IndexedStable(owner: string, ids: seq<string>)
    ensures Fix(Indexed(owner), Fix(Indexed(owner), ids).0).0 == Fix(Indexed(owner), ids).0
    decreases |ids|
  {
    if ids != [] {
      var namer := Indexed(owner);
      var k := |ids| - 1;
      var out := Fix(namer, ids).0;
      IndexedStable(owner, ids[..k]);
      FixAt(namer, ids, k);
      assert out == out[..k] + [out[k]];
      FixNonEmpty(namer, ids);
      assert out[k] in out;
    }
  }

  // ----------------------------------------------- when panel ids are settled after one pass

  /** The `k`th id needs a new one and is given one that an earlier panel kept. */
  ghost predicate Clashes(ids: seq<string>, k: nat)
    requires k < |ids|
  {
    Replaced(Counted, ids, k) && exists j ::
      0 <= j < k && !Replaced(Counted, ids, j) && ids[j] == NameFor(Counted, ids, k)
  }

  /** A clash comes only after replacements that clash too. */
  ghost predicate ClashesFirst(ids: seq<string>, n: nat)
    requires n <= |ids|
  {
    forall j, k :: 0 <= j < k < n && Replaced(Counted, ids, j) && Clashes(ids, k) ==> Clashes(ids, j)
  }

  ghost function ClashCount(ids: seq<string>, n: nat): nat
    requires n <= |ids|
  {
    if n == 0 then 0 else ClashCount(ids, n - 1) + if Clashes(ids, n - 1) then 1 else 0
  }

  /** An id in use is repeated exactly where there was a clash. */
  lemma RepeatsAreClashes(ids: seq<string>, k: nat)
    requires k < |ids|
    ensures Fix(Counted, ids).0[k] in Fix(Counted, ids).0[..k] <==> Clashes(ids, k)
  {
    var out := Fix(Counted, ids).0;
    forall j | 0 <= j < k
      ensures out[j] == out[k] <==>
        !Replaced(Counted, ids, j) && Replaced(Counted, ids, k) && ids[j] == NameFor(Counted, ids, k)
    {
      EarlierDiffers(Counted, ids, j, k);
    }
    hide Fix, Replaced, NameFor;
    assert forall j :: 0 <= j < k ==> out[..k][j] == out[j];
  }

  /** Every id replaced so far clashed. */
  ghost predicate AllClash(ids: seq<string>, n: nat)
    requires n <= |ids|
  {
    forall j :: 0 <= j < n && Replaced(Counted, ids, j) ==> Clashes(ids, j)
  }

  lemma AllClashNext(ids: seq<string>, k: nat)
    requires k < |ids|
    ensures AllClash(ids, k + 1) <==> AllClash(ids, k) && (Replaced(Counted, ids, k) ==> Clashes(ids, k))
    ensures Clashes(ids, k) ==> Replaced(Counted, ids, k)
  {
    assert Clashes(ids, k) ==> Replaced(Counted, ids, k);
    hide Replaced, Clashes;
  }

  lemma {:induction false} FewerClashes(ids: seq<string>, n: nat)
    requires n <= |ids|
    ensures ClashCount(ids, n) <= Fix(Counted, ids[..n]).1
    ensures ClashCount(ids, n) == Fix(Counted, ids[..n]).1 <==> AllClash(ids, n)
  {
    if n == 0 {
      assert ids[..n] == [];
    } else {
      hide Fix, Replaced, Clashes, AllClash;
      FewerClashes(ids, n - 1);
      ReplacedCounts(Counted, ids, n - 1);
      AllClashNext(ids, n - 1);
    }
  }

  lemma {:induction false} ReplacedCounts(namer: Namer, ids: seq<string>, k: nat)
    requires k < |ids|
    ensures Fix(namer, ids[..k + 1]).1 == Fix(namer, ids[..k]).1 + if Replaced(namer, ids, k) then 1 else 0
  {
    hide Fix, Name;
    assert ids[..k + 1] == ids[..k] + [ids[k]];
    FixNext(namer, ids[..k], ids[k]);
  }

  lemma NoneClash(ids: seq<string>)
    ensures ClashesFirst(ids, 0)
  {
  }

  lemma ClashesNext(ids: seq<string>, k: nat)
    requires k < |ids|
    ensures ClashesFirst(ids, k + 1) <==> ClashesFirst(ids, k) && (Clashes(ids, k) ==> AllClash(ids, k))
  {
    hide Clashes, Replaced;
  }

  /** The second pass over the first `n` ids. */
  lemma {:induction false} SecondPass(ids: seq<string>, n: nat)
    requires n <= |ids|
    ensures var out := Fix(Counted, ids).0;
      && (Fix(Counted, out[..n]).0 == out[..n] <==> ClashesFirst(ids, n))
      && (ClashesFirst(ids, n) ==> Fix(Counted, out[..n]).1 == ClashCount(ids, n))
  {
    hide Clashes, Replaced, ClashesFirst, AllClash;
    if n == 0 {
      assert Fix(Counted, ids).0[..n] == [];
      NoneClash(ids);
    } else {
      hide Fix;
      SecondPass(ids, n - 1);
      SecondPassStep(ids, n - 1);
      ClashesNext(ids, n - 1);
      FewerClashes(ids, n - 1);
    }
  }

  /** What the second pass makes of one more id, if it left those before it alone. */
  lemma {:induction false} SecondPassStep(ids: seq<string>, k: nat)
    requires k < |ids|
    ensures var out := Fix(Counted, ids).0;
      var (was, m) := Fix(Counted, out[..k]);
      && (Fix(Counted, out[..k + 1]).0 == out[..k + 1] <==>
            was == out[..k] && (Clashes(ids, k) ==> m == Fix(Counted, ids[..k]).1))
      && (was == out[..k] ==> Fix(Counted, out[..k + 1]).1 == m + if Clashes(ids, k) then 1 else 0)
  {
    var out := Fix(Counted, ids).0;
    var (was, m) := Fix(Counted, out[..k]);
    RepeatsAreClashes(ids, k);
    FixAt(Counted, ids, k);
    FixNonEmpty(Counted, ids);
    assert out[k] in out;
    assert out[..k + 1] == out[..k] + [out[k]];
    FixNext(Counted, out[..k], out[k]);
    assert Clashes(ids, k) ==> out[k] == NameFor(Counted, ids, k);
    if Clashes(ids, k) && Name(Counted, k, m + 1) == out[k] {
      NameInjective(Counted, k, m + 1, k, Fix(Counted, ids[..k]).1 + 1);
    }
    hide Fix, Clashes, Replaced;
    var next := Fix(Counted, out[..k + 1]).0;
    assert next[..k] == was;
    assert next == next[..k] + [next[k]];
  }

  /** Panel ids are settled after one pass exactly when, among the ids supplied, every
      replacement before a clash clashes as well. */
  lemma CountedStableIff(ids: seq<string>)
    ensures Fix(Counted, Fix(Counted, ids).0).0 == Fix(Counted, ids).0 <==> ClashesFirst(ids, |ids|)
  {
    var out := Fix(Counted, ids).0;
    SecondPass(ids, |ids|);
    assert out[..|ids|] == out;
  }

  /** They need not be: the number a panel gets depends on how many were replaced before. */
  lemma CountedUnstable()
    ensures Fix(Counted, ["panel-2", "", ""]).0 == ["panel-2", "panel-1", "panel-2"]
    ensures Fix(Counted, ["panel-2", "panel-1", "panel-2"]).0 == ["panel-2", "panel-1", "panel-1"]
  {
    assert Decimal(1) == "1" && Decimal(2) == "2";
    hide Fix, Decimal;
    Collision("panel-1", "panel-2");
  }

  lemma Collision(p1: string, p2: string)
    requires p1 != p2 && p1 != "" && p2 != ""
    requires Name(Counted, 1, 1) == p1 && Name(Counted, 2, 1) == p1 && Name(Counted, 2, 2) == p2
    ensures Fix(Counted, [p2, "", ""]).0 == [p2, p1, p2]
    ensures Fix(Counted, [p2, p1, p2]).0 == [p2, p1, p1]
  {
    hide Fix, Name;
    var none: seq<string> := [];
    FixNext(Counted, none, p2);
    assert none + [p2] == [p2];
    FixNext(Counted, [p2], "");
    assert [p2] + [""] == [p2, ""] && [p2] + [p1] == [p2, p1];
    FixNext(Counted, [p2, ""], "");
    assert [p2, ""] + [""] == [p2, "", ""] && [p2, p1] + [p2] == [p2, p1, p2];
    FixNext(Counted, [p2], p1);
    FixNext(Counted, [p2, p1], p2);
    assert [p2, p1] + [p1] == [p2, p1, p1];
  }

  lemma {:induction false} FixNext(namer: Namer, ids: seq<string>, id: string)
    ensures Fix(namer, []) == ([], 0)
    ensures var (out, n) := Fix(namer, ids);
      Fix(namer, ids + [id]) ==
      if id == "" || id in out then (out + [Name(namer, |ids|, n + 1)], n + 1) else (out + [id], n)
  {
  }

  /** What generated ids look like. */
  lemma GeneratedForms(owner: string)
    ensures Name(Counted, 7, 12) == "panel-12" && Name(Indexed(owner), 7, 12) == owner + "-w7"
  {
    assert Decimal(1) == "1" && Decimal(12) == "12" && Decimal(7) == "7";
  }
}
