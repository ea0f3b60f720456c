/** The list of applications that show on every desk (mindwm/src/desk.rs). */
module Sticky {
  import opened Text

  predicate Listed(list: seq<string>, name: string) {
    exists i :: 0 <= i < |list| && SameName(list[i], name)
  }

  predicate IsSticky(sticky: seq<string>, app: string) {
    app != "" && Listed(sticky, app)
  }

  /** What one entry adds to the list cleaned so far. */
  function CleanEntry(out: seq<string>, entry: string): seq<string> {
    var e := Trim(entry);
    if e == "" || Listed(out, e) then out else out + [e]
  }

  function CleanFrom(out: seq<string>, list: seq<string>): seq<string>
    decreases list
  {
    if list == [] then out else CleanFrom(CleanEntry(out, list[0]), list[1..])
  }

  function Clean(list: seq<string>): seq<string> {
    CleanFrom([], list)
  }

  /** No blanks, no padding, no name twice in whatever case. */
  ghost predicate IsClean(list: seq<string>) {
    && (forall i :: 0 <= i < |list| ==> list[i] != "" && Trimmed(list[i]))
    && (forall i, j :: 0 <= i < j < |list| ==> !SameName(list[i], list[j]))
  }

  method CleanSticky(list: seq<string>) returns (out: seq<string>)
    ensures out == Clean(list)
  {
    out := [];
    for n := 0 to |list|
      invariant CleanFrom(out, list[n..]) == Clean(list)
    {
      var entry := Trim(list[n]);
      assert list[n..][1..] == list[n + 1..];
      if entry != "" && !Listed(out, entry) {
        out := out + [entry];
      }
    }
  }

  lemma CleanEntryClean(out: seq<string>, entry: string)
    requires IsClean(out)
    ensures IsClean(CleanEntry(out, entry))
  {
    TrimTrims(entry);
  }

  lemma {:induction false} CleanFromClean(out: seq<string>, list: seq<string>)
    requires IsClean(out)
    ensures IsClean(CleanFrom(out, list))
    decreases list
  {
    if list != [] {
      CleanEntryClean(out, list[0]);
      CleanFromClean(CleanEntry(out, list[0]), list[1..]);
    }
  }

  lemma {:induction false} CleanFromFixed(out: seq<string>, list: seq<string>)
    requires IsClean(out + list)
    ensures CleanFrom(out, list) == out + list
    decreases list
  {
    if list != [] {
      var all, e := out + list, list[0];
      assert e == all[|out|] && Trimmed(e) && e != "";
      hide Trim, SameName, Trimmed;
      forall i | 0 <= i < |out| ensures !SameName(out[i], e) { assert out[i] == all[i]; }
      assert CleanEntry(out, e) == out + [e];
      assert out + [e] + list[1..] == all;
      CleanFromFixed(out + [e], list[1..]);
    }
  }

  /** Cleaning is idempotent, and leaves no blanks and no case-insensitive repeats. */
  lemma CleanIdempotent(list: seq<string>)
    ensures IsClean(Clean(list)) && Clean(Clean(list)) == Clean(list)
  {
    CleanFromClean([], list);
    assert [] + Clean(list) == Clean(list);
    CleanFromFixed([], Clean(list));
  }

  lemma {:induction false} CleanFromLists(out: seq<string>, list: seq<string>, name: string)
    requires name != ""
    ensures Listed(CleanFrom(out, list), name) <==>
              Listed(out, name) || exists i :: 0 <= i < |list| && SameName(Trim(list[i]), name)
    decreases list
  {
    if list != [] {
      var e, out' := Trim(list[0]), CleanEntry(out, list[0]);
      CleanFromLists(out', list[1..], name);
      assert forall i :: 0 <= i < |out| ==> out'[i] == out[i];
      if Listed(out, e) && SameName(e, name) {
        var i :| 0 <= i < |out| && SameName(out[i], e);
      }
      if e != "" && !Listed(out, e) { assert out'[|out|] == e; }
      assert Listed(out', name) <==> Listed(out, name) || SameName(e, name);
      assert forall i :: 0 < i < |list| ==> list[1..][i - 1] == list[i];
    }
  }

  /** Cleaning changes nobody's stickiness: an app is on the cleaned list exactly when
      some entry, trimmed, names it. */
  lemma CleanKeepsMeaning(list: seq<string>, app: string)
    ensures IsSticky(Clean(list), app) <==>
              app != "" && exists i :: 0 <= i < |list| && SameName(Trim(list[i]), app)
  {
    if app != "" { CleanFromLists([], list, app); }
  }
}
