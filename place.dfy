/**
  The palette of the map editor's placement tool: a list of prefabs and the
  index of the selected one. Picking a prefab selects its first entry or
  appends it; removing entries keeps the selection on the same entry;
  clicking on the map places the selected prefab, when there is one.
*/
module Place {

  import opened Wrappers
  import opened Atoms

  /** A map prefab: a type path and its variable overrides, in order. */
  datatype Prefab = Prefab(path: string, vars: seq<(string, Constant)>)

  /** A palette entry. Its icon and its editor window are display state and
      are not modelled. */
  datatype PaletteEntry = PaletteEntry(fab: Prefab)

  /** The index of the first entry at or after `from` holding `fab`, if any. */
  function IndexOf(palette: seq<PaletteEntry>, fab: Prefab, from: nat): (r: Option<nat>)
    requires from <= |palette|
    ensures r.Some? ==> from <= r.value < |palette| && palette[r.value].fab == fab
    ensures r.Some? ==> forall j :: from <= j < r.value ==> palette[j].fab != fab
    ensures r.None? ==> forall j :: from <= j < |palette| ==> palette[j].fab != fab
    decreases |palette| - from
  {
    if from == |palette| then None
    else if palette[from].fab == fab then Some(from)
    else IndexOf(palette, fab, from + 1)
  }

  // ---------------------------------------------------------------------
  // Removing entries

  /** The entries whose flag in `keep` is set, in order. */
  function Kept(palette: seq<PaletteEntry>, keep: seq<bool>): (r: seq<PaletteEntry>)
    requires |keep| == |palette|
    ensures |r| <= |palette|
    ensures forall k :: 0 <= k < |r| ==> r[k] in palette
  {
    if palette == [] then []
    else
      var n := |palette| - 1;
      Kept(palette[..n], keep[..n]) + (if keep[n] then [palette[n]] else [])
  }

  /** How many of the first `n` entries are removed. */
  function RemovedBefore(keep: seq<bool>, n: nat): (r: nat)
    requires n <= |keep|
    ensures r <= n
  {
    if n == 0 then 0 else RemovedBefore(keep, n - 1) + (if keep[n - 1] then 0 else 1)
  }

  /** The selection after removal: it moves down by one for every removed
      entry before it. */
  function AdjustedIndex(keep: seq<bool>, current: nat): (r: nat)
    ensures r <= current
    ensures current <= |keep| ==> r <= |keep| - RemovedBefore(keep, |keep|)
  {
    var n := if current < |keep| then current else |keep|;
    RemovedBeforeGrowth(keep, n, |keep|);
    current - RemovedBefore(keep, n)
  }

  /** The selection after removal as the source computes it: walking the
      entries in their original numbering, it moves down by one for each
      removed entry whose ORIGINAL index is below the selection as adjusted
      so far. */
  function AdjustedIndexAsWritten(keep: seq<bool>, i: nat, current: nat): (r: nat)
    requires i <= |keep|
    ensures r <= current
    ensures current - r <= |keep| - i
    decreases |keep| - i
  {
    if i == |keep| then current
    else AdjustedIndexAsWritten(keep, i + 1, if !keep[i] && current > i then current - 1 else current)
  }

  lemma {:induction false} KeptLength(palette: seq<PaletteEntry>, keep: seq<bool>)
    requires |keep| == |palette|
    ensures |Kept(palette, keep)| == |palette| - RemovedBefore(keep, |keep|)
  {
    if palette != [] {
      var n := |palette| - 1;
      KeptLength(palette[..n], keep[..n]);
      RemovedBeforePrefix(keep, n, n);
    }
  }

  /** Counting the removed entries of a prefix of `keep`. */
  lemma {:induction false} RemovedBeforePrefix(keep: seq<bool>, m: nat, n: nat)
    requires n <= m <= |keep|
    ensures RemovedBefore(keep[..m], n) == RemovedBefore(keep, n)
  {
    if n > 0 {
      RemovedBeforePrefix(keep, m, n - 1);
    }
  }

  /** No more entries are removed in a range than the range holds. */
  lemma {:induction false} RemovedBeforeGrowth(keep: seq<bool>, a: nat, b: nat)
    requires a <= b <= |keep|
    ensures RemovedBefore(keep, a) <= RemovedBefore(keep, b) <= RemovedBefore(keep, a) + (b - a)
    decreases b - a
  {
    if a < b {
      RemovedBeforeGrowth(keep, a, b - 1);
    }
  }

  /** The kept entries of a prefix are a prefix of the kept entries. */
  lemma {:induction false} KeptPrefix(palette: seq<PaletteEntry>, keep: seq<bool>, j: nat)
    requires |keep| == |palette| && j <= |palette|
    ensures |Kept(palette[..j], keep[..j])| <= |Kept(palette, keep)|
    ensures Kept(palette, keep)[..|Kept(palette[..j], keep[..j])|] == Kept(palette[..j], keep[..j])
    decreases |palette| - j
  {
    if j < |palette| {
      var n := |palette| - 1;
      assert palette[..n][..j] == palette[..j] && keep[..n][..j] == keep[..j];
      KeptPrefix(palette[..n], keep[..n], j);
    } else {
      assert palette[..j] == palette && keep[..j] == keep;
    }
  }

  /** Removing entries keeps the selection on the entry it was on, when
      that entry is kept. */
  lemma SelectionFollowsEntry(palette: seq<PaletteEntry>, keep: seq<bool>, current: nat)
    requires |keep| == |palette| && current < |palette| && keep[current]
    ensures AdjustedIndex(keep, current) < |Kept(palette, keep)|
    ensures Kept(palette, keep)[AdjustedIndex(keep, current)] == palette[current]
  {
    var j := current + 1;
    KeptPrefix(palette, keep, j);
    assert palette[..j][..current] == palette[..current] && keep[..j][..current] == keep[..current];
    assert Kept(palette[..j], keep[..j]) == Kept(palette[..current], keep[..current]) + [palette[current]];
    KeptLength(palette[..current], keep[..current]);
    RemovedBeforePrefix(keep, current, current);
  }

  /** Scanning a stretch of kept entries leaves the as-written index alone. */
  lemma {:induction false} AsWrittenSkipsKept(keep: seq<bool>, i: nat, j: nat, current: nat)
    requires i <= j <= |keep|
    requires forall k :: i <= k < j ==> keep[k]
    ensures AdjustedIndexAsWritten(keep, i, current) == AdjustedIndexAsWritten(keep, j, current)
    decreases j - i
  {
    if i < j {
      AsWrittenSkipsKept(keep, i + 1, j, current);
    }
  }

  /** A single removal in one pass is adjusted correctly as written: the
      corrected and the written computation agree whenever at most one entry
      is removed. */
  lemma AsWrittenAgreesOnSingleRemoval(keep: seq<bool>, current: nat)
    requires forall a, b :: 0 <= a < b < |keep| ==> keep[a] || keep[b]
    ensures AdjustedIndexAsWritten(keep, 0, current) == AdjustedIndex(keep, current)
  {
    var n := if current < |keep| then current else |keep|;
    if forall k :: 0 <= k < |keep| ==> keep[k] {
      AsWrittenSkipsKept(keep, 0, |keep|, current);
      NoneRemoved(keep, n);
    } else {
      var r :| 0 <= r < |keep| && !keep[r];
      AsWrittenSkipsKept(keep, 0, r, current);
      var next := if current > r then current - 1 else current;
      AsWrittenSkipsKept(keep, r + 1, |keep|, next);
      OneRemoved(keep, r, n);
    }
  }

  lemma {:induction false} NoneRemoved(keep: seq<bool>, n: nat)
    requires n <= |keep|
    requires forall k :: 0 <= k < n ==> keep[k]
    ensures RemovedBefore(keep, n) == 0
  {
    if n > 0 {
      NoneRemoved(keep, n - 1);
    }
  }

  lemma {:induction false} OneRemoved(keep: seq<bool>, r: nat, n: nat)
    requires r < |keep| && !keep[r] && n <= |keep|
    requires forall k :: 0 <= k < |keep| && k != r ==> keep[k]
    ensures RemovedBefore(keep, n) == if r < n then 1 else 0
  {
    if n > 0 {
      OneRemoved(keep, r, n - 1);
    }
  }

  /** Two removals before the selection in one pass lose it as written:
      with three entries, the third selected and the first two removed, the
      written computation leaves the index at 1 on a palette of one entry,
      where the selected entry is now at 0. */
  lemma AsWrittenLosesSelection(palette: seq<PaletteEntry>)
    requires |palette| == 3
    ensures AdjustedIndexAsWritten([false, false, true], 0, 2) == 1
    ensures AdjustedIndex([false, false, true], 2) == 0
    ensures Kept(palette, [false, false, true]) == [palette[2]]
  {
    var keep := [false, false, true];
    assert keep[..2] == [false, false] && keep[..2][..1] == [false] && keep[..2][..1][..0] == [];
    assert RemovedBefore(keep, 2) == 2;
    var p2, p1 := palette[..2], palette[..2][..1];
    assert Kept(p1[..0], []) == [];
    assert Kept(p1, [false]) == [];
    assert Kept(p2, [false, false]) == [];
  }

  // ---------------------------------------------------------------------
  // The tool

  class PlaceTool {
    var palette: seq<PaletteEntry>
    var current: nat

    /** An empty palette, selecting index 0. */
    constructor ()
      ensures palette == [] && current == 0
    {
      palette := [];
      current := 0;
    }

    /** Selects the prefab: its first entry if the palette holds it,
        otherwise a new entry appended at the end. */
    method Pick(fab: Prefab)
      modifies this
      ensures match IndexOf(old(palette), fab, 0)
              case Some(i) => palette == old(palette) && current == i
              case None => palette == old(palette) + [PaletteEntry(fab)] && current == |old(palette)|
      ensures current < |palette| && palette[current].fab == fab
      ensures |palette| >= |old(palette)| && palette[..|old(palette)|] == old(palette)
    {
      for i := 0 to |palette|
        invariant forall j :: 0 <= j < i ==> palette[j].fab != fab
      {
        if palette[i].fab == fab {
          current := i;
          return;
        }
      }
      current := |palette|;
      palette := palette + [PaletteEntry(fab)];
    }

    /** Adds a fresh prefab of a type from the add popup and selects it. */
    method Add(path: string)
      modifies this
      ensures palette == old(palette) + [PaletteEntry(Prefab(path, []))]
      ensures current == |old(palette)| && palette[current].fab.path == path
    {
      current := |palette|;
      palette := palette + [PaletteEntry(Prefab(path, []))];
    }

    /** Selects the entry the user clicked in the palette. */
    method Select(i: nat)
      requires i < |palette|
      modifies this
      ensures palette == old(palette) && current == i
    {
      current := i;
    }

    /** Replaces the prefab of entry `i` with the edited copy from its
        editor window; the selection stays where it is. */
    method Apply(i: nat, edited: Prefab)
      requires i < |palette|
      modifies this
      ensures palette == old(palette)[i := PaletteEntry(edited)] && current == old(current)
    {
      palette := palette[i := PaletteEntry(edited)];
    }

    /** Removes the entries whose flag in `keep` is clear, moving the
        selection down by one for every removed entry before it. */
    method RemoveEntries(keep: seq<bool>)
      requires |keep| == |palette|
      modifies this
      ensures palette == Kept(old(palette), keep)
      ensures current == AdjustedIndex(keep, old(current))
      ensures old(current) < |keep| && keep[old(current)] ==>
        current < |palette| && palette[current] == old(palette)[old(current)]
    {
      ghost var before := palette;
      ghost var selected := current;
      var kept: seq<PaletteEntry> := [];
      var i := 0;
      while i < |palette|
        invariant palette == before && 0 <= i <= |palette|
        invariant kept == Kept(palette[..i], keep[..i])
        invariant |kept| == i - RemovedBefore(keep, i)
        invariant current == selected - RemovedBefore(keep, if selected < i then selected else i)
      {
        assert palette[..i + 1][..i] == palette[..i] && keep[..i + 1][..i] == keep[..i];
        RemovedBeforeGrowth(keep, if selected < i then selected else i, i);
        // the entry's index in the compacted list is |kept|
        if !keep[i] && current > |kept| {
          current := current - 1;
        }
        if keep[i] {
          kept := kept + [palette[i]];
        }
        i := i + 1;
      }
      assert palette[..i] == palette && keep[..i] == keep;
      palette := kept;
      if selected < |keep| && keep[selected] {
        SelectionFollowsEntry(before, keep, selected);
      }
    }

    /** The prefab a click on the map places: the selected entry's, or none
        when the selection is out of range. */
    method Click(loc: Loc) returns (placed: Option<Prefab>)
      ensures placed.Some? <==> current < |palette|
      ensures placed.Some? ==> placed.value == palette[current].fab
    {
      if current < |palette| {
        placed := Some(palette[current].fab);
      } else {
        placed := None;
      }
    }
  }
}
