/** findParents: the candidate list built from the library's parent lookups,
    keeping positive ids whose nuclide code (zzaaam) is even. */
module ParentSearch {
  import opened Outcomes

  /** All ids the lookup returns for the first n observed energies, in peak
      order and then lookup order. */
  function Lookups(energies: seq<real>, widths: seq<real>,
                   parentsOf: (real, real) -> seq<int>, n: nat): seq<int>
    requires n <= |energies| <= |widths|
  {
    if n == 0 then [] else Lookups(energies, widths, parentsOf, n - 1) + parentsOf(energies[n - 1], widths[n - 1])
  }

  /** An id whose code lookup is reached (positive) but raises. */
  predicate Undecodable(j: int, zzaaam: int -> Option<int>) {
    j > 0 && zzaaam(j).None?
  }

  /** An id that findParents keeps. */
  predicate Kept(j: int, zzaaam: int -> Option<int>) {
    j > 0 && zzaaam(j).Some? && zzaaam(j).value % 2 == 0
  }

  /** The filtering loop's outcome over ids: the first undecodable id aborts. */
  function Keep(ids: seq<int>, zzaaam: int -> Option<int>): Result<seq<int>>
  {
    if ids == [] then Ok([])
    else
      match Keep(ids[..|ids| - 1], zzaaam)
      case Err(f) => Err(f)
      case Ok(kept) =>
        var j := ids[|ids| - 1];
        if Undecodable(j, zzaaam) then Err(LookupFailed(j))
        else if Kept(j, zzaaam) then Ok(kept + [j]) else Ok(kept)
  }

  /** Reference filter: the kept ids, in order, duplicates retained. */
  function Selected(ids: seq<int>, zzaaam: int -> Option<int>): seq<int>
  {
    if ids == [] then []
    else Selected(ids[..|ids| - 1], zzaaam) + (if Kept(ids[|ids| - 1], zzaaam) then [ids[|ids| - 1]] else [])
  }

  predicate IsSubsequence(a: seq<int>, b: seq<int>)
  {
    a == [] ||
    (b != [] &&
      ((a[|a| - 1] == b[|b| - 1] && IsSubsequence(a[..|a| - 1], b[..|b| - 1])) ||
       IsSubsequence(a, b[..|b| - 1])))
  }

  /** findParents, loop for loop; a raising code lookup propagates. */
  method FindParents(energies: seq<real>, widths: seq<real>,
                     parentsOf: (real, real) -> seq<int>, zzaaam: int -> Option<int>)
    returns (r: Result<seq<int>>)
    requires |energies| <= |widths|
    ensures r == Keep(Lookups(energies, widths, parentsOf, |energies|), zzaaam)
  {
    var elements := [];
    var i := 0;
    while i < |energies|
      invariant i <= |energies|
      invariant Keep(Lookups(energies, widths, parentsOf, i), zzaaam) == Ok(elements)
    {
      ghost var before := Lookups(energies, widths, parentsOf, i);
      var row := parentsOf(energies[i], widths[i]);
      assert Lookups(energies, widths, parentsOf, i + 1) == before + row;
      var outcome := FilterRow(before, row, elements, zzaaam);
      if outcome.Err? {
        LookupsPrefix(energies, widths, parentsOf, i + 1, |energies|);
        KeepErrPrefix(before + row, Lookups(energies, widths, parentsOf, |energies|), zzaaam);
        return outcome;
      }
      elements := outcome.value;
      i := i + 1;
    }
    r := Ok(elements);
  }

  /** The inner loop of findParents over the ids looked up for one peak,
      continuing from the ids kept so far. */
  method FilterRow(ghost before: seq<int>, row: seq<int>, elements: seq<int>, zzaaam: int -> Option<int>)
    returns (r: Result<seq<int>>)
    requires Keep(before, zzaaam) == Ok(elements)
    ensures r == Keep(before + row, zzaaam)
  {
    var kept := elements;
    var j := 0;
    assert before + row[..0] == before;
    while j < |row|
      invariant j <= |row|
      invariant Keep(before + row[..j], zzaaam) == Ok(kept)
    {
      var id := row[j];
      ghost var seen := before + row[..j];
      assert seen + [id] == before + row[..j + 1];
      KeepStep(seen, id, zzaaam);
      if id > 0 {
        match zzaaam(id)
        case None =>
          ErrInRow(before, row, j, zzaaam);
          return Err(LookupFailed(id));
        case Some(code) =>
          if code % 2 == 0 {
            kept := kept + [id];
          }
      }
      j := j + 1;
    }
    assert row[..|row|] == row;
    r := Ok(kept);
  }

  /** One more id: the loop body's effect on the outcome. */
  lemma KeepStep(ids: seq<int>, j: int, zzaaam: int -> Option<int>)
    ensures Keep(ids + [j], zzaaam) ==
      match Keep(ids, zzaaam)
      case Err(f) => Err(f)
      case Ok(kept) =>
        if Undecodable(j, zzaaam) then Err(LookupFailed(j))
        else if Kept(j, zzaaam) then Ok(kept + [j]) else Ok(kept)
  {
    assert (ids + [j])[..|ids + [j]| - 1] == ids;
  }

  /** A raise at row[j] decides the outcome of the whole row. */
  lemma ErrInRow(before: seq<int>, row: seq<int>, j: nat, zzaaam: int -> Option<int>)
    requires j < |row|
    requires Keep(before + row[..j + 1], zzaaam).Err?
    ensures Keep(before + row, zzaaam) == Keep(before + row[..j + 1], zzaaam)
  {
    SplitRow(before, row, j);
    KeepErrPersists(before + row[..j + 1], row[j + 1..], zzaaam);
  }

  lemma SplitRow(before: seq<int>, row: seq<int>, j: nat)
    requires j < |row|
    ensures before + row == (before + row[..j + 1]) + row[j + 1..]
  {
    assert row == row[..j + 1] + row[j + 1..];
  }

  lemma KeepErrPrefix(ids: seq<int>, longer: seq<int>, zzaaam: int -> Option<int>)
    requires ids <= longer && Keep(ids, zzaaam).Err?
    ensures Keep(longer, zzaaam) == Keep(ids, zzaaam)
  {
    assert longer == ids + longer[|ids|..];
    KeepErrPersists(ids, longer[|ids|..], zzaaam);
  }

  lemma {:induction false} LookupsPrefix(energies: seq<real>, widths: seq<real>,
                                         parentsOf: (real, real) -> seq<int>, m: nat, n: nat)
    requires m <= n <= |energies| <= |widths|
    ensures Lookups(energies, widths, parentsOf, m) <= Lookups(energies, widths, parentsOf, n)
  {
    if m < n { LookupsPrefix(energies, widths, parentsOf, m, n - 1); }
  }

  /** Once the loop has raised, later ids do not matter. */
  lemma {:induction false} KeepErrPersists(ids: seq<int>, more: seq<int>, zzaaam: int -> Option<int>)
    requires Keep(ids, zzaaam).Err?
    ensures Keep(ids + more, zzaaam) == Keep(ids, zzaaam)
  {
    if more != [] {
      var init := more[..|more| - 1];
      KeepErrPersists(ids, init, zzaaam);
      assert ids + more != [];
      assert (ids + more)[..|ids + more| - 1] == ids + init;
    } else {
      assert ids + more == ids;
    }
  }

  /** The loop succeeds exactly when every positive id decodes, and then
      returns the reference filter; otherwise it reports the first positive
      id that does not decode. */
  lemma {:induction false} KeepIsSelected(ids: seq<int>, zzaaam: int -> Option<int>)
    ensures Keep(ids, zzaaam).Ok? <==> (forall j :: j in ids ==> !Undecodable(j, zzaaam))
    ensures Keep(ids, zzaaam).Ok? ==> Keep(ids, zzaaam).value == Selected(ids, zzaaam)
    ensures Keep(ids, zzaaam).Err? ==>
      exists i :: 0 <= i < |ids| && Keep(ids, zzaaam) == Err(LookupFailed(ids[i])) &&
        Undecodable(ids[i], zzaaam) && forall j :: j in ids[..i] ==> !Undecodable(j, zzaaam)
  {
    if ids != [] {
      var init := ids[..|ids| - 1];
      KeepIsSelected(init, zzaaam);
      assert ids == init + [ids[|ids| - 1]];
      if Keep(init, zzaaam).Err? {
        var i :| 0 <= i < |init| && Keep(init, zzaaam) == Err(LookupFailed(init[i])) &&
          Undecodable(init[i], zzaaam) && forall j :: j in init[..i] ==> !Undecodable(j, zzaaam);
        assert ids[..i] == init[..i];
      } else if Undecodable(ids[|ids| - 1], zzaaam) {
        assert ids[..|ids| - 1] == init;
      }
    }
  }

  /** Every kept id is positive with an even code. */
  lemma {:induction false} SelectedAreKept(ids: seq<int>, zzaaam: int -> Option<int>)
    ensures forall j :: j in Selected(ids, zzaaam) ==> j in ids && Kept(j, zzaaam)
  {
    if ids != [] {
      SelectedAreKept(ids[..|ids| - 1], zzaaam);
      assert ids == ids[..|ids| - 1] + [ids[|ids| - 1]];
    }
  }

  /** Duplicates are retained: a kept id occurs as often as in the lookups. */
  lemma {:induction false} SelectedMultiplicity(ids: seq<int>, zzaaam: int -> Option<int>, x: int)
    ensures multiset(Selected(ids, zzaaam))[x] == if Kept(x, zzaaam) then multiset(ids)[x] else 0
  {
    if ids != [] {
      var init := ids[..|ids| - 1];
      SelectedMultiplicity(init, zzaaam, x);
      assert ids == init + [ids[|ids| - 1]];
    }
  }

  /** Lookup order is kept. */
  lemma {:induction false} SelectedIsSubsequence(ids: seq<int>, zzaaam: int -> Option<int>)
    ensures IsSubsequence(Selected(ids, zzaaam), ids)
  {
    if ids != [] {
      var init := ids[..|ids| - 1];
      SelectedIsSubsequence(init, zzaaam);
      var s := Selected(ids, zzaaam);
      if Kept(ids[|ids| - 1], zzaaam) {
        assert s[..|s| - 1] == Selected(init, zzaaam) && s[|s| - 1] == ids[|ids| - 1];
      } else {
        assert s == Selected(init, zzaaam);
      }
    }
  }
}
