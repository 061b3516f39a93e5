/** findPeaks: discover candidates, score each one against the observed
    intensities, update the leaderboards and the champion candidate by
    candidate, and pick the names presentInfo would print.  The nuclear-data
    library is a value of function fields. */
module PeakFinder {
  import opened Outcomes
  import opened IsotopeNames
  import opened PeakCounting
  import opened ParentSearch
  import opened Leaderboard
  import opened Champion
  import opened Presentation

  /** The library queries the source makes, as uninterpreted total functions. */
  datatype NuclearData = NuclearData(
    gammaParent: (real, real) -> seq<int>,     // ids with a gamma line in the energy window
    gammaLines: int -> seq<KnownLine>,         // the known line table of an id
    name: int -> string,                       // display name, e.g. "Cs137" or "Tc99M"
    naturalAbundance: int -> real,             // natural abundance of an id
    abundanceOfName: string -> real,           // natural abundance looked up by name
    atomicMass: int -> real,                   // atomic mass of an id
    zzaaam: int -> Option<int>)                // nuclide code of an id; None when it raises

  /** The library renders every id as a non-empty name ending in a digit or 'M'. */
  ghost predicate NamesWellFormed(db: NuclearData) {
    forall id :: WellFormedName(db.name(id))
  }

  /** Every id the library is asked about has a well-formed name. */
  lemma LibraryName(db: NuclearData, id: int)
    requires NamesWellFormed(db)
    ensures WellFormedName(db.name(id))
  {
  }

  /** The one way a candidate step indexes an empty list: checkCountsLists on
      a metastable candidate before anything was staged, or on a light-
      numbered candidate whose natural lists are still empty. */
  predicate StepInBounds(b: Boards, abundance: real, name: string, mass: real)
    requires WellFormedName(name)
  {
    if IsMetastable(name) then
      0.0 < abundance < 1.0 ==> |b.counts| > 0
    else
      (0.0 < abundance < 1.0 && name !in Retained(b.countNames) &&
       NaturalCountsEligible(name) && mass > LightMass) ==> |b.naturalCounts| > 0
  }

  /** StepInBounds is exactly the condition under which the three list
      routines of one step stay within their lists. */
  lemma StepInBoundsIsExact(b: Boards, score: real, abundance: real, name: string, mass: real)
    requires WellFormed(b) && WellFormedName(name)
    ensures AbundanceInBounds(Staged(b, score, abundance, name, mass), abundance, name, mass)
    ensures StepInBounds(b, abundance, name, mass) <==>
            CountsInBounds(Staged(b, score, abundance, name, mass), abundance, name)
  {
    var s := Staged(b, score, abundance, name, mass);
    if !IsMetastable(name) {
      StagedShape(b, score, abundance, name, mass);
      var names := s.countNames;
      assert names[..|names| - 1] == Retained(b.countNames);
      assert Seen(names) <==> name in Retained(b.countNames);
    } else if |b.counts| == 0 {
      assert !Seen(b.countNames);
    }
  }

  /** The leaderboards after one candidate: addToLists, then
      checkAbundanceLists, then checkCountsLists. */
  function StepBoards(b: Boards, score: real, abundance: real, name: string, mass: real): (r: Boards)
    requires WellFormed(b) && WellFormedName(name) && StepInBounds(b, abundance, name, mass)
    ensures WellFormed(r)
  {
    StepInBoundsIsExact(b, score, abundance, name, mass);
    var staged := Staged(b, score, abundance, name, mass);
    var checked := AbundanceChecked(staged, abundance, name, mass);
    CountsChecked(checked, abundance, name, score)
  }

  /** A metastable candidate never reaches a leaderboard name list, yet while
      the staged name is new its score is promoted in bC under that staged
      (earlier) name. */
  lemma MetastableScoreFiledUnderStagedName(b: Boards, score: real, abundance: real, name: string, mass: real)
    requires WellFormed(b) && WellFormedName(name) && StepInBounds(b, abundance, name, mass)
    requires IsMetastable(name)
    ensures var r := StepBoards(b, score, abundance, name, mass);
      && name !in r.countNames && name !in r.abundanceNames
      && name !in r.naturalCountNames && name !in r.naturalAbundanceNames
      && r.abundances == b.abundances && r.naturalAbundances == b.naturalAbundances
      && (CountsEligible(b, abundance) ==> (r.counts, r.countNames) == Promote(b.counts, b.countNames, score))
  {
    var r := StepBoards(b, score, abundance, name, mass);
    assert !EndsInDigit(name);
    assert WellFormed(r);
  }

  /** Names may repeat in the ranked slots: from empty lists, Co60 is
      staged, then K40 beats it and its name is copied over Co60's slot
      while K40 also stays in the staging slot; once Cs137 is staged behind
      them, both ranked slots of bAE hold K40. */
  lemma NamesMayRepeat()
    ensures var b1 := StepBoards(Empty, 0.0, 0.5, "Co60", 60.0);
      var b2 := StepBoards(b1, 0.0, 0.7, "K40", 40.0);
      var b3 := StepBoards(b2, 0.0, 0.1, "Cs137", 137.0);
      && |b3.abundanceNames| == 3
      && b3.abundanceNames[0] == b3.abundanceNames[1] == "K40"
  {
    var b1 := StepBoards(Empty, 0.0, 0.5, "Co60", 60.0);
    RepeatFirstStep();
    var b2 := StepBoards(b1, 0.0, 0.7, "K40", 40.0);
    RepeatSecondStep(b1);
    RepeatThirdStep(b2);
  }

  lemma RepeatFirstStep()
    ensures var b1 := StepBoards(Empty, 0.0, 0.5, "Co60", 60.0);
      b1.abundances == [0.5] && b1.abundanceNames == ["Co60"]
  {
    var staged := Staged(Empty, 0.0, 0.5, "Co60", 60.0);
    assert staged.abundances == [0.5] && staged.abundanceNames == ["Co60"];
  }

  lemma RepeatSecondStep(b1: Boards)
    requires WellFormed(b1) && b1.abundances == [0.5] && b1.abundanceNames == ["Co60"]
    ensures var b2 := StepBoards(b1, 0.0, 0.7, "K40", 40.0);
      b2.abundances == [0.7, 0.7] && b2.abundanceNames == ["K40", "K40"]
  {
    var staged := Staged(b1, 0.0, 0.7, "K40", 40.0);
    assert staged.abundances == [0.5, 0.7] && staged.abundanceNames == ["Co60", "K40"];
    assert MinSlot(staged.abundances) == 0;
  }

  lemma RepeatThirdStep(b2: Boards)
    requires WellFormed(b2) && b2.abundances == [0.7, 0.7] && b2.abundanceNames == ["K40", "K40"]
    ensures StepBoards(b2, 0.0, 0.1, "Cs137", 137.0).abundanceNames == ["K40", "K40", "Cs137"]
  {
    var staged := Staged(b2, 0.0, 0.1, "Cs137", 137.0);
    assert staged.abundances == [0.7, 0.7, 0.1] && staged.abundanceNames == ["K40", "K40", "Cs137"];
    assert MinSlot(staged.abundances) == 0;
  }

  /** One candidate of findPeaks on values: the two ways it raises (an empty
      line table divides by zero, a list routine indexes an empty list), else
      the new boards and champion. */
  ghost function RankStep(b: Boards, c: Champion, element: int, obs: seq<real>, unc: seq<real>,
                          db: NuclearData): (r: Result<(Boards, Champion)>)
    requires WellFormed(b) && ValidChampion(c) && |obs| <= |unc| && NamesWellFormed(db)
    ensures r.Err? <==> (|db.gammaLines(element)| == 0 ||
      !StepInBounds(b, db.naturalAbundance(element), db.name(element), db.atomicMass(element)))
    ensures r.Ok? ==> WellFormed(r.value.0) && ValidChampion(r.value.1)
  {
    var lines := db.gammaLines(element);
    var name := db.name(element);
    var abundance := db.naturalAbundance(element);
    var mass := db.atomicMass(element);
    if |lines| == 0 then Err(DivisionByZero)
    else if !StepInBounds(b, abundance, name, mass) then Err(IndexOutOfRange)
    else
      var score := Score(lines, obs, unc);
      Ok((StepBoards(b, score, abundance, name, mass), NextChampion(c, score, abundance, name, db.abundanceOfName)))
  }

  /** The candidate loop of findPeaks on values: RankStep from the front,
      stopping at the first raise. */
  ghost function RankFold(b: Boards, c: Champion, candidates: seq<int>, obs: seq<real>, unc: seq<real>,
                          db: NuclearData): (r: Result<(Boards, Champion)>)
    requires WellFormed(b) && ValidChampion(c) && |obs| <= |unc| && NamesWellFormed(db)
    ensures r.Ok? ==> WellFormed(r.value.0) && ValidChampion(r.value.1)
    decreases |candidates|
  {
    if candidates == [] then Ok((b, c))
    else
      match RankStep(b, c, candidates[0], obs, unc, db)
      case Err(f) => Err(f)
      case Ok(next) => RankFold(next.0, next.1, candidates[1..], obs, unc, db)
  }

  /** The scores of the candidates, an empty line table scoring 0. */
  function ScoresOf(candidates: seq<int>, obs: seq<real>, unc: seq<real>, db: NuclearData): (r: seq<real>)
    requires |obs| <= |unc|
    ensures |r| == |candidates|
  {
    if candidates == [] then []
    else
      var lines := db.gammaLines(candidates[0]);
      [if |lines| == 0 then 0.0 else Score(lines, obs, unc)] + ScoresOf(candidates[1..], obs, unc, db)
  }

  function AbundancesOf(candidates: seq<int>, db: NuclearData): (r: seq<real>)
    ensures |r| == |candidates|
    ensures forall k :: 0 <= k < |r| ==> r[k] == db.naturalAbundance(candidates[k])
  {
    if candidates == [] then [] else [db.naturalAbundance(candidates[0])] + AbundancesOf(candidates[1..], db)
  }

  function NamesOf(candidates: seq<int>, db: NuclearData): (r: seq<string>)
    ensures |r| == |candidates|
    ensures forall k :: 0 <= k < |r| ==> r[k] == db.name(candidates[k])
  {
    if candidates == [] then [] else [db.name(candidates[0])] + NamesOf(candidates[1..], db)
  }

  /** The champion the candidate loop ends with is the fold Run of the
      champion update over the candidates' scores, abundances and names. */
  lemma {:induction false} RankFoldChampionIsRun(b: Boards, c: Champion, candidates: seq<int>, obs: seq<real>,
                                                 unc: seq<real>, db: NuclearData)
    requires WellFormed(b) && ValidChampion(c) && |obs| <= |unc| && NamesWellFormed(db)
    decreases |candidates|
    ensures forall k :: 0 <= k < |candidates| ==> WellFormedName(NamesOf(candidates, db)[k])
    ensures RankFold(b, c, candidates, obs, unc, db).Ok? ==>
      RankFold(b, c, candidates, obs, unc, db).value.1 ==
        Run(c, ScoresOf(candidates, obs, unc, db), AbundancesOf(candidates, db), NamesOf(candidates, db),
            db.abundanceOfName)
  {
    forall k | 0 <= k < |candidates| ensures WellFormedName(NamesOf(candidates, db)[k]) {
      LibraryName(db, candidates[k]);
    }
    if candidates != [] {
      var step := RankStep(b, c, candidates[0], obs, unc, db);
      if step.Ok? {
        var next := step.value;
        RankFoldChampionIsRun(next.0, next.1, candidates[1..], obs, unc, db);
        var scores := ScoresOf(candidates, obs, unc, db);
        var abundances := AbundancesOf(candidates, db);
        var names := NamesOf(candidates, db);
        assert scores[1..] == ScoresOf(candidates[1..], obs, unc, db);
        assert abundances[1..] == AbundancesOf(candidates[1..], db);
        assert names[1..] == NamesOf(candidates[1..], db);
        assert next.1 == NextChampion(c, scores[0], abundances[0], names[0], db.abundanceOfName);
      }
    }
  }

  /** After the candidate loop from the initial champion, the champion is
      the placeholder or a candidate with abundance strictly between 0 and 1
      and a non-metastable name. */
  lemma RankFoldOutcome(b: Boards, candidates: seq<int>, obs: seq<real>, unc: seq<real>, db: NuclearData)
    requires WellFormed(b) && |obs| <= |unc| && NamesWellFormed(db)
    ensures var f := RankFold(b, Initial, candidates, obs, unc, db);
      f.Ok? && f.value.1.bestElement != FirstRun ==>
        exists k :: 0 <= k < |candidates| && f.value.1.bestElement == db.name(candidates[k]) &&
          0.0 < db.naturalAbundance(candidates[k]) < 1.0 && !IsMetastable(db.name(candidates[k]))
  {
    var f := RankFold(b, Initial, candidates, obs, unc, db);
    RankFoldChampionIsRun(b, Initial, candidates, obs, unc, db);
    var scores := ScoresOf(candidates, obs, unc, db);
    var abundances := AbundancesOf(candidates, db);
    var names := NamesOf(candidates, db);
    RunOutcome(Initial, scores, abundances, names, db.abundanceOfName);
    if f.Ok? && f.value.1.bestElement != FirstRun {
      var k :| 0 <= k < |names| && f.value.1 == Champion(scores[k], names[k]) &&
               0.0 < abundances[k] < 1.0 && !IsMetastable(names[k]);
      assert f.value.1.bestElement == db.name(candidates[k]);
    }
  }

  /** presentInfo's part of the outcome: the 'FirstRun' placeholder raises
      when decoded, an empty bAEN raises when indexed, otherwise the selection. */
  function Presented(f: Result<(Boards, Champion)>): (r: Result<seq<string>>)
    requires f.Ok? ==> WellFormed(f.value.0) && ValidChampion(f.value.1)
    ensures f.Err? ==> r == Err(f.failure)
    ensures r.Ok? ==> 2 <= |r.value| <= 3 && AllEndInDigit(r.value[1..])
    ensures r.Ok? ==> r.value[0] == "" || EndsInDigit(r.value[0])
    ensures r.Ok? ==> f.Ok? && f.value.1.bestElement in r.value
  {
    match f
    case Err(e) => Err(e)
    case Ok((b, c)) =>
      if c.bestElement == FirstRun then Err(NotDecodable)
      else if |b.naturalAbundanceNames| == 0 then Err(IndexOutOfRange)
      else
        var shown := Selection(c.bestElement, b.naturalAbundances, b.naturalAbundanceNames);
        HeadlineIsFirstSmallest(b.naturalAbundances, b.naturalAbundanceNames,
                                GetNum(c.bestElement).value, |b.naturalAbundanceNames|);
        Ok(shown)
  }

  /** The whole analysis on values: findParents, the candidate loop from
      empty boards, then presentInfo. */
  ghost function Analysis(energies: seq<real>, widths: seq<real>, obs: seq<real>, unc: seq<real>,
                          db: NuclearData): Result<seq<string>>
    requires |energies| <= |widths| && |obs| <= |unc| && NamesWellFormed(db)
  {
    match Keep(Lookups(energies, widths, db.gammaParent, |energies|), db.zzaaam)
    case Err(f) => Err(f)
    case Ok(candidates) => Presented(RankFold(Empty, Initial, candidates, obs, unc, db))
  }

  /** The per-candidate body of findPeaks. */
  method Step(board: Leaderboards, c: Champion, lines: seq<KnownLine>, name: string,
              abundance: real, mass: real, obs: seq<real>, unc: seq<real>,
              abundanceOf: string -> real)
    returns (next: Champion)
    requires board.Valid() && ValidChampion(c)
    requires |lines| > 0 && |obs| <= |unc| && WellFormedName(name)
    requires StepInBounds(board.State(), abundance, name, mass)
    modifies board
    ensures board.Valid()
    ensures board.State() == StepBoards(old(board.State()), Score(lines, obs, unc), abundance, name, mass)
    ensures next == NextChampion(c, Score(lines, obs, unc), abundance, name, abundanceOf)
  {
    var count := CountIntensityPeaks(lines, obs, unc);
    var score := count as real / |lines| as real;
    ghost var b0 := board.State();
    StepInBoundsIsExact(b0, score, abundance, name, mass);
    board.AddToLists(score, abundance, name, mass);
    ghost var b1 := board.State();
    assert b1 == Staged(b0, score, abundance, name, mass);
    board.CheckAbundanceLists(abundance, name, mass);
    assert board.State() == AbundanceChecked(b1, abundance, name, mass);
    board.CheckCountsLists(abundance, name, score);
    next := UpdateChampion(c, score, abundance, name, abundanceOf);
  }

  /** The champion update that closes each candidate of findPeaks. */
  method UpdateChampion(c: Champion, score: real, abundance: real, name: string,
                        abundanceOf: string -> real)
    returns (next: Champion)
    requires ValidChampion(c) && WellFormedName(name)
    ensures next == NextChampion(c, score, abundance, name, abundanceOf)
  {
    next := c;
    if score > c.bestCount && abundance > 0.0 && abundance < 1.0 && name[|name| - 1] != 'M' {
      var num := GetNum(name).value;
      if c.bestElement == FirstRun {
        next := Champion(score, name);
      } else if num < GetNum(c.bestElement).value {
        next := Champion(score, name);
      } else if abundanceOf(c.bestElement) < abundance {
        next := Champion(score, name);
      }
    }
  }

  /** The search succeeded and one of its candidates, with an abundance
      strictly between 0 and 1 and not metastable, is among the shown names. */
  predicate ShowsCandidate(found: Result<seq<int>>, db: NuclearData, shown: seq<string>) {
    found.Ok? &&
    exists k :: 0 <= k < |found.value| && db.name(found.value[k]) in shown &&
      0.0 < db.naturalAbundance(found.value[k]) < 1.0 && !IsMetastable(db.name(found.value[k]))
  }

  /** findPeaks followed by presentInfo's selection; a raise of the source is
      an Err. */
  method FindPeaks(energies: seq<real>, widths: seq<real>, obs: seq<real>, unc: seq<real>,
                   db: NuclearData)
    returns (r: Result<seq<string>>)
    requires |energies| <= |widths| && |obs| <= |unc|
    requires NamesWellFormed(db)
    ensures r == Analysis(energies, widths, obs, unc, db)
    ensures Keep(Lookups(energies, widths, db.gammaParent, |energies|), db.zzaaam).Err? ==>
      r == Err(Keep(Lookups(energies, widths, db.gammaParent, |energies|), db.zzaaam).failure)
    ensures r.Ok? ==> 2 <= |r.value| <= 3 && AllEndInDigit(r.value[1..])
    ensures r.Ok? ==> r.value[0] == "" || EndsInDigit(r.value[0])
    ensures r.Ok? ==> ShowsCandidate(Keep(Lookups(energies, widths, db.gammaParent, |energies|), db.zzaaam), db, r.value)
  {
    var found := FindParents(energies, widths, db.gammaParent, db.zzaaam);
    if found.Err? {
      return Err(found.failure);
    }
    var candidates := found.value;
    var board := new Leaderboards();
    var ranked := RankCandidates(candidates, obs, unc, db, board);
    if ranked.Err? {
      return Err(ranked.failure);
    }
    var champ := ranked.value;
    if champ.bestElement == FirstRun {
      return Err(NotDecodable);
    }
    if |board.naturalAbundanceNames| == 0 {
      return Err(IndexOutOfRange);
    }
    var shown := PresentInfo(champ.bestElement, board.naturalAbundances, board.naturalAbundanceNames);
    RankFoldOutcome(Empty, candidates, obs, unc, db);
    assert champ.bestElement in shown;
    ghost var k :| 0 <= k < |candidates| && champ.bestElement == db.name(candidates[k]) &&
                   0.0 < db.naturalAbundance(candidates[k]) < 1.0 && !IsMetastable(db.name(candidates[k]));
    assert db.name(candidates[k]) in shown;
    return Ok(shown);
  }

  /** The candidate loop of findPeaks: one Step per candidate, from the given
      boards and the initial champion, stopping at the first raise. */
  method RankCandidates(candidates: seq<int>, obs: seq<real>, unc: seq<real>, db: NuclearData,
                        board: Leaderboards)
    returns (r: Result<Champion>)
    requires board.Valid() && |obs| <= |unc|
    requires NamesWellFormed(db)
    modifies board
    ensures board.Valid()
    ensures r.Err? ==> RankFold(old(board.State()), Initial, candidates, obs, unc, db) == Err(r.failure)
    ensures r.Ok? ==> RankFold(old(board.State()), Initial, candidates, obs, unc, db) == Ok((board.State(), r.value))
  {
    ghost var start := board.State();
    var champ := Initial;
    var i := 0;
    while i < |candidates|
      invariant i <= |candidates|
      invariant board.Valid() && ValidChampion(champ)
      invariant RankFold(start, Initial, candidates, obs, unc, db) ==
                RankFold(board.State(), champ, candidates[i..], obs, unc, db)
    {
      ghost var before := board.State();
      var element := candidates[i];
      assert candidates[i..][0] == element && candidates[i..][1..] == candidates[i + 1..];
      var stepped := CandidateStep(board, champ, element, obs, unc, db);
      if stepped.Err? {
        return Err(stepped.failure);
      }
      champ := stepped.value;
      i := i + 1;
    }
    r := Ok(champ);
  }

  /** One pass of the candidate loop: the library lookups, the two ways the
      step raises, then Step. */
  method CandidateStep(board: Leaderboards, champ: Champion, element: int, obs: seq<real>, unc: seq<real>,
                       db: NuclearData)
    returns (r: Result<Champion>)
    requires board.Valid() && ValidChampion(champ) && |obs| <= |unc|
    requires NamesWellFormed(db)
    modifies board
    ensures board.Valid()
    ensures r.Err? ==>
      RankStep(old(board.State()), champ, element, obs, unc, db) == Err(r.failure) &&
      board.State() == old(board.State())
    ensures r.Ok? ==> RankStep(old(board.State()), champ, element, obs, unc, db) == Ok((board.State(), r.value))
  {
    var lines := db.gammaLines(element);
    var name := db.name(element);
    if |lines| == 0 {
      return Err(DivisionByZero);
    }
    var abundance := db.naturalAbundance(element);
    var mass := db.atomicMass(element);
    if !StepInBounds(board.State(), abundance, name, mass) {
      return Err(IndexOutOfRange);
    }
    var next := Step(board, champ, lines, name, abundance, mass, obs, unc, db.abundanceOfName);
    r := Ok(next);
  }
}
