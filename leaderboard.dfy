/** The eight parallel leaderboard lists of findPeaks and the three routines
    that update them in place: addToLists, checkAbundanceLists and
    checkCountsLists.  Each list holds up to ten ranked slots plus one last
    "staging" slot where the current candidate is written first. */
module Leaderboard {
  import opened IsotopeNames

  /** Ten ranked slots and the staging slot. */
  const Capacity: nat := 11
  /** Candidates up to this atomic mass also enter the natural lists. */
  const LightMass: real := 180.0
  /** Candidates up to this decoded number also compete in the natural counts list. */
  const LightNumber: nat := 90

  /** The value of the eight lists: bC, bA, bCE, bAE (all candidates) and
      bCN, bAN, bCEN, bAEN (light candidates). */
  datatype Boards = Boards(
    counts: seq<real>, abundances: seq<real>,
    countNames: seq<string>, abundanceNames: seq<string>,
    naturalCounts: seq<real>, naturalAbundances: seq<real>,
    naturalCountNames: seq<string>, naturalAbundanceNames: seq<string>)

  const Empty := Boards([], [], [], [], [], [], [], [])

  /** The four lists of each group grow together and stay within capacity;
      no name on any list is metastable. */
  predicate WellFormed(b: Boards) {
    && |b.counts| == |b.abundances| == |b.countNames| == |b.abundanceNames| <= Capacity
    && |b.naturalCounts| == |b.naturalAbundances| == |b.naturalCountNames|
       == |b.naturalAbundanceNames| <= Capacity
    && AllEndInDigit(b.countNames) && AllEndInDigit(b.abundanceNames)
    && AllEndInDigit(b.naturalCountNames) && AllEndInDigit(b.naturalAbundanceNames)
  }

  /** after is before with x staged: one longer below capacity, otherwise
      only the staging slot differs, and that slot holds x. */
  ghost predicate StagedFrom<T>(before: seq<T>, after: seq<T>, x: T) {
    && |after| == (if |before| < Capacity then |before| + 1 else |before|)
    && after[|after| - 1] == x
    && forall k :: 0 <= k < |after| - 1 ==> after[k] == before[k]
  }

  /** Append while below capacity, otherwise overwrite the staging slot. */
  function Stage<T>(s: seq<T>, x: T): (r: seq<T>)
    ensures |r| == if |s| < Capacity then |s| + 1 else |s|
  {
    if |s| < Capacity then s + [x] else s[..|s| - 1] + [x]
  }

  lemma StageIsStaged<T>(s: seq<T>, x: T)
    ensures StagedFrom(s, Stage(s, x), x)
  {
  }

  /** The source's overwrite of the last slot is staging at capacity. */
  lemma OverwriteIsStage<T>(s: seq<T>, x: T)
    requires |s| >= Capacity
    ensures s[|s| - 1 := x] == Stage(s, x)
  {
  }

  /** The names kept in front of the staging slot once x is staged. */
  function Retained<T>(s: seq<T>): seq<T> {
    if |s| < Capacity then s else s[..|s| - 1]
  }

  /** The staged entry's name already occurs in a ranked slot. */
  predicate Seen(names: seq<string>) {
    |names| > 0 && names[|names| - 1] in names[..|names| - 1]
  }

  predicate IsFirstMinimum(s: seq<real>, n: nat, m: nat) {
    && m < n <= |s|
    && (forall k :: 0 <= k < n ==> s[m] <= s[k])
    && (forall k :: 0 <= k < m ==> s[k] > s[m])
  }

  /** The minimum search of the source over s[0..n): keeps the earlier index on ties. */
  function FirstMinIndex(s: seq<real>, n: nat): (m: nat)
    requires 1 <= n <= |s|
    ensures m < n
  {
    if n == 1 then 0
    else
      var m := FirstMinIndex(s, n - 1);
      if s[m] > s[n - 1] then n - 1 else m
  }

  lemma {:induction false} FirstMinIndexIsFirstMinimum(s: seq<real>, n: nat)
    requires 1 <= n <= |s|
    ensures IsFirstMinimum(s, n, FirstMinIndex(s, n))
  {
    if n > 1 { FirstMinIndexIsFirstMinimum(s, n - 1); }
  }

  /** The slot a promotion may overwrite: the first minimum among all slots
      but the staging one (slot 0 when there is at most one slot). */
  function MinSlot(s: seq<real>): (m: nat)
    ensures |s| > 0 ==> m < |s|
    ensures |s| <= 1 ==> m == 0
    ensures |s| >= 2 ==> IsFirstMinimum(s, |s| - 1, m)
  {
    if |s| <= 1 then 0
    else
      FirstMinIndexIsFirstMinimum(s, |s| - 1);
      FirstMinIndex(s, |s| - 1)
  }

  /** Promotion of the staged entry: when the minimum slot holds a strictly
      smaller value it takes v and the staged name. */
  function Promote(vals: seq<real>, names: seq<string>, v: real): (r: (seq<real>, seq<string>))
    requires |vals| == |names| > 0
    ensures |r.0| == |vals| && |r.1| == |names|
    ensures forall k :: 0 <= k < |vals| && k != MinSlot(vals) ==> r.0[k] == vals[k] && r.1[k] == names[k]
    ensures r.0[MinSlot(vals)] == if vals[MinSlot(vals)] < v then v else vals[MinSlot(vals)]
    ensures r.1[MinSlot(vals)] == if vals[MinSlot(vals)] < v then names[|names| - 1] else names[MinSlot(vals)]
    ensures AllEndInDigit(names) ==> AllEndInDigit(r.1)
  {
    var m := MinSlot(vals);
    if vals[m] < v then (vals[m := v], names[m := names[|names| - 1]]) else (vals, names)
  }

  /** Eviction of the minimum: with a staging slot and ranked slots, the
      ranked slots change exactly when v beats one of them; then the first
      minimum is traded for v under the staged name, and no slot ever
      decreases. */
  lemma PromoteEvictsMinimum(vals: seq<real>, names: seq<string>, v: real)
    requires 2 <= |vals| == |names|
    ensures var r := Promote(vals, names, v);
      && (r.0 != vals <==> exists k :: 0 <= k < |vals| - 1 && vals[k] < v)
      && r.0[|vals| - 1] == vals[|vals| - 1] && r.1[|names| - 1] == names[|names| - 1]
      && (forall k :: 0 <= k < |vals| ==> r.0[k] >= vals[k])
      && (r.0 != vals ==>
            multiset(r.0[..|vals| - 1]) == multiset(vals[..|vals| - 1]) - multiset{vals[MinSlot(vals)]} + multiset{v})
  {
    var m := MinSlot(vals);
    var n := |vals|;
    var r := Promote(vals, names, v);
    if vals[m] < v {
      assert r.0[m] != vals[m];
      assert r.0[..n - 1] == vals[..n - 1][m := v];
    }
  }

  lemma StageKeepsNames(names: seq<string>, name: string)
    requires AllEndInDigit(names) && EndsInDigit(name)
    ensures AllEndInDigit(Stage(names, name))
  {
    StageIsStaged(names, name);
  }

  /** addToLists: a metastable name changes nothing; otherwise the candidate
      is staged in the four lists of all candidates and, for a light one, in
      the four natural lists. */
  function Staged(b: Boards, score: real, abundance: real, name: string, mass: real): (r: Boards)
    requires WellFormedName(name)
    ensures WellFormed(b) ==> WellFormed(r)
    ensures IsMetastable(name) ==> r == b
  {
    if IsMetastable(name) then b
    else
      var all := b.(counts := Stage(b.counts, score), abundances := Stage(b.abundances, abundance),
                    countNames := Stage(b.countNames, name), abundanceNames := Stage(b.abundanceNames, name));
      var r :=
        if mass <= LightMass then
          all.(naturalCounts := Stage(b.naturalCounts, score),
               naturalAbundances := Stage(b.naturalAbundances, abundance),
               naturalCountNames := Stage(b.naturalCountNames, name),
               naturalAbundanceNames := Stage(b.naturalAbundanceNames, name))
        else all;
      assert WellFormed(b) ==> WellFormed(r) by {
        if WellFormed(b) {
          StageKeepsNames(b.countNames, name);
          StageKeepsNames(b.abundanceNames, name);
          StageKeepsNames(b.naturalCountNames, name);
          StageKeepsNames(b.naturalAbundanceNames, name);
        }
      }
      r
  }

  /** What addToLists leaves behind for a non-metastable candidate: each list
      grows by one below capacity and otherwise only its staging slot is
      overwritten; the staged names are the candidate's; the natural lists
      move only for a light candidate. */
  lemma StagedShape(b: Boards, score: real, abundance: real, name: string, mass: real)
    requires WellFormedName(name) && !IsMetastable(name)
    ensures var r := Staged(b, score, abundance, name, mass);
      && StagedFrom(b.counts, r.counts, score) && StagedFrom(b.abundances, r.abundances, abundance)
      && StagedFrom(b.countNames, r.countNames, name) && StagedFrom(b.abundanceNames, r.abundanceNames, name)
      && (mass <= LightMass ==>
            && StagedFrom(b.naturalCounts, r.naturalCounts, score)
            && StagedFrom(b.naturalAbundances, r.naturalAbundances, abundance)
            && StagedFrom(b.naturalCountNames, r.naturalCountNames, name)
            && StagedFrom(b.naturalAbundanceNames, r.naturalAbundanceNames, name))
      && (mass > LightMass ==>
            && r.naturalCounts == b.naturalCounts && r.naturalAbundances == b.naturalAbundances
            && r.naturalCountNames == b.naturalCountNames && r.naturalAbundanceNames == b.naturalAbundanceNames)
  {
    StageIsStaged(b.counts, score);
    StageIsStaged(b.abundances, abundance);
    StageIsStaged(b.countNames, name);
    StageIsStaged(b.abundanceNames, name);
    StageIsStaged(b.naturalCounts, score);
    StageIsStaged(b.naturalAbundances, abundance);
    StageIsStaged(b.naturalCountNames, name);
    StageIsStaged(b.naturalAbundanceNames, name);
  }

  /** The guard of checkAbundanceLists. */
  predicate AbundanceEligible(b: Boards, abundance: real, name: string) {
    0.0 < abundance < 1.0 && !Seen(b.abundanceNames) && !IsMetastable(name)
  }

  /** checkAbundanceLists indexes only non-empty lists. */
  predicate AbundanceInBounds(b: Boards, abundance: real, name: string, mass: real) {
    AbundanceEligible(b, abundance, name) ==>
      |b.abundances| > 0 && (mass <= LightMass ==> |b.naturalAbundances| > 0)
  }

  /** checkAbundanceLists: promote the abundance in bA/bAE and, for a light
      candidate, in bAN/bAEN. */
  function AbundanceChecked(b: Boards, abundance: real, name: string, mass: real): (r: Boards)
    requires WellFormed(b) && AbundanceInBounds(b, abundance, name, mass)
    ensures WellFormed(r)
    ensures r.counts == b.counts && r.countNames == b.countNames
    ensures r.naturalCounts == b.naturalCounts && r.naturalCountNames == b.naturalCountNames
    ensures !AbundanceEligible(b, abundance, name) ==> r == b
    ensures mass > LightMass ==>
      r.naturalAbundances == b.naturalAbundances && r.naturalAbundanceNames == b.naturalAbundanceNames
    ensures forall k :: 0 <= k < |b.abundances| && (!AbundanceEligible(b, abundance, name) || k != MinSlot(b.abundances)) ==>
      r.abundances[k] == b.abundances[k] && r.abundanceNames[k] == b.abundanceNames[k]
    ensures AbundanceEligible(b, abundance, name) ==>
      (r.abundances, r.abundanceNames) == Promote(b.abundances, b.abundanceNames, abundance)
    ensures AbundanceEligible(b, abundance, name) && mass <= LightMass ==>
      (r.naturalAbundances, r.naturalAbundanceNames) == Promote(b.naturalAbundances, b.naturalAbundanceNames, abundance)
  {
    if !AbundanceEligible(b, abundance, name) then b
    else
      var (a, an) := Promote(b.abundances, b.abundanceNames, abundance);
      var all := b.(abundances := a, abundanceNames := an);
      if mass <= LightMass then
        var (na, nan) := Promote(b.naturalAbundances, b.naturalAbundanceNames, abundance);
        all.(naturalAbundances := na, naturalAbundanceNames := nan)
      else all
  }

  /** The guard of checkCountsLists (it has no metastable check). */
  predicate CountsEligible(b: Boards, abundance: real) {
    0.0 < abundance < 1.0 && !Seen(b.countNames)
  }

  /** The natural part of checkCountsLists runs for a decodable name whose
      number is at most 90. */
  predicate NaturalCountsEligible(name: string) {
    !IsMetastable(name) && EndsInDigit(name) && GetNum(name).value <= LightNumber
  }

  /** checkCountsLists indexes only non-empty lists. */
  predicate CountsInBounds(b: Boards, abundance: real, name: string) {
    CountsEligible(b, abundance) ==>
      |b.counts| > 0 && (NaturalCountsEligible(name) ==> |b.naturalCounts| > 0)
  }

  /** checkCountsLists: promote the score in bC/bCE and, for a number up to
      90, the ABUNDANCE in bCN/bCEN. */
  function CountsChecked(b: Boards, abundance: real, name: string, score: real): (r: Boards)
    requires WellFormed(b) && WellFormedName(name) && CountsInBounds(b, abundance, name)
    ensures WellFormed(r)
    ensures r.abundances == b.abundances && r.abundanceNames == b.abundanceNames
    ensures r.naturalAbundances == b.naturalAbundances && r.naturalAbundanceNames == b.naturalAbundanceNames
    ensures !CountsEligible(b, abundance) ==> r == b
    ensures CountsEligible(b, abundance) ==> (r.counts, r.countNames) == Promote(b.counts, b.countNames, score)
    ensures !NaturalCountsEligible(name) ==>
      r.naturalCounts == b.naturalCounts && r.naturalCountNames == b.naturalCountNames
    ensures CountsEligible(b, abundance) && NaturalCountsEligible(name) ==>
      (r.naturalCounts, r.naturalCountNames) == Promote(b.naturalCounts, b.naturalCountNames, abundance)
  {
    if !CountsEligible(b, abundance) then b
    else
      var (c, cn) := Promote(b.counts, b.countNames, score);
      var all := b.(counts := c, countNames := cn);
      if NaturalCountsEligible(name) then
        var (nc, ncn) := Promote(b.naturalCounts, b.naturalCountNames, abundance);
        all.(naturalCounts := nc, naturalCountNames := ncn)
      else all
  }

  /** The eight lists, updated in place by the source's three routines. */
  class Leaderboards {
    var counts: seq<real>
    var abundances: seq<real>
    var countNames: seq<string>
    var abundanceNames: seq<string>
    var naturalCounts: seq<real>
    var naturalAbundances: seq<real>
    var naturalCountNames: seq<string>
    var naturalAbundanceNames: seq<string>

    function State(): Boards
      reads this
    {
      Boards(counts, abundances, countNames, abundanceNames,
             naturalCounts, naturalAbundances, naturalCountNames, naturalAbundanceNames)
    }

    predicate Valid()
      reads this
    {
      WellFormed(State())
    }

    constructor ()
      ensures Valid() && State() == Empty
    {
      counts, abundances, countNames, abundanceNames := [], [], [], [];
      naturalCounts, naturalAbundances, naturalCountNames, naturalAbundanceNames := [], [], [], [];
    }

    /** addToLists. */
    method AddToLists(score: real, abundance: real, name: string, mass: real)
      requires Valid() && WellFormedName(name)
      modifies this
      ensures Valid()
      ensures State() == Staged(old(State()), score, abundance, name, mass)
    {
      if name[|name| - 1] != 'M' {
        StageCandidate(score, abundance, name);
        StageLightCandidate(score, abundance, name, mass);
      }
    }

    /** First half of addToLists: the lists of all candidates. */
    method StageCandidate(score: real, abundance: real, name: string)
      requires |counts| == |abundances| == |countNames| == |abundanceNames| <= Capacity
      modifies this`counts, this`abundances, this`countNames, this`abundanceNames
      ensures counts == Stage(old(counts), score) && abundances == Stage(old(abundances), abundance)
      ensures countNames == Stage(old(countNames), name) && abundanceNames == Stage(old(abundanceNames), name)
    {
      if |counts| < Capacity {
        counts := counts + [score];
        abundances := abundances + [abundance];
        countNames := countNames + [name];
        abundanceNames := abundanceNames + [countNames[|countNames| - 1]];
      } else {
        counts := counts[|counts| - 1 := score];
        abundances := abundances[|abundances| - 1 := abundance];
        countNames := countNames[|countNames| - 1 := name];
        abundanceNames := abundanceNames[|abundanceNames| - 1 := countNames[|countNames| - 1]];
      }
    }

    /** Second half of addToLists: the natural lists, for a light candidate
        only (the staged name is read back from bCE, where it was just put). */
    method StageLightCandidate(score: real, abundance: real, name: string, mass: real)
      requires |naturalCounts| == |naturalAbundances| == |naturalCountNames| == |naturalAbundanceNames| <= Capacity
      requires |countNames| > 0 && countNames[|countNames| - 1] == name
      modifies this`naturalCounts, this`naturalAbundances, this`naturalCountNames, this`naturalAbundanceNames
      ensures mass <= LightMass ==>
        && naturalCounts == Stage(old(naturalCounts), score)
        && naturalAbundances == Stage(old(naturalAbundances), abundance)
        && naturalCountNames == Stage(old(naturalCountNames), name)
        && naturalAbundanceNames == Stage(old(naturalAbundanceNames), name)
      ensures mass > LightMass ==>
        && naturalCounts == old(naturalCounts) && naturalAbundances == old(naturalAbundances)
        && naturalCountNames == old(naturalCountNames) && naturalAbundanceNames == old(naturalAbundanceNames)
    {
      if |naturalCounts| < Capacity {
        if mass <= LightMass {
          naturalCounts := naturalCounts + [score];
          naturalAbundances := naturalAbundances + [abundance];
          naturalCountNames := naturalCountNames + [name];
          naturalAbundanceNames := naturalAbundanceNames + [countNames[|countNames| - 1]];
        }
      } else if mass <= LightMass {
        naturalCounts := naturalCounts[|naturalCounts| - 1 := score];
        naturalAbundances := naturalAbundances[|naturalAbundances| - 1 := abundance];
        naturalCountNames := naturalCountNames[|naturalCountNames| - 1 := name];
        naturalAbundanceNames := naturalAbundanceNames[|naturalAbundanceNames| - 1 := countNames[|countNames| - 1]];
      }
    }

    /** checkAbundanceLists. */
    method CheckAbundanceLists(abundance: real, name: string, mass: real)
      requires Valid() && WellFormedName(name)
      requires AbundanceInBounds(State(), abundance, name, mass)
      modifies this
      ensures Valid()
      ensures State() == AbundanceChecked(old(State()), abundance, name, mass)
    {
      var isThere := AlreadySeen(abundanceNames);
      if abundance < 1.0 && !isThere && abundance > 0.0 && name[|name| - 1] != 'M' {
        abundances, abundanceNames := PromoteStaged(abundances, abundanceNames, abundance);
        if mass <= LightMass {
          naturalAbundances, naturalAbundanceNames := PromoteStaged(naturalAbundances, naturalAbundanceNames, abundance);
        }
      }
    }

    /** checkCountsLists: note that it has no metastable guard of its own,
        and that the natural counts list receives the abundance. */
    method CheckCountsLists(abundance: real, name: string, score: real)
      requires Valid() && WellFormedName(name)
      requires CountsInBounds(State(), abundance, name)
      modifies this
      ensures Valid()
      ensures State() == CountsChecked(old(State()), abundance, name, score)
    {
      var isThere := AlreadySeen(countNames);
      if !isThere && abundance > 0.0 && abundance < 1.0 {
        counts, countNames := PromoteStaged(counts, countNames, score);
        if name[|name| - 1] != 'M' {
          var num := GetNum(name).value;
          if num <= LightNumber {
            naturalCounts, naturalCountNames := PromoteStaged(naturalCounts, naturalCountNames, abundance);
          }
        }
      }
    }
  }

  /** The promotion block the source repeats for each list pair: find the
      first minimum in front of the staging slot and, when it is strictly
      below v, overwrite it with v and the staged name. */
  method PromoteStaged(vals: seq<real>, names: seq<string>, v: real)
    returns (vals': seq<real>, names': seq<string>)
    requires |vals| == |names| > 0
    ensures (vals', names') == Promote(vals, names, v)
  {
    vals', names' := vals, names;
    var smaller := FirstMinimum(vals);
    if vals'[smaller] < v {
      vals' := vals'[smaller := v];
      names' := names'[smaller := names'[|names'| - 1]];
    }
  }

  /** The source's duplicate check: does the staged name occur in front of it? */
  method AlreadySeen(names: seq<string>) returns (isThere: bool)
    ensures isThere == Seen(names)
  {
    isThere := false;
    var e := 0;
    while e < |names| - 1
      invariant 0 <= e <= |names| && (|names| > 0 ==> e <= |names| - 1)
      invariant |names| > 0 ==> (isThere <==> names[|names| - 1] in names[..e])
      invariant |names| == 0 ==> !isThere
    {
      if names[e] == names[|names| - 1] {
        isThere := true;
      }
      e := e + 1;
    }
  }

  /** The source's minimum search over every slot but the last. */
  method FirstMinimum(s: seq<real>) returns (smallest: nat)
    ensures smallest == MinSlot(s)
  {
    smallest := 0;
    var c := 0;
    while c < |s| - 1
      invariant 0 <= c <= |s| && (|s| > 0 ==> c <= |s| - 1)
      invariant smallest == if c == 0 then 0 else FirstMinIndex(s, c)
    {
      if s[smallest] > s[c] {
        smallest := c;
      }
      c := c + 1;
    }
  }
}
