/** The running best candidate of findPeaks (bestCount, bestElement). */
module Champion {
  import opened IsotopeNames

  /** The placeholder name before any candidate has won. */
  const FirstRun: string := "FirstRun"

  datatype Champion = Champion(bestCount: real, bestElement: string)

  const Initial := Champion(0.0, FirstRun)

  /** Either still the placeholder with count 0, or a decodable,
      non-metastable name with a non-negative count. */
  predicate ValidChampion(c: Champion) {
    c.bestCount >= 0.0 &&
    (c.bestElement == FirstRun ==> c.bestCount == 0.0) &&
    (c.bestElement == FirstRun || EndsInDigit(c.bestElement))
  }

  /** A candidate may only challenge with a strictly higher score, an
      abundance strictly between 0 and 1, and a non-metastable name. */
  predicate MayChallenge(c: Champion, score: real, abundance: real, name: string) {
    score > c.bestCount && 0.0 < abundance < 1.0 && !IsMetastable(name)
  }

  /** The champion after one candidate: the first challenger wins; later a
      challenger wins with a smaller decoded number, or else with a higher
      abundance than the champion's (looked up by name). */
  function NextChampion(c: Champion, score: real, abundance: real, name: string,
                        abundanceOf: string -> real): (r: Champion)
    requires ValidChampion(c) && WellFormedName(name)
    ensures ValidChampion(r)
    ensures r.bestCount >= c.bestCount
    ensures r == c || (r == Champion(score, name) && MayChallenge(c, score, abundance, name))
    ensures !MayChallenge(c, score, abundance, name) ==> r == c
    ensures MayChallenge(c, score, abundance, name) && c.bestElement == FirstRun ==> r == Champion(score, name)
    ensures MayChallenge(c, score, abundance, name) && c.bestElement != FirstRun ==>
      (r == Champion(score, name) <==>
         GetNum(name).value < GetNum(c.bestElement).value || abundanceOf(c.bestElement) < abundance)
  {
    if MayChallenge(c, score, abundance, name) then
      var num := GetNum(name).value;
      if c.bestElement == FirstRun then Champion(score, name)
      else if num < GetNum(c.bestElement).value then Champion(score, name)
      else if abundanceOf(c.bestElement) < abundance then Champion(score, name)
      else c
    else c
  }

  /** The champion after a sequence of candidates (score, abundance, name). */
  function Run(c: Champion, scores: seq<real>, abundances: seq<real>, names: seq<string>,
               abundanceOf: string -> real): (r: Champion)
    requires ValidChampion(c)
    requires |scores| == |abundances| == |names|
    requires forall k :: 0 <= k < |names| ==> WellFormedName(names[k])
    decreases |names|
    ensures ValidChampion(r)
  {
    if names == [] then c
    else
      var next := NextChampion(c, scores[0], abundances[0], names[0], abundanceOf);
      Run(next, scores[1..], abundances[1..], names[1..], abundanceOf)
  }

  /** Over a whole run the count never decreases, and the final champion is
      the placeholder or one of the candidates that was allowed to
      challenge, never a metastable one. */
  lemma {:induction false} RunOutcome(c: Champion, scores: seq<real>, abundances: seq<real>,
                                      names: seq<string>, abundanceOf: string -> real)
    requires ValidChampion(c)
    requires |scores| == |abundances| == |names|
    requires forall k :: 0 <= k < |names| ==> WellFormedName(names[k])
    decreases |names|
    ensures var r := Run(c, scores, abundances, names, abundanceOf);
      && ValidChampion(r) && r.bestCount >= c.bestCount
      && (r == c || exists k :: 0 <= k < |names| && r == Champion(scores[k], names[k]) &&
                                0.0 < abundances[k] < 1.0 && !IsMetastable(names[k]))
  {
    if names != [] {
      var next := NextChampion(c, scores[0], abundances[0], names[0], abundanceOf);
      RunOutcome(next, scores[1..], abundances[1..], names[1..], abundanceOf);
      var r := Run(c, scores, abundances, names, abundanceOf);
      if r != next {
        var k :| 0 <= k < |names| - 1 && r == Champion(scores[1..][k], names[1..][k]) &&
                 0.0 < abundances[1..][k] < 1.0 && !IsMetastable(names[1..][k]);
        assert r == Champion(scores[k + 1], names[k + 1]);
      }
    }
  }
}
