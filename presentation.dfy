/** presentInfo's choice of names: a natural headline (the light, abundant
    candidate with the smallest number below the champion's), the first
    entry of the natural abundance list, and the champion when it is not
    already one of those two. Printing is not modelled. */
module Presentation {
  import opened IsotopeNames

  /** presentInfo decodes only the names whose abundance is positive. */
  predicate ScannedNamesDecode(abundances: seq<real>, names: seq<string>)
    requires |names| <= |abundances|
  {
    forall i :: 0 <= i < |names| && abundances[i] > 0.0 ==> EndsInDigit(names[i])
  }

  /** The running minimum over the first n names: the headline so far and
      the smallest number seen so far (starting from the champion's). */
  function Headline(abundances: seq<real>, names: seq<string>, bound: nat, n: nat): (r: (string, nat))
    requires n <= |names| <= |abundances| && ScannedNamesDecode(abundances, names)
    ensures r.1 <= bound
  {
    if n == 0 then ("", bound)
    else
      var (best, bestNum) := Headline(abundances, names, bound, n - 1);
      if abundances[n - 1] > 0.0 && GetNum(names[n - 1]).value < bestNum
      then (names[n - 1], GetNum(names[n - 1]).value)
      else (best, bestNum)
  }

  /** Index i is a scanned name whose number is below the bound. */
  predicate Beats(abundances: seq<real>, names: seq<string>, bound: nat, i: nat)
    requires i < |names| <= |abundances| && ScannedNamesDecode(abundances, names)
  {
    abundances[i] > 0.0 && GetNum(names[i]).value < bound
  }

  /** The headline stays "" exactly as long as no scanned name beats the
      bound, and the running number is then the bound itself. */
  lemma {:induction false} HeadlineEmptyIff(abundances: seq<real>, names: seq<string>, bound: nat, n: nat)
    requires n <= |names| <= |abundances| && ScannedNamesDecode(abundances, names)
    ensures var (best, bestNum) := Headline(abundances, names, bound, n);
      && (best == "" <==> forall j :: 0 <= j < n ==> !Beats(abundances, names, bound, j))
      && (best == "" ==> bestNum == bound)
  {
    if n > 0 {
      HeadlineEmptyIff(abundances, names, bound, n - 1);
      var k := n - 1;
      if Beats(abundances, names, bound, k) {
        assert names[k] != "";
      }
    }
  }

  /** The running number is at most the number of every scanned name. */
  lemma {:induction false} HeadlineIsLowest(abundances: seq<real>, names: seq<string>, bound: nat, n: nat)
    requires n <= |names| <= |abundances| && ScannedNamesDecode(abundances, names)
    ensures var bestNum := Headline(abundances, names, bound, n).1;
      forall j :: 0 <= j < n && abundances[j] > 0.0 ==> GetNum(names[j]).value >= bestNum
  {
    if n > 0 {
      HeadlineIsLowest(abundances, names, bound, n - 1);
    }
  }

  /** A non-empty headline is a name that beats the bound, carries the running
      number, and every scanned name before it has a larger number. */
  lemma {:induction false} HeadlineIsFirst(abundances: seq<real>, names: seq<string>, bound: nat, n: nat)
    requires n <= |names| <= |abundances| && ScannedNamesDecode(abundances, names)
    ensures var (best, bestNum) := Headline(abundances, names, bound, n);
      best != "" ==>
        exists i :: 0 <= i < n && Beats(abundances, names, bound, i) && best == names[i] &&
          bestNum == GetNum(names[i]).value &&
          (forall j :: 0 <= j < i && abundances[j] > 0.0 ==> GetNum(names[j]).value > bestNum)
  {
    if n > 0 {
      HeadlineIsFirst(abundances, names, bound, n - 1);
      var (best, bestNum) := Headline(abundances, names, bound, n - 1);
      var k := n - 1;
      if abundances[k] > 0.0 && GetNum(names[k]).value < bestNum {
        HeadlineIsLowest(abundances, names, bound, n - 1);
        assert Beats(abundances, names, bound, k);
      } else if best != "" {
        var i :| 0 <= i < n - 1 && Beats(abundances, names, bound, i) && best == names[i] &&
              bestNum == GetNum(names[i]).value &&
              (forall j :: 0 <= j < i && abundances[j] > 0.0 ==> GetNum(names[j]).value > bestNum);
        assert Beats(abundances, names, bound, i);
      }
    }
  }

  /** The headline is "" when no positive-abundance name has a number below
      the champion's; otherwise it is the first such name with the smallest
      number. */
  lemma HeadlineIsFirstSmallest(abundances: seq<real>, names: seq<string>, bound: nat, n: nat)
    requires n <= |names| <= |abundances| && ScannedNamesDecode(abundances, names)
    ensures var (best, bestNum) := Headline(abundances, names, bound, n);
      && (best == "" <==> forall j :: 0 <= j < n ==> !Beats(abundances, names, bound, j))
      && (best == "" ==> bestNum == bound)
      && (best != "" ==>
            exists i :: 0 <= i < n && Beats(abundances, names, bound, i) && best == names[i] &&
              bestNum == GetNum(names[i]).value &&
              (forall j :: 0 <= j < n && abundances[j] > 0.0 ==> GetNum(names[j]).value >= bestNum) &&
              (forall j :: 0 <= j < i && abundances[j] > 0.0 ==> GetNum(names[j]).value > bestNum))
  {
    HeadlineEmptyIff(abundances, names, bound, n);
    HeadlineIsLowest(abundances, names, bound, n);
    HeadlineIsFirst(abundances, names, bound, n);
  }

  /** The list presentInfo prints, in order. */
  function Selection(bestElement: string, abundances: seq<real>, names: seq<string>): (r: seq<string>)
    requires 0 < |names| <= |abundances| && ScannedNamesDecode(abundances, names)
    requires EndsInDigit(bestElement)
    ensures 2 <= |r| <= 3 && r[1] == names[0] && bestElement in r
    ensures |r| == 3 <==> bestElement !in r[..2]
    ensures |r| == 3 ==> r[2] == bestElement
    ensures r[0] == Headline(abundances, names, GetNum(bestElement).value, |names|).0
  {
    var head := Headline(abundances, names, GetNum(bestElement).value, |names|).0;
    var shown := [head, names[0]];
    if bestElement !in shown then shown + [bestElement] else shown
  }

  /** presentInfo, loop for loop (the decoding is written inline there too). */
  method PresentInfo(bestElement: string, abundances: seq<real>, names: seq<string>)
    returns (bestList: seq<string>)
    requires 0 < |names| <= |abundances| && ScannedNamesDecode(abundances, names)
    requires EndsInDigit(bestElement)
    ensures bestList == Selection(bestElement, abundances, names)
  {
    var bestNum := GetNum(bestElement).value;
    var bestE := "";
    var i := 0;
    while i < |names|
      invariant i <= |names|
      invariant (bestE, bestNum) == Headline(abundances, names, GetNum(bestElement).value, i)
    {
      if abundances[i] > 0.0 {
        var num := GetNum(names[i]).value;
        if num < bestNum {
          bestNum := num;
          bestE := names[i];
        }
      }
      i := i + 1;
    }
    bestList := [bestE, names[0]];
    if bestElement !in bestList {
      bestList := bestList + [bestElement];
    }
  }
}
