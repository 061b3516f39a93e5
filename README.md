# Gamma-peak isotope ranking, modelled in Dafny

This project models the peak-scoring and leaderboard logic of `midtermMain.py`.
That script suggests which radioactive isotopes produced a measured gamma
spectrum. For every observed peak energy it asks the nuclear-data library
for parent isotopes and keeps the positive ids with an even nuclide code
(`findParents`). Then, candidate by candidate, it does four things:

- it scores the candidate by how many (known line, observed peak) pairs have
  overlapping intensity ranges, divided by the number of known lines
  (`countIntensityPeaks`);
- it stages the candidate in eight parallel leaderboard lists (`addToLists`);
- it promotes the staged entry over the first minimum of the ranked slots
  (`checkAbundanceLists`, `checkCountsLists`);
- it updates a running champion (`bestCount`, `bestElement`).

Finally `presentInfo` picks two or three names to show.

Modules, one per concern of the source:

- `Outcomes`: `Option`, `Result` and the failures the source can raise.
- `IsotopeNames`: `getNum`, decoding the number at the end of a name.
- `PeakCounting`: `countIntensityPeaks` as a loop method proved against a
  prefix-recursive count. The count is proved to equal the size of the set of
  matching pairs. The normalised score is bounded.
- `ParentSearch`: `findParents` as a nested-loop method proved against a
  filter over the concatenated lookups, with the first failing code lookup
  propagating as an error.
- `Leaderboard`: the eight lists as a class `Leaderboards` whose methods
  `AddToLists`, `CheckAbundanceLists` and `CheckCountsLists` update the fields
  in place. Each method is proved against a function on the value `Boards`:
  `Staged`, `AbundanceChecked` or `CountsChecked`. The first-minimum search
  and the strictly-larger promotion are specified once (`MinSlot`, `Promote`)
  and reused by all four promotion sites.
- `Champion`: the champion update and its fold over a run of candidates.
- `Presentation`: `presentInfo`'s running-minimum headline and the selected
  list.
- `PeakFinder`: one candidate step (`Step`) and the whole `findPeaks` loop
  (`FindPeaks`). The library is a record of total functions (`NuclearData`).
  The methods are proved against value functions: `RankStep` for one
  candidate, its fold `RankFold` for the candidate loop, and `Analysis` for
  the whole run (`Keep` of the lookups, then `RankFold` from empty boards,
  then `Presented`).

These run-time errors of the source are an `Err` outcome of `FindPeaks` (and a
`requires` on the inner member that would raise):

- an `IndexError` on an empty list;
- the `ZeroDivisionError` on an empty line table;
- the `ValueError` decoding `'FirstRun'`;
- a failing `zzaaam`.

The remaining ones (an uncertainty list shorter than its partner, an empty or
malformed library name) are preconditions only; see "## Left out".

## Model

| member | source | states |
|---|---|---|
| IsotopeNames.GetNum | midtermMain.py:14-33 | decoding fails exactly when the last character is not a digit (so always for a metastable 'M' name); otherwise the result is below 1000 and its units digit is the last character |
| IsotopeNames.GetNumOfIsotopeName | midtermMain.py:24-33 | round trip: a digit-free element symbol followed by a mass number below 1000, written in decimal, decodes to that mass number |
| IsotopeNames.GetNumReadsLastThree | midtermMain.py:24-33 | only the last three characters are read: any prefix in front of them leaves the result unchanged |
| PeakCounting.CountIntensityPeaks | midtermMain.py:35-63 | the nested loops return the number of matches of all known lines, line by line and peak by peak |
| PeakCounting.MatchesArePairs | midtermMain.py:46-63 | that count equals the number of (known line, observed peak) index pairs whose closed ranges overlap, taking only lines with a positive NaN-zeroed intensity |
| PeakCounting.NotComparedNoHits | midtermMain.py:50-56 | a line whose NaN-zeroed intensity is not positive contributes nothing |
| PeakCounting.MatchesAtMost | midtermMain.py:56-62 | the count is at most (number of known lines) x (number of observed peaks) |
| PeakCounting.Score | midtermMain.py:316-320 | the normalised score lies between 0 and the number of observed peaks |
| PeakCounting.ScoreCanExceedOne | midtermMain.py:316-320 | the score is not capped at 1: one line overlapping two observed peaks scores 2 |
| ParentSearch.FindParents | midtermMain.py:65-84 | the nested loops return the filter outcome of the lookups concatenated in peak order and then lookup order, including the error of the first failing code lookup |
| ParentSearch.FilterRow | midtermMain.py:75-83 | the inner loop over one peak's lookups continues the filter outcome from the ids kept so far, stopping at the first failing code lookup |
| ParentSearch.KeepIsSelected | midtermMain.py:73-84 | the search succeeds exactly when every positive looked-up id decodes, and then returns the reference filter; otherwise it reports the first positive id that does not decode, and every id before it decodes |
| ParentSearch.KeepErrPersists | midtermMain.py:78-83 | a raised code lookup is final: later ids do not change the outcome |
| ParentSearch.SelectedAreKept | midtermMain.py:77-80 | every returned id was looked up, is positive and has an even code |
| ParentSearch.SelectedMultiplicity | midtermMain.py:74-80 | duplicates are retained: a kept id occurs as often as in the lookups, any other id not at all |
| ParentSearch.SelectedIsSubsequence | midtermMain.py:74-80 | the result is a subsequence of the concatenated lookups (order kept) |
| Leaderboard.FirstMinIndexIsFirstMinimum | midtermMain.py:108-110 | the minimum search returns a minimal value's index, and every earlier index holds a strictly larger value (the first minimum wins ties) |
| Leaderboard.MinSlot | midtermMain.py:105-110 | the slot a promotion targets is the first minimum over every slot but the staging one, or slot 0 for lists of at most one entry |
| Leaderboard.FirstMinimum | midtermMain.py:147-150 | the source's minimum-search loop returns exactly that slot |
| Leaderboard.Promote | midtermMain.py:151-153 | promotion touches only the minimum slot, which takes the new value and the staged name only when its value is strictly smaller; lengths never change; names that all decode still all decode |
| Leaderboard.PromoteStaged | midtermMain.py:147-153 | the source's search-and-overwrite block computes exactly that promotion |
| Leaderboard.PromoteEvictsMinimum | midtermMain.py:105-113 | the ranked slots change exactly when the new value beats one of them; the staging slot is untouched; no slot decreases; on a change the ranked values lose the first minimum and gain the new value (as multisets) |
| Leaderboard.AlreadySeen | midtermMain.py:138-141 | the duplicate check is true exactly when the staged name occurs in front of the staging slot |
| Leaderboard.StageIsStaged | midtermMain.py:185-195 | staging appends below capacity 11 and otherwise overwrites only the last slot, which then holds the new entry |
| Leaderboard.OverwriteIsStage | midtermMain.py:191-195 | the source's overwrite of the last slot of a full list is that staging |
| Leaderboard.Staged | midtermMain.py:184-208 | addToLists keeps the boards well formed (equal lengths per group, at most 11, only decodable names), and a metastable name leaves them unchanged |
| Leaderboard.StagedShape | midtermMain.py:184-208 | for a non-metastable name, the four lists of all candidates are staged with (score, abundance, name, name); the natural lists are staged the same way when the atomic mass is at most 180, and are unchanged otherwise |
| Leaderboard.Leaderboards.StageCandidate | midtermMain.py:185-195 | the in-place appends and overwrites stage score, abundance and name in bC, bA, bCE and bAE, with bAE receiving the name just written to bCE |
| Leaderboard.Leaderboards.StageLightCandidate | midtermMain.py:197-208 | the natural lists are staged only for an atomic mass of at most 180 and are otherwise left as they were |
| Leaderboard.Leaderboards.AddToLists | midtermMain.py:166-208 | the in-place update leaves the eight lists equal to the staged boards, well formed |
| Leaderboard.AbundanceChecked | midtermMain.py:138-163 | nothing changes unless 0 < abundance < 1, the name is not metastable and the staged name is new; then bA/bAE are the promotion of the abundance and, for an atomic mass of at most 180, so are bAN/bAEN, which are untouched for a heavier candidate; the count lists never change |
| Leaderboard.Leaderboards.CheckAbundanceLists | midtermMain.py:125-163 | the in-place update leaves the lists equal to AbundanceChecked of the old lists, still well formed |
| Leaderboard.CountsChecked | midtermMain.py:101-123 | nothing changes unless 0 < abundance < 1 and the staged name is new; then bC/bCE are the promotion of the score, and the natural counts list takes the abundance (not the score) by promotion exactly when the name decodes to at most 90, and is untouched otherwise; the abundance lists never change |
| Leaderboard.Leaderboards.CheckCountsLists | midtermMain.py:86-123 | the in-place update leaves the lists equal to CountsChecked of the old lists, still well formed |
| Leaderboard.Leaderboards.constructor | midtermMain.py:296-303 | the eight lists start empty |
| Champion.NextChampion | midtermMain.py:332-347 | the champion stays valid and its count never decreases; it changes only to the candidate, and only when the score is strictly higher, 0 < abundance < 1 and the name is not metastable; then the first challenger always wins, and later ones win exactly when their number is smaller or the champion's abundance is smaller |
| Champion.Run | midtermMain.py:308-347 | the champion after any run of candidates is valid: the placeholder with count 0, or a decodable, non-metastable name |
| Champion.RunOutcome | midtermMain.py:308-347 | over a whole run the count never decreases and the final champion is the initial one or an eligible, non-metastable candidate of the run |
| Presentation.Headline | midtermMain.py:228-245 | the running minimum never exceeds the champion's number |
| Presentation.HeadlineEmptyIff | midtermMain.py:231-245 | the headline is '' exactly when no positive-abundance name decodes below the champion's number, and then the running minimum is the champion's number |
| Presentation.HeadlineIsLowest | midtermMain.py:231-245 | the running minimum is at most the number of every positive-abundance name |
| Presentation.HeadlineIsFirst | midtermMain.py:231-245 | a non-empty headline is a positive-abundance name below the champion's number, carries the minimum, and every earlier positive-abundance name has a strictly larger number |
| Presentation.HeadlineIsFirstSmallest | midtermMain.py:228-245 | the headline is '' or the first positive-abundance name with the smallest number below the champion's |
| Presentation.Selection | midtermMain.py:231-250 | the first name is the headline of the running-minimum scan (characterised by HeadlineIsFirstSmallest), the second is bAEN[0]; the list contains the champion and has 3 names (the champion last) exactly when the champion is not among the first two, 2 otherwise |
| Presentation.PresentInfo | midtermMain.py:211-250 | the loop and appends return exactly that selection |
| PeakFinder.StepInBoundsIsExact | midtermMain.py:102-123 | the staged boards always pass checkAbundanceLists' indexing; StepInBounds holds exactly when checkCountsLists indexes no empty list |
| PeakFinder.StepBoards | midtermMain.py:323-330 | the three list routines in sequence keep the boards well formed |
| PeakFinder.MetastableScoreFiledUnderStagedName | midtermMain.py:101-113 | a metastable candidate's name reaches no list, and the abundance lists do not move; yet when the staged name is new its score is promoted in bC under the previous candidate's name |
| PeakFinder.UpdateChampion | midtermMain.py:332-347 | the source's if-chain computes NextChampion |
| PeakFinder.Step | midtermMain.py:308-347 | one candidate: the board becomes StepBoards of the old board with the normalised score, and the champion becomes NextChampion |
| PeakFinder.NamesMayRepeat | midtermMain.py:151-153 | from empty lists, the candidates Co60 (abundance 0.5), K40 (0.7) and Cs137 (0.1) leave K40 in both ranked slots of bAE: promotion copies the staged name over the minimum while the staging slot keeps it |
| PeakFinder.RankStep | midtermMain.py:309-330 | one candidate raises exactly when its line table is empty or a list routine would index an empty list; otherwise the boards and champion it yields are well formed and valid |
| PeakFinder.RankFold | midtermMain.py:308-347 | the candidate loop, stopping at the first raise, yields well-formed boards and a valid champion |
| PeakFinder.RankFoldChampionIsRun | midtermMain.py:308-347 | when the loop does not raise, its champion is the champion fold Run over the candidates' scores (0 for an empty line table), abundances and names |
| PeakFinder.RankFoldOutcome | midtermMain.py:308-347 | when the loop from the placeholder does not raise and ends with a named champion, that champion is a candidate with abundance strictly between 0 and 1 and a non-metastable name |
| PeakFinder.Presented | midtermMain.py:211-250 | a raise of the loop is passed on; the placeholder 'FirstRun' raises on decoding and an empty bAEN on indexing; otherwise the 2 or 3 shown names are decodable except possibly an empty headline, and include the champion |
| PeakFinder.CandidateStep | midtermMain.py:309-347 | one pass of the candidate loop raises exactly as RankStep does and then leaves the board unchanged; otherwise the new board and champion are RankStep's |
| PeakFinder.RankCandidates | midtermMain.py:308-347 | the candidate loop's outcome equals RankFold from the board it started from: on a raise, the same failure; otherwise the final board and champion |
| PeakFinder.FindPeaks | midtermMain.py:278-348 | the outcome is Analysis: the failure of the first failing code lookup, of the candidate loop, of decoding 'FirstRun' or of indexing an empty bAEN, otherwise the selection; a shown list has 2 or 3 names, all decodable except possibly an empty headline, and one of them is a found candidate with abundance strictly between 0 and 1 that is not metastable |

## Left out

- `efficiencyAdjust` is not modelled. It is floating-point polynomial numerics with no structure to verify, and `findPeaks` does not call it.
- `main` is not modelled: console prompts, comma-split number parsing and the built-in default spectrum.
- The printed output of `presentInfo` is not modelled. The model returns the list it would print.
- The nuclear-data library calls are parameters, not models. `gamma_parent`, `gamma_photon_intensity`, `name`, `natural_abund`, `atomic_mass` and `zzaaam` are uninterpreted function fields of `NuclearData`.
- PeakFinder.NuclearData: `natural_abund` appears as two fields, `naturalAbundance` (by id, for each candidate) and `abundanceOfName` (by name, for the champion at line 344). The model does not tie the two together; no property proved here depends on them agreeing.
- The library's names are assumed well formed: non-empty, and ending in a digit or in the metastable flag 'M'.
- Warning suppression at import time is not modelled.
- Floating point is modelled as exact reals. NaN appears only where the source tests for it: a line-table entry, read as 0.
- IsotopeNames.GetNum: decodes ASCII digits only. Python's `int()` also accepts other Unicode decimal digits, and names from the library do not contain them.
- PeakFinder.FindPeaks: requires each uncertainty list to be at least as long as the list it pairs with. The source does not check lengths: it raises `IndexError` only when a shorter list is actually indexed, and silently ignores extra entries.
- Leaderboard.Staged: its own contract states only well-formedness and the metastable case; StagedShape states the contents.
- Where a reader might expect otherwise, the model follows the code:
  - the lists hold 11 entries (ten ranked slots plus the staging slot), not 10;
  - a name may occur in two slots of one list (NamesMayRepeat);
  - a failing code lookup aborts the search (the `raise` in `findParents`) instead of skipping the id;
  - `getNum` fails when the last character is not a digit, instead of counting it as 0;
  - checkCountsLists has no metastable guard for the count lists (MetastableScoreFiledUnderStagedName);
  - checkCountsLists stores the abundance, not the score, in the natural counts list.
