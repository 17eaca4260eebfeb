# Champions League draw certification, in Dafny

This project models the certification engine of the Champions League draw
simulator. The engine is the part that decides whether a draw of the
36-club league phase is acceptable. It covers:

- the entities: `Club`, `Chapeau` (the four seeding pots) and `Match`, a
  directed (home, away, journée) triple;
- the `Draw` aggregate, with its duplicate-refusing insertion and the
  queries derived from its match list;
- the eight named rules of `UCLConstraints`: seven hard and one soft;
- the `DrawValidator`, which runs three layers: structural checks built
  from per-day, per-pair and home/away counters; one error entry for all
  hard-rule violations; soft-rule violations as warnings;
- the supporting logic: the coherence check of the league configuration,
  the club loader, and the draw importer.

The configuration constants are an immutable record (`LeagueConfig.Config`)
passed to every rule. `LeagueConfig.Shipped()` holds the shipped values.
Rules are a tagged datatype evaluated by `Constraints.Eval`.
Clubs are compared by id, as `Club.__eq__` does; no query uses structural
equality of club values. JSON documents arrive already decoded, as the
`JsonValues.Json` datatype. Errors and warnings are tagged values carrying
the ids and counts the source puts into its messages.

Code that loops and updates state is imperative Dafny. Examples are the
`Draw` class with `AddMatch`, the `Check*` methods of `UCLConstraints`, the
validator's counter loop `CountSides`, and the loaders' row loops. Each
method is proved against a specification function, and the properties are
proved about those functions. List comprehensions and guard sequences are
functions.

Files (one module each): `wrappers.dfy` (Option, Result, Outcome),
`seqs.dfy` (order-preserving filter and count), `text.dfy` (`str` ordering,
`strip`, `upper`, `isupper`, `in`), `json.dfy`, `club.dfy`, `match.dfy`,
`config.dfy`, `draw.dfy`, `constraints.dfy`, `validator.dfy`,
`data_loader.dfy`, `solution_loader.dfy`.

## Model

| member | source | states |
|---|---|---|
| Clubs.Chapeau.Value | src/models/club.py:6-11 | a pot's value lies in 1..4 |
| Clubs.ChapeauFromInt | src/models/club.py:13-19 | succeeds exactly for 1..4, with the pot of that value; otherwise no pot (the raise) |
| Clubs.ChapeauRoundTrip | src/models/club.py:13-19 | every pot is recovered from its value |
| Clubs.NewClub | src/models/club.py:39-51 | succeeds iff the id and name are non-empty and the country code has 3 characters and passes `isupper`; otherwise the error of the first failing check, in source order |
| Clubs.SameClubIgnoresAttributes | src/models/club.py:57-61 | club equality is by id alone (name, country and pot ignored) and is an equivalence |
| Matches.NewMatch | src/models/match.py:31-41 | succeeds iff the clubs differ by id and the round is in 1..8; self-pairing is reported before a bad round |
| Matches.ReverseMatch | src/models/match.py:56-66 | the reverse of a well-formed match swaps home and away and keeps the round |
| Matches.ReverseTwice | src/models/match.py:56-66 | reversing twice gives the match back; a reverse is never equal (directed equality) to its original |
| Matches.MatchEqEquivalence | src/models/match.py:116-124 | `__eq__` (home, away and round compared, clubs by id) is reflexive, symmetric and transitive, and equal matches involve the same clubs |
| Matches.InvolvesIgnoresDirection | src/models/match.py:91-93 | `involves_club` holds for both sides, compares by id only, and does not change when the venues are swapped |
| Matches.OpponentOf | src/models/match.py:95-109 | the away club for the home club, the home club for the away club, none exactly when the club is not involved |
| Matches.VenueFor | src/models/match.py:68-89 | home venue for the home club, away venue for the away club, an error exactly when the club is not involved |
| Matches.OpponentInvolution | src/models/match.py:95-109 | in a well-formed match the opponent of the opponent is the club itself, and differs from it |
| Matches.ReverseSwapsVenue | src/models/match.py:56-89 | reversing swaps each club's venue and keeps its opponent |
| LeagueConfig.Get | src/config.py:163-170 | `dict.get`: the default for a missing key, otherwise the value of the first entry with that key |
| LeagueConfig.ExpectedTotalMatches | src/config.py:158-160 | floor of half of clubs × matches per club |
| LeagueConfig.ClubsFromChapeau | src/config.py:163-165 | the configured pot size, 0 for an unknown pot |
| LeagueConfig.OpponentsFromChapeau | src/config.py:168-170 | the configured opponents per pot, 0 for an unknown pot |
| LeagueConfig.ValidateConfig | src/config.py:82-144 | passes iff the configuration is coherent (pot sizes sum to the club total; equal pot-key sets; opponent counts sum to matches per club; home + away = matches per club; each pot's split sums to its opponent count; column sums match; even product); otherwise the first failing check's error |
| LeagueConfig.ShippedIsCoherent | src/config.py:13-76 | the shipped constants pass the coherence check |
| LeagueConfig.ShippedExpectsTotal | src/config.py:158-160 | the shipped format expects 144 matches |
| Text.IdLessIrreflexive | src/models/draw.py:81 | no id sorts before itself |
| Text.IdLessTransitive | src/models/draw.py:81 | the id order is transitive |
| Text.IdLessTotal | src/models/draw.py:81 | two different ids are ordered one way or the other |
| Text.IdLessAsymmetric | src/models/draw.py:81 | the id order is asymmetric |
| Text.TrimStart | src/utils/data_loader.py:104 | drops exactly the leading whitespace |
| Text.TrimEnd | src/utils/data_loader.py:104 | drops exactly the trailing whitespace |
| Text.Strip | src/utils/data_loader.py:104-106 | the result neither starts nor ends with whitespace |
| Text.StripIsInfix | src/utils/data_loader.py:104-106 | the result is an infix of the input |
| Text.StripIdempotent | src/utils/data_loader.py:104-106 | stripping twice strips nothing more |
| Text.StrippedIsFixed | src/utils/data_loader.py:104-106 | a string is its own `strip()` exactly when it has no whitespace at either end |
| Text.Upper | src/utils/data_loader.py:106 | same length; each ASCII lower-case letter is raised and every other character kept |
| Text.UpperIdempotent | src/utils/data_loader.py:106 | upper-casing twice changes nothing more |
| Text.UpperKeepsStripped | src/utils/data_loader.py:106 | `upper()` after `strip()` leaves no whitespace at the ends |
| Text.UpperOfUpper | src/models/club.py:47 | a string passing `isupper` is its own `upper()` |
| Draws.ClubMatches | src/models/draw.py:49-59 | exactly the matches involving the club |
| Draws.HomeMatches | src/models/draw.py:61-63 | exactly the matches whose home club is the club |
| Draws.AwayMatches | src/models/draw.py:65-67 | exactly the matches whose away club is the club |
| Draws.DayMatches | src/models/draw.py:87 | exactly the matches of the round |
| Draws.MatchesOnDay | src/models/draw.py:83-87 | an error exactly for rounds outside 1..8, otherwise the matches of that round |
| Draws.QueriesDistribute | src/models/draw.py:49-67 | the four filters keep list order: the answer for a concatenation is the concatenation of the answers |
| Draws.HomeAwaySplit | src/models/draw.py:89-99 | without self-pairings, home count + away count = match count |
| Draws.AddClub | src/models/draw.py:103-106 | `set.add` by id: ids stay distinct and the new id is present |
| Draws.AddMatchClubs | src/models/draw.py:104-106 | both clubs of the match are added by id |
| Draws.AllClubs | src/models/draw.py:101-107 | distinct ids, and every home or away club of a match is present |
| Draws.AllClubsDrawn | src/models/draw.py:101-107 | every listed club plays in some match |
| Draws.InsertById | src/models/draw.py:81 | insertion adds exactly one club |
| Draws.InsertByIdSorted | src/models/draw.py:81 | inserting an absent id keeps the list sorted by id |
| Draws.SortById | src/models/draw.py:81 | a sorted permutation of its input |
| Draws.SortedUnique | src/models/draw.py:81 | two id-sorted lists with the same elements are equal, so any sort of the set gives this order |
| Draws.CollectOpponents | src/models/draw.py:76-80 | distinct ids, holding the opponent of every match of the club |
| Draws.CollectOpponentsDrawn | src/models/draw.py:76-80 | every collected club is the opponent in some match |
| Draws.Opponents | src/models/draw.py:69-81 | sorted by id with no repeated id, and holding every opponent of the club |
| Draws.OpponentsDrawn | src/models/draw.py:69-81 | every listed opponent is the opponent of the club in some match |
| Draws.OpponentIds | src/models/draw.py:69-81 | an id is among the opponents iff some match puts a club with that id opposite the club |
| Draws.MatchesAgainst | src/models/draw.py:134-137 | exactly the matches in which the club meets that opponent |
| Draws.SameCountry | src/models/draw.py:132-133 | exactly the listed clubs from the given country |
| Draws.SameCountryDistinct | src/models/draw.py:132-133 | keeping one country's clubs keeps ids distinct |
| Draws.ClashesAmong | src/models/draw.py:130-138 | the i-th pair is the i-th same-country opponent in list order with the number of matches against it; as many pairs as same-country opponents |
| Draws.CountryClashes | src/models/draw.py:123-138 | one pair per same-country opponent, in the opponents' id order, with distinct ids; each holds its number of matches (at least 1) |
| Draws.DistinctIdCount | src/models/draw.py:130-138 | a list with distinct ids has as many ids as elements |
| Draws.ClashesCountSameCountryOpponents | src/models/draw.py:123-138 | the number of clashes is the number of distinct same-country opponents |
| Draws.AppendUnique | src/models/draw.py:44-47 | success iff no match duplicates an earlier one; otherwise the run stops at the first duplicate with the earlier additions kept; no duplicates are introduced |
| Draws.Draw.constructor | src/models/draw.py:21-22 | no matches; season "2025-26" |
| Draws.Draw.FromMatches | src/models/draw.py:21-27 | the given list and season, with no duplicate check |
| Draws.Draw.AddMatch | src/models/draw.py:29-42 | a duplicate is refused and the list is unchanged; otherwise the match is appended; the season is unchanged |
| Draws.Draw.AddMatches | src/models/draw.py:44-47 | the list and the outcome are those of `AppendUnique` |
| Draws.Draw.GetAllClubs | src/models/draw.py:101-107 | the loop computes `AllClubs` |
| Draws.Draw.GetOpponentsForClub | src/models/draw.py:69-81 | the loop computes `Opponents` |
| Draws.Draw.GetCountryClashesForClub | src/models/draw.py:123-138 | the loop computes `CountryClashes` |
| Draws.Draw.HasCountryClash | src/models/draw.py:140-145 | false across countries; otherwise true iff the second club is an opponent of the first |
| Draws.Draw.GetClubsByCountry | src/models/draw.py:109-114 | a key per country of the drawn clubs, holding exactly that country's clubs |
| Draws.Draw.GetClubsByChapeau | src/models/draw.py:116-121 | a key per pot value of the drawn clubs (1..4), holding exactly that pot's clubs |
| Draws.KeyGroup | src/models/draw.py:111-113 | exactly the clubs with that key |
| Draws.GroupClubs | src/models/draw.py:111-113 | the `defaultdict(list)` loop: keys are the keys met, each list is `KeyGroup` |
| Constraints.TrailingRunAtLeast | src/constraints/ucl_constraints.py:265-271 | the running counter is at least n iff the last n venues are all that venue |
| Constraints.RunsAgainstWindows | src/constraints/ucl_constraints.py:262-274 | the counter check passes iff there is no run of more than the maximum home or away venues |
| Constraints.InsertByDay | src/constraints/ucl_constraints.py:250-253 | insertion adds exactly one match |
| Constraints.SortByDay | src/constraints/ucl_constraints.py:250-253 | a permutation of the club's matches |
| Constraints.InsertByDaySorted | src/constraints/ucl_constraints.py:250-253 | insertion keeps the round order |
| Constraints.SortByDaySorted | src/constraints/ucl_constraints.py:250-253 | the result is in non-decreasing round order |
| Constraints.InsertByDayStable | src/constraints/ucl_constraints.py:250-253 | insertion goes after the matches of its round |
| Constraints.SortByDayStable | src/constraints/ucl_constraints.py:250-253 | the sort is stable: each round keeps its list order |
| Constraints.Venues | src/constraints/ucl_constraints.py:256-259 | one venue per match, home exactly when the club is the home club |
| Constraints.ViolatedNames | src/constraints/ucl_constraints.py:294-307 | empty exactly when every rule holds |
| Constraints.ViolatedNamesAppend | src/constraints/ucl_constraints.py:294-307 | violated names keep registration order: a concatenation gives concatenated names |
| Constraints.BySeverity | src/constraints/ucl_constraints.py:286-292 | exactly the constraints of the given severity |
| Constraints.RegistrySplit | src/constraints/ucl_constraints.py:75-150 | eight rules; the first seven hard; the last is the soft `no_consecutive_matches`; hard and soft partition the list in order |
| Constraints.RegistryShape | src/constraints/ucl_constraints.py:294-317 | all violations are the hard violations followed by the soft ones |
| Constraints.CountByPot | src/constraints/ucl_constraints.py:184-188 | the histogram gives each pot's number of distinct opponents |
| Constraints.PotCountsOk | src/constraints/ucl_constraints.py:191-193 | true iff every configured pot has the expected number of distinct opponents |
| Constraints.PotVenueCountsOk | src/constraints/ucl_constraints.py:200-214 | computes the per-pot home/away match-count check for one club |
| Constraints.ForeignCountsOk | src/constraints/ucl_constraints.py:234-241 | true iff no foreign country supplies more than the maximum of distinct opponents |
| Constraints.RunsCheck | src/constraints/ucl_constraints.py:262-274 | computes the resetting home/away run counters check |
| Constraints.UCLConstraints.constructor | src/constraints/ucl_constraints.py:63-150 | the eight rules in registration order |
| Constraints.UCLConstraints.GetHardConstraints | src/constraints/ucl_constraints.py:286-288 | exactly the hard constraints, in order |
| Constraints.UCLConstraints.GetSoftConstraints | src/constraints/ucl_constraints.py:290-292 | exactly the soft constraints, in order |
| Constraints.UCLConstraints.CheckTotalMatches | src/constraints/ucl_constraints.py:156-159 | true iff the match count equals the expected total |
| Constraints.UCLConstraints.CheckMatchesPerClub | src/constraints/ucl_constraints.py:161-166 | true iff every drawn club has the configured match count |
| Constraints.UCLConstraints.CheckHomeAwayBalance | src/constraints/ucl_constraints.py:168-179 | true iff every drawn club has the configured home and away counts |
| Constraints.UCLConstraints.CheckOpponentsPerChapeau | src/constraints/ucl_constraints.py:181-195 | true iff every drawn club has the configured number of distinct opponents per pot |
| Constraints.UCLConstraints.CheckChapeauHomeAwayDistribution | src/constraints/ucl_constraints.py:197-216 | true iff every drawn club's home-vs-pot and away-vs-pot match counts equal the configured split |
| Constraints.UCLConstraints.CheckNoSameCountryOpponents | src/constraints/ucl_constraints.py:218-227 | true iff no drawn club has more same-country opponents than allowed |
| Constraints.NoSameCountryMeaning | src/constraints/ucl_constraints.py:218-227 | the rule holds iff every drawn club has at most the allowed number of distinct same-country opponents |
| Constraints.UCLConstraints.CheckMaxTwoFromSameForeignCountry | src/constraints/ucl_constraints.py:229-242 | true iff no drawn club meets more than the maximum of distinct opponents from one foreign country |
| Constraints.UCLConstraints.CheckNoConsecutiveMatches | src/constraints/ucl_constraints.py:244-276 | true iff each drawn club's round-sorted venue sequence passes the run counters |
| Constraints.UCLConstraints.IsSatisfied | src/constraints/ucl_constraints.py:51-53 | the check the rule names |
| Constraints.UCLConstraints.VerifyList | src/constraints/ucl_constraints.py:301-307 | every rule evaluated, violated names in order, ok iff none |
| Constraints.UCLConstraints.VerifyAllConstraints | src/constraints/ucl_constraints.py:294-307 | violated names of all rules in registration order; ok iff every rule holds |
| Constraints.UCLConstraints.VerifyHardConstraints | src/constraints/ucl_constraints.py:309-317 | the same over the hard rules only |
| Validation.MatchEntriesCounts | src/validators/draw_validator.py:59-63 | one match gives one self-match entry iff self-paired and one round entry iff out of bounds |
| Validation.MatchErrorsCounts | src/validators/draw_validator.py:59-63 | as many self-match entries as self-paired matches, and as many round entries as out-of-bounds matches |
| Validation.MatchErrorsMeaning | src/validators/draw_validator.py:59-63 | each entry names a self-paired or out-of-bounds match, and every such match has its entry |
| Validation.DayCountIsRoundMatches | src/validators/draw_validator.py:77-80 | without self-matches, the per-day counter is the number of the club's matches that round |
| Validation.ClubDayErrorsMeaning | src/validators/draw_validator.py:91-96 | an entry for a round in 1..n exactly when the counter is not 1 |
| Validation.DayErrorsMeaning | src/validators/draw_validator.py:91-96 | an entry exactly for a listed club and a configured round whose counter is not 1 |
| Validation.PairKeyUnordered | src/validators/draw_validator.py:83 | the pair key ignores direction and round, and holds both ids smaller first |
| Validation.PairKeysMeaning | src/validators/draw_validator.py:83-84 | a key is present iff some match has it |
| Validation.PairKeysDistinct | src/validators/draw_validator.py:84 | each pair is listed once |
| Validation.PairDaysMeaning | src/validators/draw_validator.py:83-84 | a round is recorded for a pair iff some match of that pair is on that round |
| Validation.PairDaysOfUnseenKey | src/validators/draw_validator.py:84 | an unseen pair has no rounds |
| Validation.PairErrorsMeaning | src/validators/draw_validator.py:99-101 | an entry exactly for a listed pair with more than one distinct round |
| Validation.PairEntries | src/validators/draw_validator.py:99-101 | a pair entry exists iff the pair meets on more than one distinct round, with exactly those rounds |
| Validation.SameRoundReplayNotFlagged | src/validators/draw_validator.py:99-101 | the same match twice on one round gives no pair entry |
| Validation.TalliesAreDrawCounts | src/validators/draw_validator.py:87-88 | the home and away tallies are the draw's home and away match counts |
| Validation.TallyErrorsMeaning | src/validators/draw_validator.py:104-112 | a home (away) entry exactly for a listed club whose home (away) tally is off |
| Validation.TallyErrorsKinds | src/validators/draw_validator.py:104-112 | every tally entry belongs to a listed club and carries its tally and the expected value |
| Validation.TallyErrorsAgreeWithBalance | src/validators/draw_validator.py:104-112 | no tally entry on the drawn clubs iff `home_away_balance` holds |
| Validation.InternalHasNoHardEntry | src/validators/draw_validator.py:55-114 | the structural layer never produces the hard-rule entry |
| Validation.HardRulesOneEntry | src/validators/draw_validator.py:38-40 | exactly one hard-rule entry when some hard rule fails, none otherwise |
| Validation.SoftNamesOverRegistry | src/validators/draw_validator.py:43-48 | with the registered rules, the warnings are empty if the soft rule holds and otherwise the single warning naming it |
| Validation.VerdictOverRegistry | src/validators/draw_validator.py:29-50 | with the registered rules, no errors iff the structural layer is silent and all seven hard rules hold |
| Validation.StructureGivesTotalAndBalance | src/validators/draw_validator.py:66-68 | a silent structural layer implies `total_matches` and `home_away_balance` |
| Validation.DrawValidator.constructor | src/validators/draw_validator.py:23-24 | a fresh rule set with the registered rules, which is the invariant `Valid()` that `Validate` requires |
| Validation.DrawValidator.CheckInternalConsistency | src/validators/draw_validator.py:55-114 | the loops compute the structural errors: match checks, total, per-day, pair and tally entries, in that order |
| Validation.DrawValidator.RunLayers | src/validators/draw_validator.py:29-50 | structural errors plus at most one hard-rule entry; the warnings hold only the soft-rule entry; ok iff no errors; all read from the draw alone |
| Validation.DrawValidator.Validate | src/validators/draw_validator.py:23-50 | with the registered rule set: ok iff the structural layer is silent and all seven hard rules hold; the only warning is the one for `no_consecutive_matches`, given iff that rule fails |
| Validation.RegistryVerdict | src/validators/draw_validator.py:29-50 | the layers' output over the registered rules is the verdict and warning stated for `Validate` |
| Validation.AppendMatchErrors | src/validators/draw_validator.py:59-63 | appends the match checks' entries |
| Validation.AppendDayErrors | src/validators/draw_validator.py:91-96 | appends the per-day entries, read from the counters |
| Validation.AppendPairErrors | src/validators/draw_validator.py:99-101 | appends the pair entries, read from `pair_days` |
| Validation.AppendTallyErrors | src/validators/draw_validator.py:104-112 | appends the home/away entries, read from the counters |
| Validation.DayCountersStep | src/validators/draw_validator.py:79-80 | one match's two increments keep the per-day counters exact |
| Validation.PairCountersStep | src/validators/draw_validator.py:83-84 | one `setdefault(...).add` keeps `pair_days` and its key order exact |
| Validation.VenueCountersStep | src/validators/draw_validator.py:87-88 | one match's increments keep the home and away counters exact |
| Validation.CountSides | src/validators/draw_validator.py:77-88 | the counting loop leaves every counter equal to its specification |
| ClubLoading.ParseClub | src/utils/data_loader.py:96-120 | missing fields are reported as a set; otherwise id, name and country are stripped, the country upper-cased, the pot converted and checked; a parsed club is valid |
| ClubLoading.ParsedClubIsNormalised | src/utils/data_loader.py:104-106 | a parsed club is stripped, with an upper-case country |
| ClubLoading.RecordRoundTrip | src/utils/data_loader.py:134-142 | parsing the record written for a valid, normalised club gives the club back |
| ClubLoading.ClubItems | src/utils/data_loader.py:50-67 | a top-level list or a dict's `"clubs"`; any other shape, a missing key or an empty list is an error |
| ClubLoading.LoadClubs | src/utils/data_loader.py:50-79 | a selection error is passed on; otherwise the items are parsed in order |
| ClubLoading.ParseItems | src/utils/data_loader.py:69-79 | all clubs in item order when every item parses; otherwise the first failure, tagged with its index |
| ClubLoading.PotTallySum | src/utils/data_loader.py:171-174 | the pot histogram sums to the number of clubs, with no pot outside 1..4 |
| ClubLoading.PotTallyPositive | src/utils/data_loader.py:176-178 | a pot has a count iff some club is in it |
| ClubLoading.DistinctBySize | src/utils/data_loader.py:163 | as many distinct ids as ids iff no id repeats |
| ClubLoading.RepeatedMeaning | src/utils/data_loader.py:164 | `count(id) > 1` iff the id sits at two positions |
| ClubLoading.Ids | src/utils/data_loader.py:162 | the ids of the clubs, in order |
| ClubLoading.DuplicateReport | src/utils/data_loader.py:161-168 | the duplicate test fires iff ids repeat, and then lists exactly the repeated ids |
| ClubLoading.CountPots | src/utils/data_loader.py:171-174 | the loop computes each pot's club count |
| ClubLoading.ValidateClubsList | src/utils/data_loader.py:158-189 | empty list invalid; repeated ids invalid with exactly those ids; otherwise the count, a histogram over 1..4 summing to the count, the number of countries, and the absent pots |
| DrawImport.RowKeysCheck | src/utils/solution_loader.py:134-136 | passes iff every key is in the row; otherwise the first missing key |
| DrawImport.ValidateDrawSchema | src/utils/solution_loader.py:124-138 | rejects a non-object payload, then a missing, non-list or empty `matches`; checks the three keys on the first row only; the season defaults to "2025-26" |
| DrawImport.SchemaIgnoresLaterRows | src/utils/solution_loader.py:133-136 | rows after the first never change the schema verdict |
| DrawImport.EnsureClubs | src/utils/solution_loader.py:85-99 | an empty list is refused, a non-empty list returned unchanged; a document gives exactly the clubs its items parse to, in item order, or its load failure wrapped |
| DrawImport.ClubIndex | src/utils/solution_loader.py:102-109 | keys are exactly the clubs' ids, each mapped to a club of the list with that id |
| DrawImport.ClubIndexOfDistinct | src/utils/solution_loader.py:102-109 | with distinct ids, every club is what its id maps to |
| DrawImport.BuildClubIndex | src/utils/solution_loader.py:102-109 | succeeds iff ids are distinct, giving `ClubIndex` of the list, mapping every id to its club; otherwise the first id met a second time |
| DrawImport.MissingIds | src/utils/solution_loader.py:70 | exactly the ids absent from the index, at most two |
| DrawImport.RowFields | src/utils/solution_loader.py:62-67 | fails exactly when a field is missing or the round is not an integer; the ids are stripped |
| DrawImport.ResolveIds | src/utils/solution_loader.py:69-80 | unknown ids are reported with exactly the missing ones; then the `Match` checks; success gives the indexed clubs |
| DrawImport.ResolveRow | src/utils/solution_loader.py:61-80 | a row that fails names its index; a resolved match is well-formed |
| DrawImport.ResolvedRowFromIndex | src/utils/solution_loader.py:73-76 | the resolved match is made of the indexed clubs for the row's ids |
| DrawImport.ResolvedRowIgnoresPosition | src/utils/solution_loader.py:73-76 | a resolved row gives the same match at any index |
| DrawImport.ResolveRows | src/utils/solution_loader.py:60-81 | one match per row in row order when all resolve; otherwise the first failing row's error |
| DrawImport.ResolvedAreWellFormed | src/utils/solution_loader.py:73-76 | every imported match is well-formed |
| DrawImport.ResolvedFromIndex | src/utils/solution_loader.py:69-76 | every imported match is made of indexed clubs |
| DrawImport.RepeatedRowKept | src/utils/solution_loader.py:60-82 | a repeated row is imported twice, so the list has a duplicate that `add_match` would refuse |
| DrawImport.RowErrorKinds | src/utils/solution_loader.py:60-81 | a row failure is an invalid row, unknown clubs or an invalid match |
| DrawImport.ImportMatches | src/utils/solution_loader.py:56-81 | an empty list or repeated club ids are refused and a document's load failure is passed on; otherwise the rows resolve in order against the index of the clubs (for a document, the clubs its items parse to): one well-formed match per row, or the first failing row's error |
| DrawImport.LoadDraw | src/utils/solution_loader.py:29-82 | schema errors first; a fresh draw with the schema's season whose matches are the rows resolved in order against the index of the club base (a given list, or the clubs a document parses to), or the first row error; each match well-formed; an empty list, repeated ids or a document that fails to load are refused |

## Left out

- File and JSON I/O is not modelled: path existence, the `.json` suffix test, reading, `json.load`/`json.dump`, and the path branch of `_ensure_clubs`. The loaders take the decoded document (`Json`); `save_clubs_to_file` is modelled only by the record it writes (`ClubLoading.ClubRecord`).
- Reporting is left out: `__repr__`, `__str__`, `vs_string`, `full_string`, `get_statistics`, `to_dict`, `get_constraint_details`, the rule descriptions and `ConstraintType`. Messages are tagged values with their ids and counts, not formatted text.
- `__hash__` is not modelled; equality is.
- Python's `int()` on non-integers and `str()` on non-strings are parameters (`toInt`, `toStr`). JSON has no floats here.
- `Text.Upper` and `Text.IsUpper` cover ASCII letters only; Unicode case mapping is not modelled. `Text.IsSpace` lists the characters `str.strip()` removes.
- `Validation.DrawValidator.CheckInternalConsistency` fixes one order for the per-club entries: clubs in first-appearance order. Python iterates a `set`, whose order is not specified. The Meaning lemmas state these entries as membership facts, which hold for any order.
- Draws.Draw.GetClubsByCountry and Draws.Draw.GetClubsByChapeau: each group holds its clubs in first-appearance order of the drawn clubs, where Python iterates a `set` whose order is not specified; the key order of the returned `dict` (insertion order, sorted for pots) is not kept, since a `map` has none.
- `ClubLoading.ValidateClubsList` reports the duplicate ids as a set; the source lists them in set iteration order.
- The module-level `validate_config()` call at import is not modelled, and neither is the `getattr` default of `MAX_OPPONENTS_PER_FOREIGN_COUNTRY`. The configuration is an explicit record and `LeagueConfig.ValidateConfig` is a method on it.
- Constraints.RunsAgainstWindows: the link to plain run lengths is proved for non-negative limits only; the counter check itself (`RunsCheck`) is modelled for any limits.
- Constraints.UCLConstraints.CheckMatchesPerClub and the other `Check*` methods evaluate the query functions of `Draws` rather than calling the `Draw` methods; each method is proved equal to the function it uses.
- Validation.DrawValidator.RunLayers evaluates the soft rules through `VerifyList` over `GetSoftConstraints()`, which gives the same names as the source's list comprehension.
- Draws.Draw.FromMatches: the `matches is None` branch of `__post_init__` is not modelled, since the importer always passes a list.
- `Draw.season` is kept as the decoded JSON value, because the importer's `payload.get("season", ...)` can hold any JSON value.
- DrawImport.ValidateDrawSchema: a first row that is a number, boolean or null makes the source's `in` test raise `TypeError`. The model reports this as `RowNotContainer`.
