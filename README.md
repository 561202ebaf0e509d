# dhont_optimizer: the deterministic core, modelled in Dafny

dhont_optimizer looks for the smallest movement of votes between parties, and between wings (coalitions of parties), that changes a D'Hondt seat allocation as wanted. It builds one mixed-integer model over many districts (provinces) and hands it to a MILP solver. This project models the bookkeeping that happens before the solver is involved:

- **The D'Hondt baseline of a district.** This is `Province.initial_distribution`. Every party starts with its votes as its quotient. `num_seats` rounds follow. In each round the first party with the largest quotient wins. The scan replaces the current party only on a strictly larger quotient, so ties go to the earlier party. The winner's quotient becomes `votes/(wins+1)`. Each round appends a one-hot row to `matrix_A`.
- **The prefix table of pre-decided seats.** `build_S` fills `matrix_S`, and `lastline_S` is its row `first_contested_seat - 1`.
- **The wings of a district.** `wings_data` groups parties by wing in first-appearance order and sums their votes. `initial_distribution_wings` sums the members' baseline wins.
- **`SeatsModel.__init__`.** It chooses each district's settings entry: the district's own entry, the entry of the `group` it names, or `_default`. It builds the districts and removes the districts with their own entry from `default_provinces`.
- **`create_model` up to step 1 of `create_global_variables`.** Every district creates its `Party` and `Wing` objects (`create_parties`, `create_wings`). Then the national totals `all_seats`, `all_votes`, `all_parties` and `all_wings` are accumulated.
- **The province intersections.** These are the comprehensions that select the districts where two parties, or two wings, both stand.
- **The variable tables of `Party` and `Wing`.** They are memoised maps that each `*_var` accessor fills on first use. `generate_variables` walks the index universe that fills them.

The solver appears only as an allocator of variables. `MipSolver.Solver` keeps a log of `(kind, lo, hi)` entries, and a handle is a position in that log.

The model is organised as follows:

- **Data.** Parties are positions in `parties_names`, the dict's insertion order. An ordered dict that the source builds is a key sequence plus a map.
- **The aggregation walk.** `Tally` describes the first-appearance walk that `wings_data`, `wings_dhont`, `all_parties` and `all_wings` share.
- **Mutable objects.** `Party`, `Wing`, `Solver` and `SeatsModel` are classes whose methods update their fields in place.
- **Districts.** `Province` is a value holding the fields `__init__` sets once: the inputs, the D'Hondt baseline, the matrices and the wing data. The lists `parties` and `wings` start empty (seats.py:375-376), and `create_parties`/`create_wings` fill them in place (seats.py:424, 430). The model keeps them outside the value, as `SeatsModel.partyRosters`/`wingRosters`, one roster per district, in district order.
- **Imperative operations.** These are `initial_distribution`, `build_S`, the `wings_data` loop, `initial_distribution_wings`, the roster loops, the settings loop and step 1. Each is a method proved against a specification function. The properties are proved about those functions.

Quotients are exact rationals (`real`), so the model compares `votes/(wins+1)` exactly.

The source does not validate `num_seats` or `first_contested_seat`:

- **`first_contested_seat = num_seats + 1` is accepted.** Every seat is then pre-decided and no round is contested. The model accepts it too.
- **Zero seats are accepted, and so is a district without parties when it has no seats.** The model accepts `num_seats = 0`. With seats to give and no party, the code fails at `parties_names[0]` (seats.py:394), and so does the model.
- **`first_contested_seat = 0` is accepted by the code.** The district is built, but the solver model built from it is infeasible. The model rejects this value as the corrected behaviour. This is logged under Findings.

## Model

| member | source | states |
|---|---|---|
| DHondt.LeaderIsFirstMaximum | dhont_optimizer/seats.py:394-397 | the scan over the first `j` parties keeps a party whose quotient is at least every scanned party's, and strictly above every earlier party's (strict `<` keeps the first maximum) |
| DHondt.WinnerIsFirstMaximum | dhont_optimizer/seats.py:394-397 | a party wins a round if and only if it is the first party with the largest quotient |
| DHondt.InitialDistribution | dhont_optimizer/seats.py:388-403 | the loop leaves `parties_dhont` equal to the reference standings after `num_seats` rounds and `matrix_A` equal to the reference one-hot matrix |
| DHondt.StartStandings | dhont_optimizer/seats.py:391-392 | before any round each party's quotient is its votes and its wins are 0 |
| DHondt.RoundLeader | dhont_optimizer/seats.py:394-397 | the inner scan returns the round winner of the reference run |
| DHondt.StandingsStart | dhont_optimizer/seats.py:391-392 | the reference standings before round 0: quotient equal to votes, no wins, wing copied |
| DHondt.StandingsStep | dhont_optimizer/seats.py:398-401 | one round changes only the winner, whose wins grow by one and whose quotient becomes `original_votes/(wins+1)` |
| DHondt.MatrixAStep | dhont_optimizer/seats.py:398-399 | each round appends one one-hot row for its winner to `matrix_A` |
| DHondt.MatrixAOneHot | dhont_optimizer/seats.py:398-399 | `matrix_A` has `num_seats` rows, each with exactly one 1 (at the round winner) and 0 elsewhere |
| DHondt.OneHotSum | dhont_optimizer/seats.py:398 | a one-hot row sums to 1 |
| DHondt.WinsAreColumnSums | dhont_optimizer/seats.py:398-400 | each party's wins after the run are the column sums of `matrix_A` |
| DHondt.TotalWins | dhont_optimizer/seats.py:393-400 | the wins of all parties add up to the number of rounds |
| DHondt.MatrixAPrefix | dhont_optimizer/seats.py:393-399 | the first `i` rows of `matrix_A` are the matrix of an `i`-round run |
| DHondt.BuildS | dhont_optimizer/seats.py:405-413 | `matrix_S` has `first_contested_seat` rows; row 0 is all zeros; row `i+1` is row `i` plus `matrix_A[i]` pointwise; row `i` is the column sums of the first `i` rows of `matrix_A` |
| DHondt.HeldSeats | dhont_optimizer/seats.py:405-413 | row `i` of the prefix table is the wins each party had before round `i`, and sums to `i` |
| DHondt.WinnerKeepsRoundOrder | dhont_optimizer/seats.py:673-679 | the winner of a round satisfies `votes(p)/(1+s[p]) >= votes(q)/(1+s[q])` for every other party `q` |
| DHondt.BaselineKeepsRoundOrder | dhont_optimizer/seats.py:673-679 | the same ordering holds for every round of the baseline run, with the seats held before that round |
| DHondt.ScaledOrder | dhont_optimizer/seats.py:679 | the constraint's form `(1/(1+s))*votes` orders parties as the quotient `votes/(s+1)` does |
| Ballot.VotesByName | dhont_optimizer/party.py:12-15 | `parties_data[q]["votes"]` is defined exactly for the listed parties and gives each party's votes |
| Ballot.IndexOf | dhont_optimizer/seats.py:367 | the position of a listed party name, the first such position |
| Tally.KeyMembership | dhont_optimizer/seats.py:360-362 | a key is in the walk's keys if and only if some item credits it |
| Tally.KeysDistinct | dhont_optimizer/seats.py:357-365 | the keys of the walk (dict keys) are distinct |
| Tally.WalkStep | dhont_optimizer/seats.py:360-365 | one more item adds its key if it is new, and appends its label and adds its amounts to that key only |
| Tally.Unseen | dhont_optimizer/seats.py:360-362 | a key no item credits has no labels and zero totals |
| Tally.LabelMembership | dhont_optimizer/seats.py:362-364 | a label is listed under a key if and only if an item with that key carries it |
| Tally.KeysLabelled | dhont_optimizer/seats.py:360-364 | a key exists if and only if its label list is non-empty |
| Tally.GroupTotals | dhont_optimizer/seats.py:357-365 | the per-key totals add up to the sum over all items: grouping loses and duplicates nothing |
| Tally.TotalsStepSeen | dhont_optimizer/seats.py:363-365 | crediting an existing key grows the sum of totals by the item's amount |
| Tally.TotalsSeenAt | dhont_optimizer/seats.py:363-365 | crediting an existing key changes only that key's total |
| Tally.TotalsStepNew | dhont_optimizer/seats.py:360-362 | a new key grows the sum of totals by the item's amount |
| Tally.TotalsUnchanged | dhont_optimizer/seats.py:360-365 | totals of other keys are not touched by an item |
| Tally.SameWalk | dhont_optimizer/seats.py:357-365 | two walks with the same keys and labels in the same order have the same keys and label lists |
| Tally.OverallIsSum | dhont_optimizer/seats.py:355 | the overall amount of a walk is the sum of its items' amounts |
| Tally.WalkAppend | dhont_optimizer/seats.py:515-534 | labels, totals and the overall amount of two walks in a row are those of each walk combined |
| Tally.SingleItem | dhont_optimizer/seats.py:360-362 | a key credited by one item only has that item's label and amount |
| Tally.NoItem | dhont_optimizer/seats.py:360-362 | a key credited by no item has no label and zero total |
| Provinces.PartyShares | dhont_optimizer/seats.py:358-364 | the wings_data walk reads each party's wing, name and votes in `parties_data` order |
| Provinces.WinShares | dhont_optimizer/seats.py:417-418 | the wings_dhont walk reads each party's wing and baseline wins in `parties_names` order |
| Provinces.WingsDataStepAt | dhont_optimizer/seats.py:358-364 | one party further changes only its own wing's entry: a new entry `[p], votes`, or `parties + [p]`, `votes + v` |
| Provinces.WingsDataStep | dhont_optimizer/seats.py:358-364 | the same as one map update |
| Provinces.BuildWingsData | dhont_optimizer/seats.py:357-368 | the loop leaves `wings_names` equal to the wings in first-appearance order and `wings_data` equal to the reference aggregation |
| Provinces.InitialDistributionWings | dhont_optimizer/seats.py:415-419 | `wings_dhont` has exactly the wings as keys, and each wing's wins are the sum of its parties' baseline wins |
| Provinces.PrefixTable | dhont_optimizer/seats.py:405-413 | the reference `matrix_S` with the requested number of rows |
| Provinces.SharesAgree | dhont_optimizer/seats.py:357-368 | the two walks (votes and wins) see the same wings in the same order with the same members |
| Provinces.NewProvince | dhont_optimizer/seats.py:327-386 | the constructor builds exactly `ProvinceOf`: it fails at `parties_names[0]` with no party and on a `matrix_A`/`matrix_S` index out of range, as the code does, and also on `first_contested_seat = 0` |
| ProvinceFacts.Built | dhont_optimizer/seats.py:327-386 | a built district holds the baseline, `matrix_A`, the prefix table, `lastline_S`, `total_votes` and the wing data of its inputs, with `1 <= first_contested_seat <= num_seats+1` |
| ProvinceFacts.HeldSeatsBeforeContest | dhont_optimizer/seats.py:386 | `lastline_S` is each party's wins before the first contested seat, and sums to `first_contested_seat - 1` |
| ProvinceFacts.LastLineColumns | dhont_optimizer/seats.py:386 | `lastline_S` is the column sums of the pre-decided rows of `matrix_A` |
| ProvinceFacts.BuiltIsConsistent | dhont_optimizer/seats.py:327-386 | a built district with distinct party names satisfies the district invariants that `Party`/`Wing` rely on |
| ProvinceFacts.WingsConsistent | dhont_optimizer/seats.py:357-368 | wing names are distinct and are exactly the keys of `wings_data` and `wings_dhont` |
| ProvinceFacts.SeatBudget | dhont_optimizer/seats.py:801 | the contested rounds `first_contested_seat..num_seats` plus the pre-decided seats make exactly `num_seats` |
| ProvinceFacts.PreDecidedOrder | dhont_optimizer/seats.py:673-679 | for every pre-decided round `i` won by `p`, the baseline satisfies the emitted constraint `(1/(1+S[i][p]))*votes(p) >= (1/(1+S[i][q]))*votes(q)` for every `q` |
| ProvinceFacts.IndicatorRangeNonEmpty | dhont_optimizer/party.py:143-147 | `sij < k` for every later round `k`, so the indicator range `range(sij, k)` is never empty |
| ProvinceFacts.WingsNames | dhont_optimizer/seats.py:357-368 | a wing is listed if and only if some party names it, and exactly the listed wings have data and wins |
| ProvinceFacts.PartyInOneWing | dhont_optimizer/seats.py:358-364 | a party appears in a wing's `parties` list if and only if it is that party's wing |
| ProvinceFacts.PartyInOneWingOf | dhont_optimizer/seats.py:358-364 | the same, stated on the aggregation of the inputs |
| ProvinceFacts.WingVotesTotal | dhont_optimizer/seats.py:355-365 | the wings' votes add up to `total_votes` |
| ProvinceFacts.WingVotes | dhont_optimizer/seats.py:357-365 | the wings' votes in `wings_names` order |
| ProvinceFacts.WingWins | dhont_optimizer/seats.py:415-419 | the wings' baseline wins in `wings_names` order |
| ProvinceFacts.PartySharesTotal | dhont_optimizer/seats.py:355-365 | the wing vote totals of the inputs add up to the votes of all parties |
| ProvinceFacts.WingWinsFields | dhont_optimizer/seats.py:415-419 | `wings_dhont` of a built district is the wins walk over its baseline |
| ProvinceFacts.WinSharesTotal | dhont_optimizer/seats.py:415-419 | the wing wins of a run of `n` rounds add up to `n` |
| ProvinceFacts.WingWinsTotal | dhont_optimizer/seats.py:415-419 | the wings' baseline wins add up to `num_seats` |
| ProvinceFacts.LastLineAsWritten | dhont_optimizer/seats.py:386 | Python list indexing: `matrix_S[fcs - 1]` exists exactly for `-len <= fcs-1 < len` |
| ProvinceFacts.PrefixTableAsWritten | dhont_optimizer/seats.py:405-413 | `build_S` for any `first_contested_seat`: a single zero row when it is at most 1 |
| ProvinceFacts.ZeroFirstSeatOverAssigns | dhont_optimizer/seats.py:386 | with `first_contested_seat = 0`, `lastline_S` is the zero row and the contested rounds `0..num_seats` plus held seats make `num_seats + 1` |
| ProvinceFacts.ZeroFirstSeatInfeasible | dhont_optimizer/seats.py:774-801 | with `first_contested_seat = 0`, round 0 is contested and round 1 (if any) is a later round. For any assignment of round 0 to exactly one party, that party's round-0 seat plus `lastline_S` exceeds the upper bound 0 of `seats_before_k_var(1)`, or of `seats_var()` when there are no seats, so the constraints cannot all hold |
| MipSolver.Solver.constructor | dhont_optimizer/seats.py:458 | a new solver holds no variable |
| MipSolver.Solver.NewVar | dhont_optimizer/party.py:62-64 | a new variable gets the next handle and its kind and bounds, and the log only grows |
| PartyVars.Party.constructor | dhont_optimizer/party.py:7-46 | the derived fields: wing, votes, `other_votes == total_votes - my_votes`, `other_parties` is `parties_names` without the party (order kept, one shorter), `sij == lastline_S[name]`; all tables empty |
| PartyVars.Party.VotesVar | dhont_optimizer/party.py:60-67 | memoised: the first call creates a continuous variable in `[0, total_votes]`, later calls return it and change nothing |
| PartyVars.Party.DeltaPosVotesByPartyVar | dhont_optimizer/party.py:69-77 | memoised per party `q`, bounds `[0, votes(q)]`; other keys untouched |
| PartyVars.Party.DeltaNegVotesByPartyVar | dhont_optimizer/party.py:79-86 | memoised per party `q`, bounds `[0, my_votes]`; other keys untouched |
| PartyVars.Party.SeatKIsAssignedVar | dhont_optimizer/party.py:88-91 | memoised boolean per round `k` |
| PartyVars.Party.SeatsBeforeKVar | dhont_optimizer/party.py:93-96 | memoised integer per round `k`, bounds `[0, k-1]` |
| PartyVars.Party.QuotientBeforeKVar | dhont_optimizer/party.py:98-101 | memoised continuous per round `k`, bounds `[0, total_votes]` |
| PartyVars.Party.SeatsBeforeKIndicatorsVar | dhont_optimizer/party.py:103-108 | memoised boolean per `(k, m)`; every other `(k', m')` entry is kept |
| PartyVars.Party.PartialWinsIndicatorsVar | dhont_optimizer/party.py:110-115 | memoised boolean per `(k, q)`; every other entry is kept |
| PartyVars.Party.RoundWinsIndicatorsVar | dhont_optimizer/party.py:117-120 | memoised integer per round `k`, bounds `[0, parties_number-1]` |
| PartyVars.Party.SeatsVar | dhont_optimizer/party.py:122-125 | memoised integer, bounds `[0, num_seats]` |
| PartyVars.Party.GenerateVariables | dhont_optimizer/party.py:129-147 | votes and seats exist; the delta tables gain exactly `other_parties`; the round tables gain exactly `first_contested_seat..num_seats`, with `(k, q)` for each other party; the entering-round tables gain exactly `first_contested_seat+1..num_seats`, with `(k, m)` for `m` in `[sij, k)`; old entries are kept |
| PartyVars.Party.GenerateDeltas | dhont_optimizer/party.py:132-134 | the delta tables gain exactly the other parties |
| PartyVars.Party.GenerateRounds | dhont_optimizer/party.py:136-147 | the round tables gain exactly the contested and later rounds and their inner keys |
| PartyVars.Party.GenerateContestedRounds | dhont_optimizer/party.py:137-141 | `seat_k_is_assigned`, `round_wins_indicators` and `partial_wins_indicators` gain exactly the contested rounds |
| PartyVars.Party.GenerateLaterRounds | dhont_optimizer/party.py:143-147 | `seats_before_k`, `quotient_before_k` and the indicators gain exactly the later rounds and `m` in `[sij, k)` |
| PartyVars.NewParty | dhont_optimizer/party.py:7-48 | `Party(name, model)`: derived fields, then `generate_variables`; every remembered variable has its bounds |
| WingVars.Wing.constructor | dhont_optimizer/wing.py:7-30 | `my_votes` and `my_parties` are the wing's `wings_data` entry unchanged, `other_votes == total_votes - my_votes`, `other_wings` is `wings_names` without the wing; tables empty |
| WingVars.Wing.VotesVar | dhont_optimizer/wing.py:47-50 | memoised, bounds `[0, total_votes]` |
| WingVars.Wing.DeltaPosVotesByWingVar | dhont_optimizer/wing.py:52-56 | memoised per wing `w`, bounds `[0, votes(w)]` |
| WingVars.Wing.DeltaNegVotesByWingVar | dhont_optimizer/wing.py:58-61 | memoised per wing `w`, bounds `[0, my_votes]` |
| WingVars.Wing.SeatsVar | dhont_optimizer/wing.py:63-66 | memoised, bounds `[0, num_seats]` |
| WingVars.Wing.GenerateVariables | dhont_optimizer/wing.py:70-76 | votes and seats exist; both delta tables gain exactly `other_wings`; old entries are kept |
| WingVars.Wing.GenerateDeltas | dhont_optimizer/wing.py:74-76 | the delta tables gain exactly the other wings |
| WingVars.NewWing | dhont_optimizer/wing.py:7-32 | `Wing(name, model)`: derived fields, then `generate_variables` |
| Rosters.CreateParties | dhont_optimizer/seats.py:421-425 | one `Party` per name of `parties_names`, in order, each derived from the district and generated; `parties_dict` maps each name to its party; the solver log only grows |
| Rosters.NextParty | dhont_optimizer/seats.py:422-424 | the next party of the roster is derived from the next name |
| Rosters.PartiesByName | dhont_optimizer/seats.py:425 | the dict comprehension: keys are the roster's names, and a name maps to its last party |
| Rosters.PartiesEach | dhont_optimizer/seats.py:421-425 | every roster entry is derived from the name at its position and is live in the solver |
| Rosters.CreateWings | dhont_optimizer/seats.py:427-431 | one `Wing` per name of `wings_names`, in order; `wings_dict` maps each name to its wing |
| Rosters.NextWing | dhont_optimizer/seats.py:428-430 | the next wing of the roster is derived from the next name |
| Rosters.WingsByName | dhont_optimizer/seats.py:431 | keys are the roster's names, and a name maps to its last wing |
| Rosters.WingsEach | dhont_optimizer/seats.py:427-431 | every wing entry is derived from the name at its position and is live |
| ModelSettings.SettingsKey | dhont_optimizer/seats.py:465-482 | the entry used exists in `settings`; lookups fail only on a missing `_default` or a missing group |
| ModelSettings.DefaultIsFallback | dhont_optimizer/seats.py:465-482 | `_default` is missing-and-needed if and only if the district has no entry of its own and there is no `_default`; a district without an entry gets `_default`; one with an entry and no group gets its own |
| ModelSettings.GroupSharesSettings | dhont_optimizer/seats.py:468-469 | two districts naming the same group use the same entry |
| ModelSettings.ProvinceForBuilds | dhont_optimizer/seats.py:465-489 | a district that builds is the `Province` constructor's result with the chosen entry's `first_contested_seat` |
| ModelSettings.ProvincesOf | dhont_optimizer/seats.py:465-489 | on success one district per input, in order, each built by `ProvinceFor` |
| ModelSettings.FirstErrorWins | dhont_optimizer/seats.py:465-489 | construction fails if and only if some district fails, and the error is the first failing district's |
| ModelSettings.ErrorPersists | dhont_optimizer/seats.py:465-489 | once a prefix of the districts fails, the whole construction fails with that error |
| ModelSettings.UnlistedMembers | dhont_optimizer/seats.py:463-479 | a district is in `default_provinces` if and only if it has no settings entry of its own |
| ModelSettings.UnlistedDistinct | dhont_optimizer/seats.py:463-479 | `default_provinces` has no duplicates |
| Ledger.EntriesStep | dhont_optimizer/seats.py:521-527 | one more party entry adds its key when new and grows the overall votes and seats by its amounts |
| Ledger.ColumnIsTotals | dhont_optimizer/seats.py:515-534 | reading one figure of every national entry in key order gives the walk's totals |
| Ledger.PartyItems | dhont_optimizer/seats.py:520-527 | step 1 reads each party's name, votes and baseline wins of a district, in roster order |
| Ledger.WingItems | dhont_optimizer/seats.py:528-534 | step 1 reads each wing's name, votes and baseline wins, in roster order |
| Ledger.PartyReference | dhont_optimizer/seats.py:520-527 | the districts listed for a party are districts of the model |
| Ledger.WingReference | dhont_optimizer/seats.py:528-534 | the districts listed for a wing are districts of the model |
| Ledger.PartyStandsWhereListed | dhont_optimizer/seats.py:520-527 | a party has districts listed if and only if it stands in some district |
| Ledger.WingStandsWhereListed | dhont_optimizer/seats.py:528-534 | a wing has districts listed if and only if it exists in some district |
| Ledger.DistrictParties | dhont_optimizer/seats.py:520-527 | within one district a party is credited once, with its votes and wins, or not at all |
| Ledger.DistrictWings | dhont_optimizer/seats.py:528-534 | within one district a wing is credited once, with its votes and wins, or not at all |
| Ledger.PartyLedgerWalk | dhont_optimizer/seats.py:515-527 | the national walk's `provinces`, `votes` and `seats` of a party are the district-by-district reference |
| Ledger.WingLedgerWalk | dhont_optimizer/seats.py:515-534 | the same for wings |
| Ledger.NationalParty | dhont_optimizer/seats.py:520-527 | `all_parties` has a party if and only if it stands somewhere, and its entry sums votes and wins over exactly the districts in its `provinces` list |
| Ledger.NationalWing | dhont_optimizer/seats.py:528-534 | the same for `all_wings` |
| Ledger.DistrictPartyTotals | dhont_optimizer/seats.py:520-527 | a district's parties contribute its `total_votes` and `num_seats` |
| Ledger.DistrictWingTotals | dhont_optimizer/seats.py:528-534 | a district's wings contribute its `total_votes` and `num_seats` |
| Ledger.DistrictWingVotes | dhont_optimizer/seats.py:528-534 | a district's wings contribute its `total_votes` |
| Ledger.DistrictWingSeats | dhont_optimizer/seats.py:528-534 | a district's wings contribute its `num_seats` |
| Ledger.LedgerOverall | dhont_optimizer/seats.py:515-534 | party and wing walks over all districts carry the national votes and `all_seats` |
| Ledger.PartyLedgerOverall | dhont_optimizer/seats.py:515-527 | the party walk carries the national votes and seats |
| Ledger.WingLedgerOverall | dhont_optimizer/seats.py:515-534 | the wing walk carries the national votes and seats |
| Ledger.NationalSums | dhont_optimizer/seats.py:515-534 | `all_parties` votes and seats add up to all districts' votes and `all_seats`, and so do `all_wings`' |
| Ledger.PartyPairDistricts | dhont_optimizer/seats.py:654 | the pair's district list is non-empty if and only if both parties stand in some common district |
| Ledger.WingPairDistricts | dhont_optimizer/seats.py:661 | the same for two wings |
| Ledger.PartyDistrictsStep | dhont_optimizer/seats.py:527 | one more district appends its name to a party's list exactly when the party stands there |
| Ledger.WingDistrictsStep | dhont_optimizer/seats.py:534 | the same for wings |
| Ledger.SharedPartyDistricts | dhont_optimizer/seats.py:625 | the intersection comprehension over two parties' lists is exactly the districts, in model order, where both stand |
| Ledger.SharedWingDistricts | dhont_optimizer/seats.py:643 | the same for two wings |
| Seqs.Intersect | dhont_optimizer/seats.py:625 | `[x for x in ps if x in qs]` keeps `ps`'s order, is no longer than `ps`, and holds exactly the common elements |
| Seqs.IntersectDistinct | dhont_optimizer/seats.py:625 | the intersection of a list without duplicates has none |
| Seqs.IntersectAppend | dhont_optimizer/seats.py:625 | the comprehension distributes over concatenation of `ps` |
| Seqs.Without | dhont_optimizer/party.py:19 | `[p for p in names if p != name]` holds exactly the other names |
| Seqs.WithoutLength | dhont_optimizer/party.py:19 | without duplicates, removing a listed name shortens the list by one |
| Seqs.WithoutDistinct | dhont_optimizer/party.py:19 | removing a name keeps a list without duplicates |
| Seqs.WithoutAppend | dhont_optimizer/party.py:19 | the filter distributes over concatenation |
| Seqs.WithoutAbsent | dhont_optimizer/wing.py:18 | filtering an absent name changes nothing |
| Seqs.Remove | dhont_optimizer/seats.py:479 | `list.remove` drops one element |
| Seqs.RemoveAfter | dhont_optimizer/seats.py:479 | `list.remove` drops the first occurrence and keeps the rest in order |
| Seqs.Range | dhont_optimizer/party.py:143-146 | `range(lo, hi)`: `hi - lo` increasing values, exactly those in `[lo, hi)` |
| Seqs.SumAppend | dhont_optimizer/seats.py:355 | `sum` over a concatenation |
| Seqs.SumUpdate | dhont_optimizer/seats.py:400 | raising one entry raises the sum by the same amount |
| Seqs.EntryBelowSum | dhont_optimizer/party.py:18 | one party's votes are at most the total, so `other_votes` is never negative |
| Seqs.SumZeros | dhont_optimizer/seats.py:406 | the zero row sums to 0 |
| Nation.SeatsModel.constructor | dhont_optimizer/seats.py:451-501 | holds the built districts and `default_provinces`, no rosters yet, and zero totals with empty `all_parties`/`all_wings` |
| Nation.NewSeatsModel | dhont_optimizer/seats.py:451-501 | fails with the first failing district's error, where a district fails as `ProvinceOf` says; otherwise the model holds every district as its settings build it and `default_provinces` holds exactly the districts without an entry |
| Nation.BuildDistricts | dhont_optimizer/seats.py:463-489 | the loop yields the districts and `default_provinces` of the reference, or the reference's error |
| Nation.BuildNext | dhont_optimizer/seats.py:465-489 | one district further: the reference on one more input |
| Nation.DropListed | dhont_optimizer/seats.py:479 | one district further in the `remove` bookkeeping |
| Nation.DefaultsStep | dhont_optimizer/seats.py:479 | a listed district is still present when it is removed, and removing it leaves the reference list |
| Nation.BuildProvince | dhont_optimizer/seats.py:465-489 | one district's settings lookup and construction, as `ProvinceFor` |
| Nation.ModelDistrictsSound | dhont_optimizer/seats.py:451-489 | every district of a successful construction is as the constructor built it, and district names are distinct |
| Nation.SeatsModel.CreateModel | dhont_optimizer/seats.py:503-507 | every district gets its rosters, every party and wing with its variables generated and valid in the final shared solver log, then step 1 leaves `all_seats`, `all_votes`, `all_parties` and `all_wings` equal to the national reference |
| Nation.SeatsModel.CreateRosters | dhont_optimizer/seats.py:504-506 | every district has its party and wing rosters, built from it, and every party and wing of every district is live (on the shared solver, variables generated and valid) in the final log |
| Nation.SeatsModel.AddRosters | dhont_optimizer/seats.py:505-506 | one more district gets its rosters; the earlier rosters are the same objects as before and stay live while the solver log grows |
| Nation.JoinParties | dhont_optimizer/seats.py:505 | `prov.create_parties()` on the shared solver: one party per party name, derived from the district, and these parties and every earlier roster live in the grown log |
| Nation.JoinWings | dhont_optimizer/seats.py:506 | `prov.create_wings()` on the shared solver: one wing per wing name, derived from the district, and these wings and every earlier roster live in the grown log |
| Nation.RostersLiveGrow | dhont_optimizer/seats.py:504-506 | variables appended to the shared log by later districts leave every earlier party and wing valid |
| Nation.SeatsModel.CreateGlobalTotals | dhont_optimizer/seats.py:515-534 | `all_seats` is the sum of `num_seats`, and `all_votes`/`all_parties`/`all_wings` are the national walk over every district's parties and wings |
| Nation.SeatsModel.AddDistrict | dhont_optimizer/seats.py:516-534 | one more district's seats, parties and wings are credited |
| Nation.SeatsModel.AddParties | dhont_optimizer/seats.py:520-527 | every party of the district is credited in roster order |
| Nation.SeatsModel.CountParty | dhont_optimizer/seats.py:521-527 | one party: `all_votes` grows by its votes; a new entry or votes, seats and province added to the old one |
| Nation.SeatsModel.AddWings | dhont_optimizer/seats.py:528-534 | every wing of the district is credited in roster order |
| Nation.SeatsModel.CountWing | dhont_optimizer/seats.py:529-534 | one wing: a new entry or votes, seats and province added to the old one |
| Nation.PartyFigures | dhont_optimizer/seats.py:521-525 | the roster's party `i` carries the name and votes of party `i` of `parties_data` |
| Nation.WingFigures | dhont_optimizer/seats.py:529-532 | the roster's wing `j` carries the name and votes of the `j`-th wing |
| Nation.PartyRosterItems | dhont_optimizer/seats.py:520-527 | the district's party items, in order, are its roster's parties with their names, votes and baseline seats |
| Nation.WingRosterItems | dhont_optimizer/seats.py:528-534 | the district's wing items, in order, are its roster's wings with their names, votes and baseline seats |

## Left out

- The MILP solver itself (`CreateSolver`, `Solve`, objective, coefficients) is a foreign library. The model keeps only a log of created variables with their kind and bounds, and `SetSolverSpecificParametersAsString` is not modelled.
- `create_constraints`, `create_objective` and `solve_model` are left out. These are the big-M constraint emission, the objective (including the `"auto<factor>"` weight parsing) and console printing of the solution. The ordering constraint of seats.py:673-679 is stated as a property the baseline satisfies (`ProvinceFacts.PreDecidedOrder`), not emitted.
- Step 2 of `create_global_variables` and the national accessors at seats.py:538-604 are left out. They only request solver variables keyed by the step 1 dictionaries.
- The `_global` permeability caps (seats.py:651-662) are floating-point products fed to the solver. Only their non-empty-intersection test is modelled (`Ledger.PartyPairDistricts`).
- Permeability values, the objective weights and their defaults are passed to `Province` but never read by the modelled core. A settings entry is therefore modelled with only `group` and `first_contested_seat`. A `KeyError` on the other keys is not modelled.
- `ProvinceModel` (seats.py:9-325) duplicates `Province` and is treated as the same code. Its `create_constraints` loop at seats.py:249 reuses a stale `k` and is not modelled.
- Wing/Party `__str__`/`__repr__`, setup.py and tests/test.py are left out. tests/test.py has no assertions, and its `setUp` binds a local `model` (test.py:122) while the tests use `self.model`.
- Provinces.NewProvince: rejects `first_contested_seat = 0` with `ContestedSeatOutOfRange`, which is the corrected behaviour. The source builds that district, reading the zero row as `matrix_S[-1]`, and its solver model is then infeasible (see Findings).
- Nation.NewSeatsModel: fails on a district with `first_contested_seat = 0`, where the source builds the model. This follows from `Provinces.NewProvince` (see Findings).
- Floating-point rounding of the quotients is not modelled. The model uses exact rationals, so two quotients that Python's floats would round to the same value are still ordered exactly.
- Vote counts are `nat`. Negative votes are not representable, so the source's silent acceptance of them is not modelled.
- Dict-key uniqueness is an assumption. Party names within a district and district names are assumed distinct, because they come from dict keys (`Nation.InputsAreDicts`, `Ballot.DistinctNames`).
- Nation.SeatsModel.AddParties: looks a party's wins up by its position in `parties_dhont`, where the source looks them up by name. The two agree because names are distinct.
- Nation.SeatsModel.CreateGlobalTotals: requires the totals to be untouched, as `__init__` leaves them. A second call, which the source would let double-count, is not modelled.
- PartyVars.Party.SeatsBeforeKIndicatorsVar: the source's nested dict `__seats_before_k_indicators[k][m]` is modelled as one map keyed by the pair `(k, m)`. The same applies to `PartyVars.Party.PartialWinsIndicatorsVar` with `(k, q)`. An empty inner dict for a round is therefore not distinguished from a missing one.
- `parties_dict` and `wings_dict` (seats.py:425, 431) are returned by `Rosters.CreateParties`/`Rosters.CreateWings` with their contents stated, but `Nation.JoinParties`/`Nation.JoinWings` do not store them. Only `create_constraints` reads them, and it is left out.
- MipSolver.Solver.NewVar: variable names (`f'votes_{name}_{province}'`) are not modelled. A handle is the variable's position in the log.

## Findings

| source | as written | input that shows it | evidently intended | confidence | as-written member | corrected member |
|---|---|---|---|---|---|---|
| dhont_optimizer/seats.py:386 | `lastline_S = matrix_S[first_contested_seat - 1]` accepts `first_contested_seat = 0`. `build_S` leaves only the zero row, and index `-1` reads it. Rounds `0..num_seats` are then all contested, one more than the district's seats. Round 0 must go to exactly one party (seats.py line 775). That seat plus `sij = 0` must equal `seats_before_k_var(1)`, bounded by `[0, 0]` (line 780, party.py line 95), or `seats_var()`, bounded by `[0, 0]` when `num_seats = 0` (line 801). The district is accepted at build time, but its solver model is infeasible | one party with 100 votes, `num_seats = 1`, `first_contested_seat = 0`: round 0 must be assigned to the party, but its `seats_before_k_var(1)` must then equal 1 with upper bound 0, so the solver finds no solution | `first_contested_seat` in `[1, num_seats + 1]`, so that contested rounds plus held seats make exactly `num_seats` | not executed | ProvinceFacts.ZeroFirstSeatInfeasible | ProvinceFacts.SeatBudget |
