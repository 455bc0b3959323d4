# PropLens deal analysis, modelled in Dafny

PropLens is a mobile app for judging real-estate listings. Its one piece of
real domain logic is `AnalyzeDealUseCase.analyze`. It takes a deal (size,
asking price, rent, optional recurring costs), an optional area benchmark
and the financing assumptions. It returns the price per square foot, gross
and net yield, an interest-only monthly cashflow, and a verdict: UNDERVALUED,
FAIR or OVERPRICED. The verdict compares the price per square foot with the
area's average, with thresholds at 0.9 and 1.1.

The model also covers the small stateful pieces around the analyzer:

- the in-memory deal store, with upsert by id, delete-all by id, first-match
  lookup and a newest-first listing;
- the fixed table of area benchmarks, searched by name ignoring case;
- the single overwrite-only assumptions cell;
- the add-deal form's view model: field edits, `buildDeal`, benchmark
  selection, analysis refresh and save;
- the history screen's list filter and its query/filter handler.

Kotlin `Double`s are Dafny `real`s, so every property holds in exact
arithmetic. Kotlin lists are `seq`s. Nullable values are `Option`.

Files:

- `wrappers.dfy`: `Option`.
- `text.dfy`: the string functions of the Kotlin library the app calls:
  case-insensitive equality and containment, `isBlank`, and `Int.toString`
  with its inverse.
- `seqs.dfy`: `indexOfFirst`, `firstOrNull` and `filter`. Kotlin's
  `removeAll` is `filter` with the test negated.
- `domain.dfy`: `Deal`, `AreaStats`, `Assumptions` with its defaults,
  `Verdict` and `DealAnalysis`.
- `analyzer.dfy`: `analyze` and its properties.
- `area_stats_repository.dfy`, `assumptions_repository.dfy`,
  `deal_repository.dfy`: the three repositories. The deal store and the
  assumptions cell are classes whose methods change their fields. The
  benchmark table is an immutable constant searched by pure functions.
- `seed_analysis.dfy`: the analyzer on the two seeded deals and at the
  verdict thresholds.
- `add_deal_view_model.dfy`, `history.dfy`: the two screens' logic.

Behaviour of the code worth knowing, which the model makes explicit:

- The Dubai Marina seed's monthly net rent is 145000/12 ≈ 12083.33. Its
  monthly interest is 6187.5, so its cashflow is 35375/6 ≈ 5895.83
  (`SeedAnalysis.MarinaSeedAnalysis`).
- The verdict compares exact ratios. At 1000 per sq ft, an average of
  1111.12 gives a ratio below 0.9, so the verdict is UNDERVALUED. An average
  of 900 gives a ratio above 1.1, so the verdict is OVERPRICED. Ratios of
  exactly 0.9 and 1.1 are FAIR (`SeedAnalysis.ThresholdExamples`).
- `buildDeal` passes any parsed `Int` through as the bedroom count, negative
  ones included.
- The store never checks generated ids against stored ones.
  `DealRepository.SaveWithoutIdThenFind` therefore assumes that the generated
  id is not already stored.
- `updateAnalysis` returns early when the deal does not build or no
  assumptions are loaded. An analysis computed earlier then stays in the
  state (`AddDeal.Refreshed`).
- The form never sets `dealId`, so every save draws a new id. The store then
  appends a new deal, unless the drawn id is already stored; in that case the
  save replaces that deal.

## Model

| member | source | states |
|---|---|---|
| `Analyzer.Analyze` | shared/src/commonMain/kotlin/com/proplens/shared/domain/usecase/AnalyzeDealUseCase.kt:10-48 | Price per sq ft is 0 when size ≤ 0, and otherwise times the size gives the price. Both yields are 0 when price ≤ 0. Otherwise gross yield × price = 100 × rent and net yield × price = 100 × (rent − costs). 12 × cashflow = net rent − price·ltv·rate/10000. |
| `Analyzer.NoUsableBenchmarkIsFair` | shared/src/commonMain/kotlin/com/proplens/shared/domain/usecase/AnalyzeDealUseCase.kt:32-39 | With no benchmark, or one whose average is ≤ 0, the verdict is FAIR. |
| `Analyzer.ClassifyBands` | shared/src/commonMain/kotlin/com/proplens/shared/domain/usecase/AnalyzeDealUseCase.kt:33-38 | For a positive average, classifying price/average gives UNDERVALUED iff price < 0.9·avg, FAIR iff 0.9·avg ≤ price ≤ 1.1·avg, and OVERPRICED iff price > 1.1·avg. |
| `Analyzer.VerdictBands` | shared/src/commonMain/kotlin/com/proplens/shared/domain/usecase/AnalyzeDealUseCase.kt:32-39 | Against a positive benchmark average, the verdict falls in exactly those three bands of the price per sq ft, both FAIR bounds inclusive. |
| `Analyzer.UnknownSizeIsUndervalued` | shared/src/commonMain/kotlin/com/proplens/shared/domain/usecase/AnalyzeDealUseCase.kt:15-35 | A deal with size ≤ 0 against a positive average is UNDERVALUED, because its price per sq ft is 0. |
| `Analyzer.NetYieldAtMostGross` | shared/src/commonMain/kotlin/com/proplens/shared/domain/usecase/AnalyzeDealUseCase.kt:16-24 | With price > 0 and total costs ≥ 0, net yield ≤ gross yield. |
| `Analyzer.NetYieldAntitoneInCosts` | shared/src/commonMain/kotlin/com/proplens/shared/domain/usecase/AnalyzeDealUseCase.kt:22-24 | At a fixed price, raising the service charge or the additional costs never raises the net yield. |
| `Analyzer.AbsentCostIsZero` | shared/src/commonMain/kotlin/com/proplens/shared/domain/usecase/AnalyzeDealUseCase.kt:22 | An absent service charge or additional cost gives the same analysis as a cost of 0. |
| `Analyzer.AnalysisInputsUsed` | shared/src/commonMain/kotlin/com/proplens/shared/domain/usecase/AnalyzeDealUseCase.kt:10-47 | The result depends only on the deal's numeric fields, on the benchmark's average price, and on ltv and interest rate. Id, title, area, bedrooms, time, termYears, purchaseCostsPercent, the benchmark's area name and its rent figure are ignored. |
| `SeedAnalysis.MarinaSeedAnalysis` | shared/src/commonMain/kotlin/com/proplens/shared/data/repository/DealRepositoryImpl.kt:9-20 | The Dubai Marina seed, with its area's benchmark and default assumptions, gives exactly (5500/3, 80/11, 145/22, 35375/6, FAIR). |
| `SeedAnalysis.JvcFound` | shared/src/commonMain/kotlin/com/proplens/shared/data/repository/AreaStatsRepositoryImpl.kt:10-18 | Looking up "JVC" finds the 950.0 entry. |
| `SeedAnalysis.JvcSeedAnalysis` | shared/src/commonMain/kotlin/com/proplens/shared/data/repository/DealRepositoryImpl.kt:21-32 | The JVC seed, with its area's benchmark and default assumptions, gives exactly (10000/9, 8, 6.8, 17125/12, OVERPRICED). |
| `SeedAnalysis.ThousandAgainst` | shared/src/commonMain/kotlin/com/proplens/shared/domain/usecase/AnalyzeDealUseCase.kt:32-39 | For 1000 per sq ft against a positive average: UNDERVALUED iff 1000 < 0.9·avg, FAIR iff 0.9·avg ≤ 1000 ≤ 1.1·avg, and OVERPRICED iff 1000 > 1.1·avg. |
| `SeedAnalysis.ThresholdExamples` | shared/src/commonMain/kotlin/com/proplens/shared/domain/usecase/AnalyzeDealUseCase.kt:33-38 | At 1000 per sq ft: ratios of exactly 0.9 and 1.1 are FAIR. Averages 1111.12 and 1111.2 give UNDERVALUED. Averages 900 and 899 give OVERPRICED. |
| `AreaStatsRepository.GetAreaStatsForArea` | shared/src/commonMain/kotlin/com/proplens/shared/data/repository/AreaStatsRepositoryImpl.kt:16-18 | A found entry is an entry of the fixed table whose area equals the query ignoring case, and no earlier entry matches. Nothing is found iff no entry of the table matches. |
| `AreaStatsRepository.FirstForAreaIsFirstMatch` | shared/src/commonMain/kotlin/com/proplens/shared/data/repository/AreaStatsRepositoryImpl.kt:16-18 | A found entry is a table member whose area equals the query ignoring case, and no earlier entry matches. Nothing is found iff no entry matches. |
| `AreaStatsRepository.CaseOfQueryIrrelevant` | shared/src/commonMain/kotlin/com/proplens/shared/data/repository/AreaStatsRepositoryImpl.kt:16-18 | Queries equal ignoring case find the same entry. |
| `AreaStatsRepository.TableAreasDistinct` | shared/src/commonMain/kotlin/com/proplens/shared/data/repository/AreaStatsRepositoryImpl.kt:7-12 | No two entries of the fixed table name the same area, even ignoring case, so the first match is the only match. |
| `AreaStatsRepository.MarinaFoundInAnyCase` | shared/src/commonMain/kotlin/com/proplens/shared/data/repository/AreaStatsRepositoryImpl.kt:8-18 | Any spelling of "Dubai Marina" finds the (Dubai Marina, 1800.0, 130.0) entry. |
| `AreaStatsRepository.UnlistedLengthNotFound` | shared/src/commonMain/kotlin/com/proplens/shared/data/repository/AreaStatsRepositoryImpl.kt:16-18 | A name whose length no entry has finds nothing. "" is one such name. |
| `AreaStatsRepository.MarinaLookupExamples` | shared/src/commonMain/kotlin/com/proplens/shared/data/repository/AreaStatsRepositoryImpl.kt:16-18 | "dubai marina" and "DUBAI MARINA" both find the 1800.0 entry. |
| `AreaStatsRepository.UnlistedLookupExamples` | shared/src/commonMain/kotlin/com/proplens/shared/data/repository/AreaStatsRepositoryImpl.kt:16-18 | "" and "Business Bay" find nothing. |
| `Text.DecimalText` | shared/src/commonMain/kotlin/com/proplens/shared/data/repository/DealRepositoryImpl.kt:53 | `toString` of a non-negative number is non-empty, all digits, and has no leading zero unless the number is 0. |
| `Text.DecimalRoundTrip` | shared/src/commonMain/kotlin/com/proplens/shared/data/repository/DealRepositoryImpl.kt:53 | Reading back the decimal text of n gives n. |
| `Text.DecimalTextLength` | shared/src/commonMain/kotlin/com/proplens/shared/data/repository/DealRepositoryImpl.kt:53 | A number in [10^k, 10^(k+1)) is written with k+1 digits. |
| `Text.ContainsIgnoreCaseIsFoldedSubstring` | androidApp/src/main/java/com/proplens/android/feature/history/HistoryScreen.kt:155-156 | `contains(ignoreCase = true)` holds iff the case-folded query is a substring of the case-folded text. |
| `Seqs.IndexOfFirst` | shared/src/commonMain/kotlin/com/proplens/shared/data/repository/DealRepositoryImpl.kt:40 | `indexOfFirst` returns the least index whose element passes the test, or -1 exactly when none does. |
| `Seqs.Filter` | androidApp/src/main/java/com/proplens/android/feature/history/HistoryScreen.kt:153-164 | `filter` returns a subsequence in original order. Every element it returns passes the test, and none occurs more often than in the input. |
| `Seqs.FilterKeepsMultiplicity` | androidApp/src/main/java/com/proplens/android/feature/history/HistoryScreen.kt:153-164 | Every input element that passes the test is kept as often as it occurs in the input. |
| `Seqs.FilterKeepsAll` | shared/src/commonMain/kotlin/com/proplens/shared/data/repository/DealRepositoryImpl.kt:50 | Filtering with a test every element passes returns the list unchanged. |
| `DealRepository.GenerateId` | shared/src/commonMain/kotlin/com/proplens/shared/data/repository/DealRepositoryImpl.kt:53 | A generated id is six decimal digits that read back as the draw in [100000, 999999). |
| `DealRepository.SortByNewestCorrect` | shared/src/commonMain/kotlin/com/proplens/shared/data/repository/DealRepositoryImpl.kt:35 | The listing is ordered by createdAtMillis, non-increasing. It is a permutation of the store, and deals created at the same instant keep their stored order (the sort is stable). |
| `DealRepository.SaveExistingReplacesInPlace` | shared/src/commonMain/kotlin/com/proplens/shared/data/repository/DealRepositoryImpl.kt:39-42 | Saving a deal whose id first occurs at index k puts it at k. The length and every other entry stay as they were. |
| `DealRepository.SaveNewAppends` | shared/src/commonMain/kotlin/com/proplens/shared/data/repository/DealRepositoryImpl.kt:43-46 | Saving a deal whose id is not stored appends exactly that deal. An empty id is replaced by the generated one. |
| `DealRepository.UpsertKeepsIdsNonEmpty` | shared/src/commonMain/kotlin/com/proplens/shared/data/repository/DealRepositoryImpl.kt:39-46 | Saving preserves the invariant that no stored deal has an empty id. |
| `DealRepository.SaveThenFind` | shared/src/commonMain/kotlin/com/proplens/shared/data/repository/DealRepositoryImpl.kt:37-46 | After saving a deal with a non-empty id, looking up that id returns exactly that deal. |
| `DealRepository.SaveWithoutIdThenFind` | shared/src/commonMain/kotlin/com/proplens/shared/data/repository/DealRepositoryImpl.kt:39-46 | In a valid store, a deal saved without an id is appended under the generated id. That id then finds it, provided no stored deal already had it. |
| `DealRepository.DeleteRemovesAll` | shared/src/commonMain/kotlin/com/proplens/shared/data/repository/DealRepositoryImpl.kt:49-51 | Deleting leaves a subsequence that contains no deal with that id and keeps every other deal with its multiplicity. Looking up the id afterwards finds nothing. |
| `DealRepository.DeleteAbsentIsNoOp` | shared/src/commonMain/kotlin/com/proplens/shared/data/repository/DealRepositoryImpl.kt:49-51 | Deleting an id that is not stored leaves the list unchanged. |
| `DealRepository.DeleteKeepsIdsNonEmpty` | shared/src/commonMain/kotlin/com/proplens/shared/data/repository/DealRepositoryImpl.kt:49-51 | Deleting preserves the no-empty-id invariant. |
| `DealRepository.DealStore.constructor` | shared/src/commonMain/kotlin/com/proplens/shared/data/repository/DealRepositoryImpl.kt:8-33 | The store starts with the two seeds "1" and "2", in that order, each stamped with its clock reading. The invariant holds. |
| `DealRepository.DealStore.GetDeals` | shared/src/commonMain/kotlin/com/proplens/shared/data/repository/DealRepositoryImpl.kt:35 | Returns the store sorted newest first: a stable permutation, with the store unchanged. |
| `DealRepository.DealStore.GetDealById` | shared/src/commonMain/kotlin/com/proplens/shared/data/repository/DealRepositoryImpl.kt:37 | Returns the first stored deal with the id. Returns none iff no stored deal has it. |
| `DealRepository.DealStore.SaveDeal` | shared/src/commonMain/kotlin/com/proplens/shared/data/repository/DealRepositoryImpl.kt:39-47 | The new list is the upsert of the old one, with the id generated from the draw. The invariant is kept. |
| `DealRepository.DealStore.DeleteDeal` | shared/src/commonMain/kotlin/com/proplens/shared/data/repository/DealRepositoryImpl.kt:49-51 | The new list is the old one without the deals that have the id. The invariant is kept. |
| `AssumptionsRepository.AssumptionsStore.constructor` | shared/src/commonMain/kotlin/com/proplens/shared/data/repository/AssumptionsRepositoryImpl.kt:7 | The cell starts at the default assumptions. |
| `AssumptionsRepository.AssumptionsStore.GetAssumptions` | shared/src/commonMain/kotlin/com/proplens/shared/data/repository/AssumptionsRepositoryImpl.kt:9 | Returns the stored value and changes nothing. |
| `AssumptionsRepository.AssumptionsStore.SaveAssumptions` | shared/src/commonMain/kotlin/com/proplens/shared/data/repository/AssumptionsRepositoryImpl.kt:11-13 | The stored value becomes exactly the argument. |
| `AssumptionsRepository.ReadsAfterSaves` | shared/src/commonMain/kotlin/com/proplens/shared/data/repository/AssumptionsRepositoryImpl.kt:7-13 | A fresh cell reads (75.0, 4.5, 25, 4.0). After two saves it reads the second value, with nothing merged from the first, and repeated reads agree. |
| `AssumptionsRepository.SaveIsIdempotent` | shared/src/commonMain/kotlin/com/proplens/shared/data/repository/AssumptionsRepositoryImpl.kt:11-13 | Saving a value twice reads the same as saving it once. |
| `AddDeal.EditSetsOnlyItsField` | androidApp/src/main/java/com/proplens/android/viewmodel/AddDealViewModel.kt:42-49 | Each *Changed event sets the field it names to its value and leaves every other field and flag unchanged. |
| `AddDeal.InitialStateIsBlank` | androidApp/src/main/java/com/proplens/android/viewmodel/AddDealViewModel.kt:129-144 | The initial state has every text field empty, no area stats, no assumptions, no analysis, and both flags false. |
| `AddDeal.BuildDeal` | androidApp/src/main/java/com/proplens/android/viewmodel/AddDealViewModel.kt:79-99 | No deal iff size, price or rent fails to parse. Unparsable bedrooms become 0, and unparsable costs become absent. An empty title becomes "New Deal". An empty id becomes the six-digit text of the draw. Non-empty values pass through. |
| `AddDeal.AnalysisForSpec` | androidApp/src/main/java/com/proplens/android/viewmodel/AddDealViewModel.kt:67-77 | An analysis is produced iff the deal builds and assumptions are loaded. It analyses the built deal against the first loaded entry whose area equals the form's ignoring case, and does not depend on the id draw or the clock. |
| `AddDeal.AddDealViewModel.constructor` | androidApp/src/main/java/com/proplens/android/viewmodel/AddDealViewModel.kt:28 | The view model starts in the initial state. |
| `AddDeal.AddDealViewModel.Load` | androidApp/src/main/java/com/proplens/android/viewmodel/AddDealViewModel.kt:31-37 | Loading stores the areas and assumptions, then refreshes the analysis. |
| `AddDeal.AddDealViewModel.UpdateAnalysis` | androidApp/src/main/java/com/proplens/android/viewmodel/AddDealViewModel.kt:67-77 | Stores the new analysis when there is one. Otherwise the state is unchanged. |
| `AddDeal.AddDealViewModel.SaveForm` | androidApp/src/main/java/com/proplens/android/viewmodel/AddDealViewModel.kt:57-65 | When the deal does not build, neither state nor store changes. Otherwise the store upserts the deal, its id then finds it, and the state ends with isSaving = false and saveSuccess = true. |
| `AddDeal.AddDealViewModel.OnEvent` | androidApp/src/main/java/com/proplens/android/viewmodel/AddDealViewModel.kt:40-55 | An edit event overwrites its field and refreshes the analysis, with the store untouched. Save performs the save and does not refresh. |
| `History.FilteredKeepsExactlyMatches` | androidApp/src/main/java/com/proplens/android/feature/history/HistoryScreen.kt:153-164 | The filtered list is a subsequence of the items. An item is in it iff it is an item matching both the query and the filter, and kept items keep their multiplicity. |
| `History.BlankQueryMatchesAll` | androidApp/src/main/java/com/proplens/android/feature/history/HistoryScreen.kt:154 | An empty or all-whitespace query matches every item. |
| `History.QueryIsCaseInsensitiveSubstring` | androidApp/src/main/java/com/proplens/android/feature/history/HistoryScreen.kt:154-156 | A non-blank query matches iff the case-folded title or location contains the case-folded query. |
| `History.FilterTable` | androidApp/src/main/java/com/proplens/android/feature/history/HistoryScreen.kt:157-162 | All keeps every status. GoodDeal keeps only Excellent, Overpriced only Overpriced, and HighRisk only HighRisk. |
| `History.BlankQueryAllShowsEverything` | androidApp/src/main/java/com/proplens/android/feature/history/HistoryScreen.kt:153-164 | A blank query with the All filter shows the full list. |
| `History.HistoryRoute.constructor` | androidApp/src/main/java/com/proplens/android/feature/history/HistoryScreen.kt:111-112 | The route starts with an empty query and the All filter. |
| `History.HistoryRoute.VisibleItems` | androidApp/src/main/java/com/proplens/android/feature/history/HistoryScreen.kt:153-170 | The list shown is the items filtered by the current query and filter. |
| `History.HistoryRoute.OnAction` | androidApp/src/main/java/com/proplens/android/feature/history/HistoryScreen.kt:174-180 | SearchChanged and FilterSelected overwrite only their own variable and are not forwarded. Every other action is forwarded unchanged, with the state untouched. |

## Left out

- Floating point: every `Double` is an exact real. Rounding, NaN, infinities, and rounding exactly at the 0.9 and 1.1 thresholds are not modelled.
- Integer widths: `Int` (bedrooms, termYears) and `Long` (createdAtMillis) are unbounded integers. Overflow is not modelled.
- Randomness and the clock: `Random.nextInt(100000, 999999)` and `System.currentTimeMillis()` are parameters. The draw is constrained to its range. Generated ids are not claimed to be unique, because the store never checks them.
- Text parsing: `toDoubleOrNull` and `toIntOrNull` are the function parameters of `AddDeal.Parsers`. Their own behaviour is not modelled.
- Case folding: `equals` and `contains` with `ignoreCase = true` fold ASCII letters only. Unicode case mapping is not modelled. `isBlank` uses the JVM whitespace set exactly.
- Coroutines, `suspend`, `StateFlow` and `viewModelScope.launch`: each handler is one synchronous step. Interleavings are not modelled. The intermediate `isSaving = true` in `SaveForm` exists only between its two steps.
- `AreaStatsRepository.GetAreaStats`: it returns the constant table, so it carries no contract of its own. The table and the lookup are immutable Dafny constants and functions, so neither operation can change the table.
- Repository interfaces (`DealRepository`, `AreaStatsRepository`, `AssumptionsRepository`) and the one-line use-case wrappers: they hold no logic, so the model calls the implementations directly.
- History items: the screen builds them from string resources. `HistoryRoute.VisibleItems` takes them as a parameter.
- All Compose UI, navigation, dependency injection and the activity.
