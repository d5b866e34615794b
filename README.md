# SLIFT logistics ledger — a verified Dafny model

The repository is a single-page logistics back office. It is used by a
company that moves MRI and CT equipment. Its core covers:

- **Trips.** Registering trips and computing their cost: a base value for
  weekend MRI and CT jobs, a weekend bonus per helper, and per-kilometre
  freight for each driver.
- **Helper bonuses.** The weekend-bonus ledger of the helpers.
- **Driver freight.** The freight ledger of the drivers. Each ledger shows
  what was earned, what was paid, the balance and both histories, newest
  first.
- **Payments.** Recording and deleting payments.
- **Quotes.** A quote calculator that works from vehicle and crane price
  tables up to a rounded sale price.
- **Dashboard.** Figures over a date window.
- **Staff.** The staff register.
- **Storage.** Everything is kept in the browser's `localStorage`.

The model has one Dafny module per source file:

| module | file |
|---|---|
| `TripsManager` | `trips.dfy` |
| `BonusesManager` | `bonuses.dfy` |
| `FreightManager` | `freight.dfy` |
| `BudgetCalculator` | `budget.dfy` |
| `Dashboard` | `dashboard.dfy` |
| `StaffManager` | `staff.dfy` |
| `StorageService` | `storage.dfy` |
| `Types` | `types.dfy` |

Supporting modules:

- `Ledger`: what the two ledger screens share.
- `Lists`: the `filter`, `map` and `reduce` idioms.
- `Sorting`: `Array.prototype.sort`, which is stable.
- `Text`: JavaScript string comparison, `split`, and `Number` of digit strings.
- `Calendar`: the day number behind `new Date(y, m, d).getDay()`.
- `Wrappers`: `Option`.

How the source's constructs are modelled:

- **Stored values.** Money and distances are exact `real`s. A `parseFloat` result that is `NaN` is `None`.
- **`localStorage`.** A `Storage` object with one optional field per key. A missing key is `None`.
- **Form state.** Each form's `useState` fields become a class. Its handlers become methods that update those fields and the store.
- **Grouping dictionaries.** The dashboard's dictionaries become a `map` filled in a loop.
- **Clock-derived inputs.** Ids and timestamps come from `Date.now()` and `new Date()` in the source. In the model they are parameters.

Two readings of a trip's drivers appear in the source, and they differ:

- **Trip edit form** (`TripsManager.tsx:85`). It falls back to the legacy `driverId` when the list is absent *or empty*.
- **Freight ledger and trip table** (`FreightManager.tsx:25`, `TripsManager.tsx:341`). They fall back only when the list is absent.

The two call sites apply different rules, and the model follows the code: it has two functions, `TripsManager.EditDriverIds` and `FreightManager.ListedDriverIds`. A lemma states exactly when they disagree.

## Model

| member | source | states |
|---|---|---|
| Types.ParseJobType | types.ts:1-5 | a string names a job type exactly when it is one of the three stored labels, so the enumeration is closed |
| Types.ParseStaffRole | types.ts:7-10 | a string names a role exactly when it is the driver or the helper label |
| Types.ParseTripStatus | types.ts:12-16 | a string names a status exactly when it is one of the three status labels |
| StorageService.MergeSettings | services/storageService.ts:96-103 | each setting present in the stored object takes the stored value; each missing one takes its default |
| StorageService.SettingsRoundTrip | services/storageService.ts:96-107 | reading back saved settings gives exactly the saved settings |
| StorageService.EmptyStorageDefaults | services/storageService.ts:10-16 | with nothing stored: the four seed members, no trips, no payments, and the defaults 150 / 100 / 60 / 40 / 2.50 |
| StorageService.Storage.constructor | services/storageService.ts:3-8 | a fresh browser profile: none of the four keys holds a value |
| StorageService.Storage.GetStaff | services/storageService.ts:55-58 | the stored staff list, or the four seed members when the key is missing; `EmptyStorageDefaults` states the seed |
| StorageService.Storage.GetTrips | services/storageService.ts:64-67 | the stored trip list, or no trips when the key is missing; `SaveTrip` and `DeleteTrip` state how it changes |
| StorageService.Storage.GetPayments | services/storageService.ts:80-83 | the stored payment list, or no payments when the key is missing; `SavePayment` and `DeletePayment` state how it changes |
| StorageService.Storage.GetSettings | services/storageService.ts:96-103 | the defaults when the key is missing, else the stored settings merged over the defaults; `MergeSettings` and `SettingsRoundTrip` state the merge |
| StorageService.Storage.SaveStaff | services/storageService.ts:60-62 | the staff key holds the given list; the other keys are unchanged |
| StorageService.Storage.SaveTrip | services/storageService.ts:69-73 | the trip list is the old list with the trip appended; the other keys are unchanged |
| StorageService.Storage.DeleteTrip | services/storageService.ts:75-78 | the trip list is the old list without every trip carrying the id; the other keys are unchanged |
| StorageService.Storage.SavePayment | services/storageService.ts:85-89 | the payment list is the old list with the payment appended; the other keys are unchanged |
| StorageService.Storage.DeletePayment | services/storageService.ts:91-94 | the payment list is the old list without every payment carrying the id; the other keys are unchanged |
| StorageService.Storage.SaveSettings | services/storageService.ts:105-107 | the settings read back are the saved ones; the other keys are unchanged |
| Lists.RemoveId | services/storageService.ts:76 | the kept records are exactly those whose id differs |
| Lists.RemoveAbsentId | services/storageService.ts:76 | deleting an id no record carries leaves the list as it was |
| Lists.RemoveIdConcat | services/storageService.ts:76 | deleting by id distributes over concatenation, so the kept records stay in order |
| Lists.Map | components/FreightManager.tsx:22 | `map` keeps the length and puts f of the i-th element at position i |
| Lists.SumScaled | components/FreightManager.tsx:29-38 | scaling every term of a sum by c scales the sum by c |
| Lists.SumPermutation | components/BonusesManager.tsx:47 | a `reduce` sum does not depend on the order of the list |
| Text.LexTrichotomy | components/Dashboard.tsx:23 | string `<` is a strict total order: exactly one of a < b, a == b, b < a |
| Text.JoinSplit | components/TripsManager.tsx:32 | splitting on a character and joining back gives the original string |
| Text.PadDigitsValue | components/TripsManager.tsx:32 | `Number` of a zero-padded digit string is the padded number |
| Calendar.DaysFromCivilBounds | components/TripsManager.tsx:33 | from year 100 to 9999 the day number lies inside the range a JavaScript Date can represent |
| Calendar.WeekdayAgreesWithSakamoto | components/TripsManager.tsx:33-34 | the weekday from the day number agrees with Sakamoto's independent weekday formula |
| Calendar.JsDayNumberOfCivilDate | components/TripsManager.tsx:33 | for a real date after year 99, `new Date(y, m-1, d)` lands on the civil day number, within the representable range |
| TripsManager.DateParts | components/TripsManager.tsx:32 | the first three '-'-separated pieces of the date read as numbers, or nothing when a piece is missing or not a number; `IsoDateParts` states that an ISO date reads back as its year, month and day |
| TripsManager.IsWeekend | components/TripsManager.tsx:31-37 | the weekday of `new Date(y, m - 1, d)` is Sunday or Saturday; an unreadable or unrepresentable date is not a weekend; `IsWeekendOfIsoDate` ties it to the calendar |
| TripsManager.IsoDateParts | components/TripsManager.tsx:32 | splitting an ISO date `YYYY-MM-DD` on '-' and reading the numbers gives back year, month and day |
| TripsManager.IsWeekendOfIsoDate | components/TripsManager.tsx:31-37 | a real calendar date is a weekend exactly when its weekday is Sunday (0) or Saturday (6) |
| TripsManager.JobBase | components/TripsManager.tsx:43-47 | the job's base value: the MRI or CT rate on a weekend, 0 otherwise; `BaseAndBonusRules` states every case |
| TripsManager.HelperBonusRate | components/TripsManager.tsx:49-54 | the per-helper bonus: the MRI or CT bonus on a weekend, 0 otherwise; `BaseAndBonusRules` states every case |
| TripsManager.BaseAndBonusRules | components/TripsManager.tsx:43-54 | base and helper rate are 0 on weekdays and for other jobs; on weekends MRI gives mriRate and helperBonusMRI, CT gives ctRate and helperBonusCT |
| TripsManager.FindStaff | components/TripsManager.tsx:60 | `find` gives nothing exactly when no member has the id, otherwise the first member with it |
| TripsManager.DriverFreight | components/TripsManager.tsx:60-63 | one driver's freight; `DriverFreightIsDistanceTimesRate` states it is the distance times that driver's rate |
| TripsManager.Freight | components/TripsManager.tsx:57-64 | the trip's freight summed over the listed drivers; `FreightIsDistanceTimesRates`, `FreightNonNegative` and `FreightIgnoresOrder` state its properties |
| TripsManager.FreightIsDistanceTimesRates | components/TripsManager.tsx:57-64 | freight is the sum of the listed drivers' rates times the distance |
| TripsManager.DriverFreightIsDistanceTimesRate | components/TripsManager.tsx:60-62 | one driver's freight is the distance times that driver's rate, 0 when missing or without a rate |
| TripsManager.FreightOfUnknownDrivers | components/TripsManager.tsx:60-61 | drivers that are not on the staff list add nothing |
| TripsManager.FreightNonNegative | components/TripsManager.tsx:57-64 | with a non-negative distance and non-negative rates, freight is non-negative |
| TripsManager.FreightIgnoresOrder | components/TripsManager.tsx:59 | freight depends only on which drivers are selected, not on their order |
| TripsManager.EstimateCost | components/TripsManager.tsx:40-72 | the loop's results: base per the job rules, bonus = number of helpers × rate, freight = the freight over the drivers, total = base + bonus + freight |
| TripsManager.Toggle | components/TripsManager.tsx:150-160 | after a toggle the id is present exactly when it was absent; every other id is unaffected |
| TripsManager.ToggleNoDuplicates | components/TripsManager.tsx:150-160 | toggling never creates a duplicate |
| TripsManager.ToggleTwiceUnselected | components/TripsManager.tsx:150-160 | toggling an unselected id twice restores the list exactly |
| TripsManager.ToggleTwiceSelected | components/TripsManager.tsx:150-160 | toggling a selected id twice restores the same selection, with the id moved to the end |
| TripsManager.EditDriverIds | components/TripsManager.tsx:85 | the drivers loaded into the edit form: the list when non-empty, else the legacy id, else none; `FreightManager.DriverFallbacksDiffer` compares it with the ledger's reading |
| TripsManager.EditKeepsOneTrip | components/TripsManager.tsx:122-144 | after an edit the trip is last, it is the only one with its id, and the other trips keep their order |
| TripsManager.AfterSubmit | components/TripsManager.tsx:122-144 | the trip list after a submit: the edited trip's records are dropped and the new trip appended; `EditKeepsOneTrip` states the result |
| TripsManager.TripForm.constructor | components/TripsManager.tsx:11-26 | the form starts blank: no edit, today's date, MRI, Open, no drivers or helpers |
| TripsManager.TripForm.StartEdit | components/TripsManager.tsx:74-91 | every field is loaded from the trip; the drivers follow the edit-form fallback |
| TripsManager.TripForm.ResetForm | components/TripsManager.tsx:93-103 | the fields return to blank; the job type and the form's visibility are kept |
| TripsManager.TripForm.ToggleDriver | components/TripsManager.tsx:156-160 | the driver list is toggled |
| TripsManager.TripForm.ToggleHelper | components/TripsManager.tsx:150-154 | the helper list is toggled |
| TripsManager.TripForm.Submit | components/TripsManager.tsx:114-148 | with no driver, nothing is saved and nothing changes; otherwise the trip built from the form, with its cost frozen, replaces the edited trip or is appended; the form is cleared |
| Ledger.ActiveWithRole | components/BonusesManager.tsx:19 | a member is listed exactly when it has the role and is active |
| Ledger.PaymentsOf | components/BonusesManager.tsx:46 | a payment is listed exactly when its staffId is the member's id |
| Ledger.TotalPaid | components/BonusesManager.tsx:46-47 | the sum of the member's payment amounts; `TotalPaidAppend` and `TotalPaidRemoveOther` state how payments change it |
| Ledger.NewestFirst | components/FreightManager.tsx:49-50 | the sorted history is a permutation of the list; `NewestFirstOrdered` states the order |
| Ledger.NewerByIsOrder | components/BonusesManager.tsx:54-55 | the newest-first comparator is a strict weak order |
| Ledger.NewestFirstOrdered | components/FreightManager.tsx:49-50 | a list sorted newest first has no date earlier than one after it |
| Ledger.Row | components/BonusesManager.tsx:45-56 | a member's ledger row from its earning trips and the payments; `RowFacts` states its balance and histories |
| Ledger.RowFacts | components/BonusesManager.tsx:45-56 | balance = earned − paid; the histories are permutations of the earning trips and of exactly the member's payments; they are ordered newest first and sum to the totals |
| Ledger.TotalPaidAppend | components/BonusesManager.tsx:46-47 | a new payment adds its amount to its own member's paid total only |
| Ledger.TotalPaidRemoveOther | components/BonusesManager.tsx:83-87 | deleting a payment of another member leaves the paid total unchanged |
| Ledger.PaymentLowersBalance | components/BonusesManager.tsx:46-53 | recording payment p lowers its member's balance by exactly p and leaves every other balance unchanged |
| Ledger.DeletingPaymentRestoresBalance | components/BonusesManager.tsx:83-87 | deleting a payment just recorded under a fresh id restores the balance |
| Ledger.NewPayment | components/BonusesManager.tsx:60-70 | a payment exists exactly when the amount is a number above 0, and it carries that amount, the member, the id, the time and the note |
| Ledger.PaymentForm.constructor | components/BonusesManager.tsx:13-16 | the payment form starts closed and empty |
| Ledger.PaymentForm.HandlePayment | components/BonusesManager.tsx:60-77 | an invalid amount saves nothing and changes nothing; a valid one appends the payment and clears the form |
| Ledger.DeletePayment | components/BonusesManager.tsx:83-88 | only a confirmed delete removes the payments with that id |
| BonusesManager.HelperDetailsMembers | components/BonusesManager.tsx:25-43 | the details are exactly the finished weekend trips the helper was on, each with its bonus |
| BonusesManager.HelperDetails | components/BonusesManager.tsx:25-43 | the helper's finished weekend trips in list order, each with its bonus; `HelperDetailsMembers` states which trips |
| BonusesManager.HelperEarned | components/BonusesManager.tsx:31-43 | the sum of the bonuses in the details; `HelperEarnedCounts` states it as counts times bonuses |
| BonusesManager.HelperStats | components/BonusesManager.tsx:19-58 | one ledger row per active helper; `HelperStatsRows` states the rows |
| BonusesManager.ComputeHelperRow | components/BonusesManager.tsx:23-56 | the loop's row is the ledger row of the helper's qualifying trips and payments |
| BonusesManager.HelperStatsRows | components/BonusesManager.tsx:19-58 | one row per active helper: the i-th row belongs to the i-th active helper of the staff list, and every row's member is an active helper on that list |
| BonusesManager.HelperDetailsConcat | components/BonusesManager.tsx:25-29 | the qualifying trips of a concatenation are those of each part |
| BonusesManager.NonQualifyingTripEarnsNothing | components/BonusesManager.tsx:25-29 | an open, unfinished, weekday or foreign trip never changes what a helper earned, wherever it sits |
| BonusesManager.NoQualifyingTripsEarnNothing | components/BonusesManager.tsx:31-43 | with no qualifying trip the helper has earned 0 |
| BonusesManager.TimesIsProduct | components/BonusesManager.tsx:41 | repeated addition of a bonus is the count times the bonus |
| BonusesManager.HelperEarnedCounts | components/BonusesManager.tsx:31-43 | earned = (qualifying MRI trips) × MRI bonus + (qualifying CT trips) × CT bonus, from the current settings |
| BonusesManager.HelperEarnedLast | components/BonusesManager.tsx:41 | a new last trip adds its bonus exactly when it qualifies |
| FreightManager.DriverFallbacksDiffer | components/FreightManager.tsx:25 | the edit form's and the ledger's driver lists differ exactly on an empty list with a legacy id |
| FreightManager.ListedDriverIds | components/FreightManager.tsx:25 | the drivers the ledger reads from a trip: the list whenever present, even empty, else the legacy id, else none; `DriverFallbacksDiffer` compares it with the edit form's reading |
| FreightManager.DriverDetailsMembers | components/FreightManager.tsx:24-38 | the details are exactly the finished trips that list the driver, each with distance × current rate |
| FreightManager.DriverDetails | components/FreightManager.tsx:24-38 | the driver's finished trips in list order, each with its freight; `DriverDetailsMembers` states which trips |
| FreightManager.DriverEarned | components/FreightManager.tsx:29-38 | the sum of the freight in the details; `DriverEarnedIsKmTimesRate` states it as kilometres times rate |
| FreightManager.DriverStats | components/FreightManager.tsx:18-53 | one ledger row per active driver; `DriverStatsRows` states the rows |
| FreightManager.ComputeDriverRow | components/FreightManager.tsx:22-51 | the loop's row is the ledger row of the driver's qualifying trips and payments |
| FreightManager.DriverStatsRows | components/FreightManager.tsx:18-53 | one row per active driver: the i-th row belongs to the i-th active driver of the staff list, and every row's member is an active driver on that list |
| FreightManager.FinishedKmOfDetails | components/FreightManager.tsx:24-38 | the finished kilometres are the kilometres of the trips in the driver's details |
| FreightManager.DriverDetailFreight | components/FreightManager.tsx:29-38 | the freight summed over the details is their kilometres times the driver's current rate |
| FreightManager.DriverEarnedLast | components/FreightManager.tsx:36 | a new last trip adds its freight exactly when it qualifies |
| FreightManager.DriverEarnedIsKmTimesRate | components/FreightManager.tsx:29-38 | earned = kilometres of the qualifying trips × the driver's current rate; the trip's stored driverKmCost plays no part |
| FreightManager.DriverAmountMatchesCosting | components/FreightManager.tsx:33-34 | the ledger's freight for a trip equals what the trip form charges for that driver |
| FreightManager.LegacyTripCredits | components/FreightManager.tsx:25-26 | a finished legacy trip with only `driverId` credits that driver |
| BudgetCalculator.VehicleRate | components/BudgetCalculator.tsx:5-13 | the rate is 0 exactly when the type is not in the table, otherwise the table's rate |
| BudgetCalculator.CranePrice | components/BudgetCalculator.tsx:15-28 | the price is 0 exactly when the type is not in the table, otherwise the table's price |
| BudgetCalculator.VehiclesTotal | components/BudgetCalculator.tsx:76-81 | the sum of quantity × km × rate over the vehicle rows; `AddedVehicleCostsNothing` and `RemovedVehiclesTotal` state how edits change it |
| BudgetCalculator.CranesTotal | components/BudgetCalculator.tsx:95-100 | the sum of quantity × price over the crane rows; `AddedCraneCosts` and `RemovedCranesTotal` state how edits change it |
| BudgetCalculator.ComputeQuote | components/BudgetCalculator.tsx:76-121 | the chain of totals from the inputs to the rounded sale price; `SalePriceFormula` and `TruckExample` state its results |
| BudgetCalculator.Ceil | components/BudgetCalculator.tsx:119-121 | the least integer not below x: x ≤ c < x + 1 |
| BudgetCalculator.SalePriceFormula | components/BudgetCalculator.tsx:102-121 | finalCost = subTotal × (1 + tax%); sale price = subTotal × (1 + tax%) × (1 + margin%); the shown price rounds it up by less than 1 |
| BudgetCalculator.TruckExample | components/BudgetCalculator.tsx:76-121 | one truck over 100 km at 18% tax and 30% margin: 600, 108, 708, 920.4, shown as 921 |
| BudgetCalculator.AddedVehicleCostsNothing | components/BudgetCalculator.tsx:125-127 | the added row (one truck, 0 km) leaves the vehicle total unchanged |
| BudgetCalculator.AddedCraneCosts | components/BudgetCalculator.tsx:137-139 | the added row (one 30 ton crane) adds 8100 to the crane total |
| BudgetCalculator.RemovedVehiclesTotal | components/BudgetCalculator.tsx:129-131 | removing a row takes exactly the cost of the rows with that id off the vehicle total |
| BudgetCalculator.RemovedCranesTotal | components/BudgetCalculator.tsx:141-143 | removing a row takes exactly the cost of the rows with that id off the crane total |
| BudgetCalculator.ApplyVehicleEdit | components/BudgetCalculator.tsx:133-135 | the edited field takes the value; the id and the other fields stay |
| BudgetCalculator.ApplyCraneEdit | components/BudgetCalculator.tsx:145-147 | the edited field takes the value; the id and the other field stay |
| BudgetCalculator.BudgetForm.constructor | components/BudgetCalculator.tsx:52-72 | the initial state: one truck with 0 km, 0.5% insurance, 30% margin, 18% tax, everything else 0 |
| BudgetCalculator.BudgetForm.AddVehicle | components/BudgetCalculator.tsx:125-127 | one truck row with 0 km is appended |
| BudgetCalculator.BudgetForm.RemoveVehicle | components/BudgetCalculator.tsx:129-131 | every row with the id is removed |
| BudgetCalculator.BudgetForm.UpdateVehicle | components/BudgetCalculator.tsx:133-135 | the rows with the id are edited, the others are unchanged, and the length is kept |
| BudgetCalculator.BudgetForm.AddCrane | components/BudgetCalculator.tsx:137-139 | one 30 ton crane row is appended |
| BudgetCalculator.BudgetForm.RemoveCrane | components/BudgetCalculator.tsx:141-143 | every row with the id is removed |
| BudgetCalculator.BudgetForm.UpdateCrane | components/BudgetCalculator.tsx:145-147 | the rows with the id are edited, the others are unchanged, and the length is kept |
| BudgetCalculator.InitialQuoteIsZero | components/BudgetCalculator.tsx:52-72 | the freshly opened calculator quotes 0 |
| Dashboard.FilteredTrips | components/Dashboard.tsx:21-25 | the trips whose date lies between the start and the end; `FilteredTripsFacts` states which and in what order |
| Dashboard.FilteredTripsFacts | components/Dashboard.tsx:21-25 | the window keeps exactly the trips dated inside it, in their original order |
| Dashboard.InvertedWindowIsEmpty | components/Dashboard.tsx:23 | a window whose start is after its end is empty |
| Dashboard.ComputeStats | components/Dashboard.tsx:27-39 | total cost and km are the sums over the trips; the weekend count is the number of weekend trips, never above the trip count |
| Dashboard.FirstOccurrences | components/Dashboard.tsx:59 | the listed keys are exactly the input keys, each once |
| Dashboard.GroupCounts | components/Dashboard.tsx:55-58 | the dictionary has exactly the keys of the input, each mapped to its number of occurrences, in order of first insertion |
| Dashboard.GroupedEntries | components/Dashboard.tsx:55-59 | grouping then listing the keys gives the tally |
| Dashboard.TallyFacts | components/Dashboard.tsx:54-60 | every entry is an input key, listed once, with its exact count of at least 1; every key has an entry |
| Dashboard.Tally | components/Dashboard.tsx:54-60 | one entry per distinct key, in order of first appearance, carrying that key's number of occurrences |
| Dashboard.CountsTotalBump | components/Dashboard.tsx:57 | one more occurrence raises the total over distinct keys by one exactly when the key is among them |
| Dashboard.CountsTotalCovers | components/Dashboard.tsx:56-58 | over the distinct keys, the occurrence counts add up to the number of keys |
| Dashboard.TallyTotal | components/Dashboard.tsx:54-60 | the counts of the tally add up to the number of trips |
| Dashboard.TypeData | components/Dashboard.tsx:54-60 | trips per job type, in order of first appearance, with counts summing to the number of trips |
| Dashboard.ClientData | components/Dashboard.tsx:62-72 | the top five of the client tally after a stable sort by count, descending |
| Dashboard.TopClients | components/Dashboard.tsx:62-72 | the first five of the client tally after a stable sort by count, descending; `TopClientsShape`, `TopClientsExact` and `TopClientsDropped` state its properties |
| Dashboard.SortedClientsOrdered | components/Dashboard.tsx:69 | the sorted client tally has the most trips first |
| Dashboard.TopClientsShape | components/Dashboard.tsx:66-71 | at most five clients (fewer only when fewer have trips), most trips first |
| Dashboard.TopClientsExact | components/Dashboard.tsx:63-68 | each shown client has trips in the window, and its count is its exact number of trips |
| Dashboard.TopClientsDropped | components/Dashboard.tsx:69-71 | no client left out has more trips than any client shown |
| StaffManager.StaffRecord | components/StaffManager.tsx:55-64 | the record is active and keeps its phone; a driver keeps vehicle type, plate and rate, and a helper has none of them |
| StaffManager.Upserted | components/StaffManager.tsx:66-71 | an edit replaces exactly the entries with the editing id and keeps the length; an add appends one entry and keeps the others |
| StaffManager.Deleted | components/StaffManager.tsx:82 | the remaining members are exactly those whose id differs |
| StaffManager.StaffRecordWellFormed | components/StaffManager.tsx:55-64 | every submitted record is active, has a phone, and carries the driver fields exactly on drivers |
| StaffManager.EditRoundTrip | components/StaffManager.tsx:22-31 | loading a well-formed member into the form and submitting rebuilds the same record |
| StaffManager.DeleteAfterEdit | components/StaffManager.tsx:66-68 | deleting after an edit removes the same entries as deleting before it |
| StaffManager.DeleteAfterAdd | components/StaffManager.tsx:69-70 | deleting a member just added under a fresh id restores the list |
| StaffManager.StaffForm.constructor | components/StaffManager.tsx:11-20 | the form starts closed and blank, as a driver |
| StaffManager.StaffForm.StartEdit | components/StaffManager.tsx:22-31 | the member is loaded; absent texts become "" and an absent rate becomes 0 |
| StaffManager.StaffForm.ResetForm | components/StaffManager.tsx:33-41 | the fields return to blank, as a driver |
| StaffManager.StaffForm.Submit | components/StaffManager.tsx:52-77 | the staff list saved is the old list with the form's record upserted; the other keys are unchanged; the form is closed and blank |
| StaffManager.Delete | components/StaffManager.tsx:80-86 | only a confirmed delete removes the members with that id |

## Left out

- The React rendering, `useMemo`/`useState` plumbing, `window.scrollTo`, `window.print`, charts and navigation are UI only. `Sidebar.tsx` and `App.tsx` are not part of this model.
- The `alert` and `confirm` dialogs are not modelled. A confirmation becomes a `confirmed` parameter.
- Ids from `Date.now()` and timestamps from `new Date()` are clock reads. They are parameters (`newId`, `now`, `today`). So is the dashboard's default first-of-month window.
- `localStorage` and JSON serialisation are not modelled. The store holds decoded values, and a missing key is `None`.
- Numbers are exact reals. IEEE-754 rounding and overflow are not modelled.
- `parseFloat` is not modelled. A parsed number is `Option<real>`, with `None` for `NaN`. The budget inputs' `parseFloat(...) || 0` and the scalar setters of the calculator (helpers, insurance, munk, others, tax, margin) are not modelled: they only assign a field.
- The staff form's `kmRate` is taken as a number. Its `parseFloat` `NaN` cannot be submitted because the field is `required`. The browser's `required` checks on name and phone are not modelled.
- Sorting by `new Date(d).getTime()` is modelled as sorting by the ISO date string. The two agree for well-formed `YYYY-MM-DD` dates and ISO timestamps. Date-only strings parse as UTC while timestamps keep their time of day; those time-zone effects are not modelled.
- `Number(...)` is modelled on digit strings only, the empty string reading as 0. The model reads any other piece of a date (a sign, a space, a decimal point, a hex prefix) as not-a-number, which makes `isWeekend` false. JavaScript accepts some of these: `Number(" 7")`, `Number("+7")`, `Number("7.0")` and `Number("0x7")` all give 7. A date input never produces such pieces.
- `new Date(y, m - 1, d)` maps the years 0 to 99 to 1900 + y, so "0050-01-02" is judged by the weekday of 1950-01-02. `Calendar.JsDayNumber` reproduces this mapping; the lemma `TripsManager.IsWeekendOfIsoDate` is stated for years from 100 on, where the year is taken as written.
- Dashboard.GroupCounts: client names that are `Object.prototype` property names are not modelled. For "toString", "constructor" or "valueOf", `grouped[k]` starts as a function, so the count becomes the string "function…1" and the sort compares `NaN`. An assignment to "__proto__" is ignored, so that key is missing from `Object.keys`. The model counts these names as ordinary keys, so `Dashboard.TopClientsExact` does not hold for them in the source.
- `Object.keys` lists integer-like keys (a client named "123") before the others, in ascending order. The model lists all keys in first-insertion order.
- `costData` and all locale formatting are left out: the month labels of `toLocaleDateString`, `Intl.NumberFormat` and `toFixed`.
- The trip table's display (`TripsManager.tsx:339-350`) is left out. Only its driver fallback is stated, through `FreightManager.ListedDriverIds`.
- The `trip.helperIds || []` guard at `TripsManager.tsx:87` is not modelled. The helper list is always present in the model, as `types.ts` requires.
- The `settings.helperBonusMRI || 0` guard is not modelled. A present bonus is a number, so it only matters for `NaN`.
- `SettingsManager.tsx`, `GeminiInsight.tsx` and `geminiService.ts` are not part of this model. They are a settings form with a file upload and a remote AI call.
- `fuelCostPerKm` and `logo` are carried in the settings but used by no computation of the core.
- BudgetCalculator.BudgetForm.UpdateVehicle: the source's `field` can name any key, the id included. The screen only passes `type`, `quantity` and `km`, so the model's edit covers those three.
