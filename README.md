# Water-fountain backend: favourites ledger and statistics engine

A Dafny model of the two parts of the Spring backend that make real decisions.

- **The role-gated favourites ledger** (`UserService`, with the `User` entity it changes). The user repository is a map from id to `User` objects. It also keeps the order `findAll` lists them in and the next identity id. Each user has a role (Manager, Tester, Client) and two ordered id lists: `favourites` (fountain ids) and `waterAnalysis` (analysis ids). Every favourites operation checks, in order, that the user exists (`UserNotFoundException`) and that the role fits (`RoleNotAcepted`). Only then does it change or read the list. Changes are made to the user object the repository holds, the way the Java code changes the live list that `getFavourites()` returns.
- **The statistics engine** (`StatisticsService`). It takes all water analyses from the upstream source and filters them by an exact date when one is given. It rejects a null answer or an empty set. It then computes sum, maximum, minimum and count in one pass and appends one snapshot to the statistics repository, which is a sequence. It also answers queries by month (of the current year), by year and by id.

The upstream HTTP source (`FountainService.getFountainById`, `WaterAnalysisService.getWaterAnalysisById`, `getAllWaterAnalyses`) is a parameter of type `Fetch`. A call either answers with a body that may be null, or fails (a `RetrofitException`). The current year, which the source reads from `LocalDate.now()`, is a parameter too. Radon values are reals. Dates are (year, month, day) triples. A nullable Java reference is an `Option`.

Modules: `Common` (`common.dfy`), `Users` (`user.dfy`), `Lists` (`lists.dfy`), `Resolution` (`resolution.dfy`), `UserServices` and `UserScenarios` (`user_service.dfy`), `Radon` (`radon.dfy`), `StatisticsServices` (`statistics_service.dfy`).

Quirks of the code that the model keeps:

- `addFavourite` appends without a duplicate check. `removeFavourite` removes only the first occurrence (`List.remove(Object)`), and an absent id is no error.
- The list is changed and saved BEFORE the fountain is looked up. A failing lookup therefore still leaves the id added or removed.
- `isFountainFavorite` throws `ParamException` ("Fountain does not exist.") when the lookup FINDS the fountain. It only returns the membership answer when the lookup body is null.
- `getTesterWaterAnalysis` resolves the ids in `favourites`, not the ids in `waterAnalysis`, which `addWaterAnalysis` writes.
- `updateUser` rejects an email that any stored user already has, including the user being updated.
- `createUser` does no email check.
- The no-argument `User` constructor gives the role Client, although its Javadoc says Manager.
- The maximum is seeded with `Double.MIN_VALUE` (2^-1074, positive). With only zero readings the stored maximum is that constant, not a reading. The minimum is seeded with `Double.MAX_VALUE`.
- With a date given, an analysis whose date is null makes the filter throw. `createStatistics` catches every exception and rethrows it as `IllegalArgumentException`.
- A snapshot stored without a date (statistics over all analyses) makes every later month or year query throw `NullPointerException`.
- `getStatisticsById` throws `UserNotFoundException` for an absent id.

## Model

| member | source | states |
|---|---|---|
| `Users.User.constructor` | src/main/java/io/reflectoring/Sprint3SpringBoot/Models/User.java:87-94 | stores the given name, email, password and role; id 0; both lists empty |
| `Users.User.Empty` | src/main/java/io/reflectoring/Sprint3SpringBoot/Models/User.java:96-103 | role Client (not Manager); strings null; both lists empty |
| `Users.User.SetId` | src/main/java/io/reflectoring/Sprint3SpringBoot/Models/User.java:119-121 | only the id changes |
| `Users.User.SetName` | src/main/java/io/reflectoring/Sprint3SpringBoot/Models/User.java:137-139 | only the name changes |
| `Users.User.SetEmail` | src/main/java/io/reflectoring/Sprint3SpringBoot/Models/User.java:155-157 | only the email changes |
| `Users.User.SetPassword` | src/main/java/io/reflectoring/Sprint3SpringBoot/Models/User.java:173-175 | only the password changes |
| `Users.User.SetRole` | src/main/java/io/reflectoring/Sprint3SpringBoot/Models/User.java:191-193 | only the role changes |
| `Users.User.SetFavourites` | src/main/java/io/reflectoring/Sprint3SpringBoot/Models/User.java:199-201 | only `favourites` changes; `waterAnalysis` is untouched |
| `Users.User.SetWaterAnalysis` | src/main/java/io/reflectoring/Sprint3SpringBoot/Models/User.java:207-209 | only `waterAnalysis` changes; `favourites` is untouched |
| `Lists.RemoveFirstCuts` | src/main/java/io/reflectoring/Sprint3SpringBoot/Services/UserService.java:194 | removing a present id cuts exactly its first occurrence; an absent id leaves the list as it was |
| `Lists.RemoveFirstMultiset` | src/main/java/io/reflectoring/Sprint3SpringBoot/Services/UserService.java:194 | removal takes away exactly one copy of the id when there is one |
| `Lists.AppendThenRemoveFirst` | src/main/java/io/reflectoring/Sprint3SpringBoot/Services/UserService.java:165-194 | add then remove restores a list that lacked the id; with an earlier copy, that copy goes and the new one stays |
| `Lists.RemoveFirst` | src/main/java/io/reflectoring/Sprint3SpringBoot/Services/UserService.java:194 | `List.remove(Object)` shortens the list by one exactly when the id is present |
| `Resolution.Resolve` | src/main/java/io/reflectoring/Sprint3SpringBoot/Services/UserService.java:133-138 | resolution succeeds iff every lookup answers; then one body per id, in stored order, same length; any failure is the source failure |
| `Resolution.ResolvePrefix` | src/main/java/io/reflectoring/Sprint3SpringBoot/Services/UserService.java:304-311 | resolving a prefix gives the prefix of the whole resolution |
| `UserServices.WithRole` | src/main/java/io/reflectoring/Sprint3SpringBoot/Services/UserService.java:269-274 | keeps exactly the ids whose users have the role (membership); order and multiplicity are `WithRoleAppend`'s |
| `UserServices.WithRoleAppend` | src/main/java/io/reflectoring/Sprint3SpringBoot/Services/UserService.java:269-274 | filtering a concatenation is the concatenation of the filtered parts: the listing order and every occurrence are kept |
| `UserServices.UserService.GetUserById` | src/main/java/io/reflectoring/Sprint3SpringBoot/Services/UserService.java:54-62 | the stored user iff the id is stored, else `UserNotFound` |
| `UserServices.UserService.UpdateUser` | src/main/java/io/reflectoring/Sprint3SpringBoot/Services/UserService.java:78-99 | checks id match, then email taken by any stored user (itself included), then existence, leaving the store unchanged on each failure; on success only name, email and password change; a failed save is `RepositoryException` after the change |
| `UserServices.OwnEmailTaken` | src/main/java/io/reflectoring/Sprint3SpringBoot/Services/UserService.java:83-84 | every stored user's own email counts as taken (`EmailTaken`), the fact `UnchangedUserRefused` builds on |
| `UserServices.UserService.CreateUser` | src/main/java/io/reflectoring/Sprint3SpringBoot/Services/UserService.java:108-116 | a successful save stores the user under a fresh id (`nextId`, then incremented) at the end of the listing order, and that user alone is added; a failed save leaves map, order, counter and the user as they were |
| `UserServices.UserService.GetUserFavourites` | src/main/java/io/reflectoring/Sprint3SpringBoot/Services/UserService.java:127-139 | `UserNotFound`, then `RoleNotAccepted` for a non-Client; otherwise the resolution of the whole `favourites` list; changes nothing |
| `UserServices.UserService.AddFavourite` | src/main/java/io/reflectoring/Sprint3SpringBoot/Services/UserService.java:152-169 | error cases change no user; for a Client the id is appended (duplicates kept), every other field and user unchanged, and the result is the lookup's |
| `UserServices.UserService.RemoveFavourite` | src/main/java/io/reflectoring/Sprint3SpringBoot/Services/UserService.java:182-199 | error cases change no user; for a Client only the first occurrence goes, an absent id is no error, and the result is the lookup's |
| `UserServices.UserService.GetTesterWaterAnalysis` | src/main/java/io/reflectoring/Sprint3SpringBoot/Services/UserService.java:210-222 | `UserNotFound`, then `RoleNotAccepted` for a non-Tester; otherwise the analyses resolved from `favourites` |
| `UserServices.UserService.AddWaterAnalysis` | src/main/java/io/reflectoring/Sprint3SpringBoot/Services/UserService.java:235-251 | for a Tester only `waterAnalysis` gets the id appended; `favourites` is untouched; error cases change nothing |
| `UserServices.UserService.CollectByRole` | src/main/java/io/reflectoring/Sprint3SpringBoot/Services/UserService.java:269-274 | the loop keeps exactly the stored users with the role, in repository order (the ids are `WithRole` of the listing) |
| `UserServices.UserService.GetAllUsersByRole` | src/main/java/io/reflectoring/Sprint3SpringBoot/Services/UserService.java:261-281 | `UserNotFound` on an empty repository and on no match; otherwise exactly the stored users with that role, in repository order |
| `UserServices.UserService.GetXFavourites` | src/main/java/io/reflectoring/Sprint3SpringBoot/Services/UserService.java:293-314 | existence, then `i <= 0` (`ParamInvalid`), then role; the resolution of the first min(i, \|favourites\|) ids with at most that many lookups |
| `UserServices.UserService.IsFountainFavorite` | src/main/java/io/reflectoring/Sprint3SpringBoot/Services/UserService.java:317-330 | after user and role checks, a found fountain is `ParamInvalid`; only a null lookup body gives the membership answer |
| `UserScenarios.FavouriteRoundTrip` | src/main/java/io/reflectoring/Sprint3SpringBoot/Services/UserService.java:152-199 | for a Client lacking the fountain and one fountain source that answers with a null body, the membership query answers true after adding it and false after removing it, and every user is then as it was |
| `UserScenarios.FoundFountainRefused` | src/main/java/io/reflectoring/Sprint3SpringBoot/Services/UserService.java:317-330 | with a fountain source that finds the fountain, `addFavourite` still appends it and returns the body, while `isFountainFavorite` is refused with `ParamInvalid` |
| `UserScenarios.UnchangedUserRefused` | src/main/java/io/reflectoring/Sprint3SpringBoot/Services/UserService.java:78-85 | passing a stored user back to `updateUser` unchanged is refused with `ParamInvalid` and leaves every user as it was, whatever the save would do |
| `UserScenarios.NewUserRoundTrip` | src/main/java/io/reflectoring/Sprint3SpringBoot/Models/User.java:96-103 | a user from the no-argument constructor is stored by `createUser` as a Client with no favourites, and the round trip answers true, then false |
| `Radon.FilterByDate` | src/main/java/io/reflectoring/Sprint3SpringBoot/Services/StatisticsService.java:52-56 | no date: all analyses; with a date: exactly those with that date (membership), and a null analysis date throws |
| `Radon.FilterByDateAppend` | src/main/java/io/reflectoring/Sprint3SpringBoot/Services/StatisticsService.java:52-56 | filtering a concatenation is the concatenation of the filtered parts: source order and every copy are kept, which fixes the count and the sum |
| `Radon.MaxFrom` | src/main/java/io/reflectoring/Sprint3SpringBoot/Services/StatisticsService.java:66-72 | the running maximum bounds seed and readings and is the seed or a reading |
| `Radon.MinFrom` | src/main/java/io/reflectoring/Sprint3SpringBoot/Services/StatisticsService.java:67-73 | the running minimum is below seed and readings and is the seed or a reading |
| `Radon.Summary` | src/main/java/io/reflectoring/Sprint3SpringBoot/Services/StatisticsService.java:76-77 | total is the filtered count, the average is the mean reading, id and date as given |
| `Radon.SumBounds` | src/main/java/io/reflectoring/Sprint3SpringBoot/Services/StatisticsService.java:65-71 | readings between `lo` and `hi` sum to between count×lo and count×hi |
| `Radon.MeanWithin` | src/main/java/io/reflectoring/Sprint3SpringBoot/Services/StatisticsService.java:65-76 | readings between `lo` and `hi` have their average between them |
| `Radon.SummaryOrdered` | src/main/java/io/reflectoring/Sprint3SpringBoot/Services/StatisticsService.java:65-77 | a stored snapshot has minimum ≤ average ≤ maximum (in exact real arithmetic; with doubles, rounding can push the average of equal readings past the maximum) |
| `Radon.SummaryMinimum` | src/main/java/io/reflectoring/Sprint3SpringBoot/Services/StatisticsService.java:67-73 | the stored minimum is at most every reading and equals one of them |
| `Radon.SummaryMaximum` | src/main/java/io/reflectoring/Sprint3SpringBoot/Services/StatisticsService.java:66-72 | the stored maximum is at least every reading; it equals a reading iff some reading reaches `Double.MIN_VALUE`, and otherwise is that constant |
| `Radon.ZeroReadingsMaximum` | src/main/java/io/reflectoring/Sprint3SpringBoot/Services/StatisticsService.java:66 | with only zero readings the stored maximum is `Double.MIN_VALUE`, none of the readings |
| `Radon.TwoEqualReadings` | src/test/java/io/reflectoring/Sprint3SpringBoot/Services/StatisticsServiceTest.java:39-61 | two readings of 15 on the queried date: both are kept by the date filter, and average, max and min are 15, total 2 |
| `Radon.ThreeReadings` | src/main/java/io/reflectoring/Sprint3SpringBoot/Services/StatisticsService.java:65-77 | readings 10, 20, 5: average 35/3, max 20, min 5, total 3 |
| `Radon.SelectByDate` | src/main/java/io/reflectoring/Sprint3SpringBoot/Services/StatisticsService.java:96-101 | succeeds iff every snapshot has a date; then exactly the snapshots the query keeps (membership) |
| `Radon.SelectByDateAppend` | src/main/java/io/reflectoring/Sprint3SpringBoot/Services/StatisticsService.java:96-101 | selecting from a concatenation is the concatenation of the selections: store order and every occurrence are kept |
| `Radon.UndatedSnapshotBreaksQueries` | src/main/java/io/reflectoring/Sprint3SpringBoot/Services/StatisticsService.java:98 | a snapshot stored without a date makes later queries throw |
| `Radon.FindById` | src/main/java/io/reflectoring/Sprint3SpringBoot/Services/StatisticsService.java:125 | `findById` finds a snapshot iff one with that id is stored, and what it finds is stored and has that id |
| `StatisticsServices.Accumulate` | src/main/java/io/reflectoring/Sprint3SpringBoot/Services/StatisticsService.java:65-74 | the loop computes the sum, the `Double.MIN_VALUE`-seeded maximum and the `Double.MAX_VALUE`-seeded minimum |
| `StatisticsServices.StatisticsService.CreateStatistics` | src/main/java/io/reflectoring/Sprint3SpringBoot/Services/StatisticsService.java:41-86 | failed or null source, a filter failure or an empty filtered set: `IllegalArgument`, nothing stored and the id counter unchanged; else exactly one snapshot of the filtered analyses, under the next id, is appended and returned and the counter advances by one |
| `StatisticsServices.StatisticsService.GetMonthStatistics` | src/main/java/io/reflectoring/Sprint3SpringBoot/Services/StatisticsService.java:88-104 | month outside 1..12 is `IllegalArgument`; else the snapshots of that month of the current year, in store order |
| `StatisticsServices.StatisticsService.GetYearStatistics` | src/main/java/io/reflectoring/Sprint3SpringBoot/Services/StatisticsService.java:106-122 | year below 1900 or after the current year is `IllegalArgument`; else the snapshots of that year, in store order |
| `StatisticsServices.StatisticsService.Select` | src/main/java/io/reflectoring/Sprint3SpringBoot/Services/StatisticsService.java:114-119 | the query loop gives what `SelectByDate` specifies and throws at a null date |
| `StatisticsServices.StatisticsService.GetStatisticsById` | src/main/java/io/reflectoring/Sprint3SpringBoot/Services/StatisticsService.java:124-132 | the snapshot with that id iff one is stored, else `UserNotFoundException` |

## Left out

- The HTTP layer, the Retrofit clients and the DTO mappers. Lookups are a parameter that answers or fails. The model treats that oracle as deterministic: two lookups of the same id give the same answer.
- Persistence failures of `save` in `addFavourite`, `removeFavourite`, `addWaterAnalysis` and `createStatistics`: the store is taken to accept those writes. Only `createUser` and `updateUser`, which catch the failure explicitly, model it, through a `saveOk` parameter.
- JPA `save` on a user whose id already exists would merge instead of insert. `CreateUser` always assigns a fresh id and requires a user object not yet in the repository.
- `UserServices.UserService.UpdateUser`: the repository holds the live user objects, so the setters take effect in `View()` before the save. A failed save (`saveOk` false) therefore leaves the new name, email and password in place; with JPA they would stay in memory but not reach the database. Editing a stored user first and then passing it to `updateUser` (as `UserController.java:101-109` does) always meets the user's own new email and gives `ParamInvalid` in the model. In the program the outcome depends on when JPA flushes the edited entity, which is not modelled.
- `findUserByEmail` with several matching users would throw a different exception. `UpdateUser` reports every match as `ParamInvalid`.
- IEEE-754 doubles: sums, averages and comparisons are exact real arithmetic, and NaN and infinities are not modelled. `Double.MIN_VALUE` and `Double.MAX_VALUE` are their exact values.
- `Radon.SummaryMinimum` requires readings of at most `Double.MAX_VALUE`. Every finite double satisfies this, but the reals used here need not.
- `LocalDate.now()` is the `currentYear` parameter, read once per query.
- Null elements in the lists returned by the upstream source, and a null `favourites` list set through `setFavourites(null)`, are not modelled.
- Getters are field reads. `getFavourites()` handing out the live list appears as the service assigning the stored user's field.
