# Darkroom catalogue and push/pull guide in Dafny

This project models the three pieces of logic in the darkroom web application for analog
film photography.

- **Push/pull guide** (`push_pull.dfy`, module `PushPull`). It holds the constant table of
  development times per film and developer (standard, one stop pulled, one stop pushed). It
  chooses the time for the selected exposure stop (−2 … +2): 7 minutes when the pair has no
  data, the standard time while a stop change is unconfirmed, and the tabulated or clamped
  derived time once the change is confirmed. It also gives the effective ISO (`iso · 2^stop`),
  the warning note and the five-row reference table. The component's state (film, developer,
  stop, confirmed flag) is the class `PushPullGuide`. Its methods are the selectors, the stop
  buttons and the confirm button.
- **In-memory catalogue store** (`storage.dfy`, module `Storage`, class `MemStorage`). It has
  five keyed tables (users, films, chemicals, development processes, diary entries), each with
  its own id counter starting at 1. Films, chemicals, development processes and diary entries
  each have create/get/update/delete; users have get, get-by-name and create. There are also
  lookups of the processes of a film and of the diary entries of a user. The records are in
  `schema.dfy`: each stored record is the caller's insert payload plus the id the store
  assigned.
- **Films page helpers** (`films_page.dfy`, module `FilmsPage`). These are the category and
  search filter over the film list, processes per film, the chemical label lookup and the
  purchase-link table.

Shared helpers: `seqs.dfy` models `Array.prototype.filter` and `find`, and `strings.dfy` models
`toLowerCase`, `includes` and `Number.prototype.toString`. `wrappers.dfy` holds `Option`, which
stands for JavaScript's `undefined`.

Design points:
- **Map order.** A JavaScript `Map` iterates in insertion order. The store hands out ids in
  increasing order and never reuses one, and `set` on a key that is already present keeps its
  place. So `Array.from(map.values())` lists the records in ascending id order, which is
  `Storage.Ordered(m, 1, counter)`. The list operations are proved to return exactly the stored
  (or matching) records, each once, in ascending id order.
- **Ids.** Every create hands out its table's counter and raises it by one. No other method
  changes a counter, and every stored key is below its counter. So ids start at 1, increase
  strictly, and a deleted id is never handed out again.
- **Time formulas.** The reference table repeats the time formulas inline
  (client/src/components/PushPullGuide.tsx:429-469). The model keeps that repetition and proves
  the table rows agree with the confirmed development time.
- **The `|| 7` fallback.** The no-data and unconfirmed case is `pair?.standard || 7`, so a pair
  whose standard time is 0 would also show 7. The model keeps this.
- **No data.** A pair without data has no separate "no data" time: `getDevelopmentTime`
  returns 7 directly (client/src/components/PushPullGuide.tsx:210-211), and the reference table
  renders its own "no data" row (client/src/components/PushPullGuide.tsx:463-469).
- **A property of the data.** The +2 time is capped at 15 minutes and ignores the +1 time. So
  for Delta 3200 (D-76 and DD-X) and T-Max 3200 (D-76), pushing two stops gives a shorter time
  than pushing one. `PushPull.PushTwoBelowPushOne` proves that these are exactly the pairs where
  this happens. The model keeps the code's behaviour.
- **The stop-0 warning.** When the unconfirmed stop is 0, the warning text is the "pulling"
  note (client/src/components/PushPullGuide.tsx:243). `PushPull.IsoWarningChoice` states this.

## Model

| member | source | states |
|---|---|---|
| `Seqs.Filter` | client/src/pages/films-page.tsx:54 | the result holds exactly the elements of the input that satisfy the predicate, and it is an order-preserving subsequence of the input |
| `Seqs.FilterMultiplicity` | client/src/pages/films-page.tsx:54 | each element occurs in the result as often as in the input when it satisfies the predicate, and not at all otherwise, so duplicates are kept |
| `Seqs.Find` | client/src/pages/films-page.tsx:49 | `None` exactly when no element matches; otherwise the value is the element at the first index that matches, and no earlier element matches |
| `Seqs.FilterKeepsIncreasing` | server/storage.ts:157-161 | filtering a list sorted by strictly increasing key keeps it strictly increasing |
| `Seqs.FilterSameCondition` | client/src/pages/films-page.tsx:57-62 | filters by two conditions that agree on every element give the same list |
| `Seqs.FilterStrongerIsSubsequence` | client/src/pages/films-page.tsx:57-72 | filtering by a stronger condition gives a subsequence of filtering by a weaker one |
| `Strings.ToLower` | client/src/pages/films-page.tsx:64-69 | lower-casing keeps the length, maps each character through the ASCII lower-case map, and leaves no capital letter |
| `Strings.Includes` | client/src/pages/films-page.tsx:66-70 | the empty query is contained in every text, and a query longer than the text is never contained |
| `Strings.IncludesIff` | client/src/pages/films-page.tsx:66-70 | the scanning `includes` holds exactly when the query occurs as a contiguous block at some index |
| `Strings.NatToStringRoundTrip` | client/src/pages/films-page.tsx:70 | the decimal numeral of a natural number is non-empty, all digits, has no leading zero, and reads back as the number |
| `Strings.IntToString` | client/src/pages/films-page.tsx:70 | the numeral is non-empty, starts with `-` exactly for a negative number, and is all digits after the first character |
| `Strings.IntToStringRoundTrip` | client/src/pages/films-page.tsx:70 | the numeral of any integer, with its minus sign, reads back as that integer, so different ISO values have different strings |
| `Storage.Get` | server/storage.ts:76 | `Map.get`: a value exactly when the key is present, and then the value stored under it |
| `Storage.Ordered` | server/storage.ts:94 | iterating keys `lo` up to `hi` yields at most `hi - lo` records, each stored under a key in that range |
| `Storage.OrderedMembers` | server/storage.ts:94 | iterating a table yields only records stored under keys in range, and yields every such record |
| `Storage.OrderedIncreasing` | server/storage.ts:94 | when records carry their keys as ids, the iteration is strictly increasing by id, within the key range |
| `Storage.OrderedTable` | server/storage.ts:93-95 | for a well-formed table, `Array.from(values())` is exactly the stored records, in ascending id order |
| `Storage.FindInTable` | server/storage.ts:79-83 | `find` over a table yields nothing exactly when no record matches; otherwise it yields the stored matching record with the smallest id |
| `Storage.MemStorage.constructor` | server/storage.ts:58-72 | five empty tables and every id counter at 1 |
| `Storage.MemStorage.GetUser` | server/storage.ts:75-77 | the user stored under the id if there is one, otherwise nothing; a found user's id is the requested id |
| `Storage.MemStorage.GetUserByUsername` | server/storage.ts:79-83 | nothing exactly when no user has the name; otherwise a stored user with that name, and no user with a smaller id has it |
| `Storage.MemStorage.CreateUser` | server/storage.ts:85-90 | the new user gets the counter's id, the given name and password, and `isAdmin = false`; the id is above every existing id; only the user table and its counter (+1) change |
| `Storage.MemStorage.GetFilms` | server/storage.ts:93-95 | exactly the stored films, each under its own id, in ascending id order |
| `Storage.MemStorage.GetFilm` | server/storage.ts:97-99 | the film stored under the id, or nothing; a found film's id is the requested id |
| `Storage.MemStorage.CreateFilm` | server/storage.ts:101-106 | the new film is the payload with the counter's id, above every existing id; `getFilm` of that id then returns it; only the film table and its counter (+1) change |
| `Storage.MemStorage.UpdateFilm` | server/storage.ts:108-114 | an absent id gives nothing and changes nothing; a present id stores and returns the payload under that id, and no other key, table or counter changes |
| `Storage.MemStorage.DeleteFilm` | server/storage.ts:116-118 | returns whether the id was present; afterwards the id is absent and the rest of the store, counters included, is unchanged |
| `Storage.MemStorage.GetChemicals` | server/storage.ts:121-123 | exactly the stored chemicals, each under its own id, in ascending id order |
| `Storage.MemStorage.GetChemical` | server/storage.ts:125-127 | the chemical stored under the id, or nothing; a found chemical's id is the requested id |
| `Storage.MemStorage.CreateChemical` | server/storage.ts:129-134 | the new chemical is the payload with the counter's id, above every existing id; only the chemical table and its counter (+1) change |
| `Storage.MemStorage.UpdateChemical` | server/storage.ts:136-142 | an absent id gives nothing and changes nothing; a present id stores and returns the payload under that id, and nothing else changes |
| `Storage.MemStorage.DeleteChemical` | server/storage.ts:144-146 | returns whether the id was present; only that key is removed |
| `Storage.MemStorage.GetDevelopmentProcesses` | server/storage.ts:149-151 | exactly the stored processes, each under its own id, in ascending id order |
| `Storage.MemStorage.GetDevelopmentProcess` | server/storage.ts:153-155 | the process stored under the id, or nothing; a found process's id is the requested id |
| `Storage.MemStorage.GetDevelopmentProcessesForFilm` | server/storage.ts:157-161 | exactly the stored processes whose film id is the given one, in ascending id order |
| `Storage.MemStorage.CreateDevelopmentProcess` | server/storage.ts:163-175 | the new process is unverified, has `createdAt = updatedAt = now` and the counter's id; only the process table and its counter (+1) change |
| `Storage.MemStorage.UpdateDevelopmentProcess` | server/storage.ts:177-189 | an absent id gives nothing and changes nothing; a present id takes the new fields and `updatedAt = now`, keeps its `createdAt` and `isVerified`, and nothing else changes |
| `Storage.MemStorage.DeleteDevelopmentProcess` | server/storage.ts:191-193 | returns whether the id was present; only that key is removed |
| `Storage.MemStorage.GetDiaryEntries` | server/storage.ts:196-200 | exactly the stored entries of the given user, in ascending id order |
| `Storage.MemStorage.GetDiaryEntry` | server/storage.ts:202-204 | the entry stored under the id, or nothing; a found entry's id is the requested id |
| `Storage.MemStorage.CreateDiaryEntry` | server/storage.ts:206-218 | the new entry has the counter's id, the user, the content and `date = lastModified = now`; only the entry table and its counter (+1) change |
| `Storage.MemStorage.UpdateDiaryEntry` | server/storage.ts:220-231 | an absent id gives nothing and changes nothing; a present id changes only `content` and `lastModified`, keeping id, user and date |
| `Storage.MemStorage.DeleteDiaryEntry` | server/storage.ts:233-235 | returns whether the id was present; only that key is removed |
| `FilmsPage.MatchesSearch` | client/src/pages/films-page.tsx:64-71 | the search matches exactly when the lower-cased query occurs in the lower-cased English name, Chinese name, manufacturer or brand, or in the ISO numeral |
| `FilmsPage.KeepFilm` | client/src/pages/films-page.tsx:57-71 | a kept film has the category's type; with an empty query every film of the type is kept; otherwise exactly the films of the type that the search hits |
| `FilmsPage.FilteredFilms` | client/src/pages/films-page.tsx:57-72 | a list exactly when the films have loaded; every film in it comes from the loaded list and has the category's type |
| `FilmsPage.EmptyQueryShowsCategory` | client/src/pages/films-page.tsx:62 | with an empty query the result is exactly the films of the category, in list order |
| `FilmsPage.NonEmptyQueryIff` | client/src/pages/films-page.tsx:64-71 | with a non-empty query a film is shown iff it is in the list, of the category, and the query occurs in one of its five searched texts |
| `FilmsPage.FilteredFilmsSubsequence` | client/src/pages/films-page.tsx:57 | the result is an order-preserving subsequence of the list and of the empty-query result |
| `FilmsPage.GetFilmProcesses` | client/src/pages/films-page.tsx:53-55 | no loaded processes gives `[]`; otherwise exactly the loaded processes of the film, in order, each as often as it occurs in the loaded list |
| `FilmsPage.ChemicalLabel` | client/src/pages/films-page.tsx:50 | the label is the English name, then " (", then the Chinese name, then ")" |
| `FilmsPage.GetChemicalName` | client/src/pages/films-page.tsx:48-51 | the name is empty iff no loaded chemical has the id; otherwise it is "nameEn (nameZh)" of the first chemical with that id |
| `FilmsPage.Links` | client/src/pages/films-page.tsx:157-173 | `links[region]` is the region's table, and every link in it is longer than one character, so none is empty or `#` |
| `FilmsPage.GetPurchaseLink` | client/src/pages/films-page.tsx:156-174 | the link is the region table's entry for the name, and `#` exactly when the table has no entry |
| `FilmsPage.PurchaseLinkTable` | client/src/pages/films-page.tsx:157-171 | Tri-X 400 has a global link but `#` in China; every name in the China table also has a global link |
| `PushPull.FilmById` | client/src/components/PushPullGuide.tsx:206 | `filmStocks.find`: nothing exactly when no table film has the id; otherwise a table film with that id |
| `PushPull.PairTimes` | client/src/components/PushPullGuide.tsx:210 | `film.developers[id]`: times exactly when the film has data for the developer, and then that developer's times |
| `PushPull.FallbackTime` | client/src/components/PushPullGuide.tsx:210-211 | the fallback is 7 or the pair's standard time, and never 0 |
| `PushPull.StopTime` | client/src/components/PushPullGuide.tsx:214-226 | −2 gives at least 4 and at least 0.7·standard; +2 at most 15 and at most 1.5·standard; −1, 0, +1 give one of the tabulated times |
| `PushPull.DevelopmentTime` | client/src/components/PushPullGuide.tsx:209-228 | no data gives 7; unconfirmed gives the fallback; confirmed with data gives the stop's time |
| `PushPull.Pow2` | client/src/components/PushPullGuide.tsx:236 | a power of two is positive |
| `PushPull.EffectiveIso` | client/src/components/PushPullGuide.tsx:235-237 | positive for a positive ISO, 0 for ISO 0, and the film's ISO at stop 0 |
| `PushPull.IsoWarning` | client/src/components/PushPullGuide.tsx:239-244 | never the standard note; an extreme note exactly at ±2 |
| `PushPull.ReferenceRows` | client/src/components/PushPullGuide.tsx:429-469 | five rows exactly when the pair has data; otherwise the single "no data" row |
| `PushPull.NoDataIsSeven` | client/src/components/PushPullGuide.tsx:210-211 | without data for the pair the time is 7 minutes, for every stop and confirmation state |
| `PushPull.UnconfirmedIsStandard` | client/src/components/PushPullGuide.tsx:210-211 | while a stop change is unconfirmed the time is the pair's standard time (7 if that is 0), whatever the stop |
| `PushPull.ConfirmedStops` | client/src/components/PushPullGuide.tsx:214-226 | confirmed: 0 gives standard, −1 pullOne, +1 pushOne, −2 max(standard·0.7, 4), +2 min(standard·1.5, 15) |
| `PushPull.ExtremeStopsClamped` | client/src/components/PushPullGuide.tsx:216-226 | the confirmed −2 time is at least 4 minutes and at least 0.7·standard; the +2 time is at most 15 minutes and at most 1.5·standard |
| `PushPull.TableIsOrdered` | client/src/components/PushPullGuide.tsx:23-125 | every pair in the film table has 0 < pullOne < standard < pushOne, and every film has D-76 data |
| `PushPull.ConfirmedMiddleStopsIncrease` | client/src/components/PushPullGuide.tsx:214-226 | for an ordered pair the confirmed times at −1, 0, +1 are positive and strictly increasing |
| `PushPull.PushTwoBelowPushOne` | client/src/components/PushPullGuide.tsx:223-224 | over the table, the +2 time is below the +1 time exactly for Delta 3200 (both developers) and T-Max 3200 with D-76; the −2 time is always below the −1 time |
| `PushPull.EffectiveIsoDoubles` | client/src/components/PushPullGuide.tsx:235-237 | each further stop doubles the effective ISO |
| `PushPull.EffectiveIsoLabels` | client/src/components/PushPullGuide.tsx:357-394 | the effective ISO at −2…+2 equals the button labels iso/4, iso/2, iso, iso·2, iso·4 |
| `PushPull.IsoWarningChoice` | client/src/components/PushPullGuide.tsx:239-244 | the extreme-push note iff +2, the extreme-pull note iff −2, the pushing note iff +1, the pulling note iff −1 or 0; never the standard note |
| `PushPull.ReferenceRowsAgree` | client/src/components/PushPullGuide.tsx:429-469 | a pair with data gives exactly five rows for stops −2…+2, each with the confirmed time and effective ISO of its stop; otherwise exactly one "no data" row |
| `PushPull.PushPullGuide.Film` | client/src/components/PushPullGuide.tsx:206 | the selected film is a table entry whose id is the selected id |
| `PushPull.PushPullGuide.GetDevelopmentTime` | client/src/components/PushPullGuide.tsx:209-228 | for the current selections: no data gives 7; unconfirmed gives the fallback; confirmed with data gives the selected stop's time |
| `PushPull.PushPullGuide.GetEffectiveIso` | client/src/components/PushPullGuide.tsx:235-237 | positive for a film with positive ISO, and the film's ISO at stop 0 |
| `PushPull.PushPullGuide.GetIsoWarningMessage` | client/src/components/PushPullGuide.tsx:239-244 | never the standard note |
| `PushPull.PushPullGuide.Rows` | client/src/components/PushPullGuide.tsx:429-469 | five rows exactly when the selected pair has data; otherwise the single "no data" row |
| `PushPull.PushPullGuide.constructor` | client/src/components/PushPullGuide.tsx:200-203 | starts on FP4+ with D-76, stop 0, confirmed, showing 9 minutes |
| `PushPull.PushPullGuide.SelectFilm` | client/src/components/PushPullGuide.tsx:307 | switches the film to a table film and keeps developer, stop and confirmation state |
| `PushPull.PushPullGuide.SelectDeveloper` | client/src/components/PushPullGuide.tsx:327 | switches the developer and keeps film, stop and confirmation state |
| `PushPull.PushPullGuide.HandleIsoChange` | client/src/components/PushPullGuide.tsx:230-233 | sets the stop and clears the confirmation; the time shown is then the fallback (the standard time, or 7), and the warning is the new stop's |
| `PushPull.PushPullGuide.ConfirmIsoChange` | client/src/components/PushPullGuide.tsx:403-409 | sets the confirmation and keeps the selections; the time shown is then the stop's time for the pair, or 7 without data |

## Left out

- The process timer and bath-temperature compensation: they live in `PushPullVisualizer.tsx`,
  which is not part of this model. In the guide, the temperature rule is only note text.
- Rendering: cards, selects, the "show more" toggle, animation and `handlePrint` (window/DOM
  output) are UI only.
- `server/routes.ts` is not part of this model. It covers HTTP routing, schema validation of
  request bodies, admin checks and the seed data.
- `sessionStore` and `memorystore` are a foreign library.
- Clocks: `new Date()` becomes a `now` parameter of the create and update methods.
- Concurrency: the async/Promise wrappers are modelled as synchronous calls; nothing runs
  concurrently.
- Floating point: minutes and ISO values are exact reals. Double rounding and NaN are not
  modelled, and ids are unbounded integers.
- The diary types: server/storage.ts uses `DiaryEntry`, `InsertDiaryEntry` and
  `UpdateDiaryEntry` without importing or defining them (server/storage.ts:1). The entry's
  fields come from the object `createDiaryEntry` builds, and the insert and update payloads are
  reduced to the `content` they supply.
- FilmsPage.GetPurchaseLink: the source looks the name up as a property of an object literal,
  so a name inherited from `Object.prototype` (such as `constructor`) finds a truthy value
  instead of falling back to `#`; the model's table is a plain map and does not model inherited
  property names.
- Map iteration order: the tables are Dafny maps, which have no order. The model takes ascending-key
  order for a JavaScript `Map`'s insertion order. The "Ids" point above argues why the two agree, but no
  ghost record of insertion order proves it.
- The interface's `getUserByUsername` and the routes rely on unique user names; the store does
  not enforce this, and neither does the model.
- Strings.ToLower: lower-cases ASCII letters only; Unicode case mapping is not modelled.
- Developer descriptions and the note texts are display strings; the model names the notes
  (`PushPull.Note`) instead of carrying their bilingual text.
