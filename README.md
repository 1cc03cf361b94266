# version-changer, modelled in Dafny

A model of the browser front end of version-changer. This is a small React
application for a Pterodactyl game-server panel. The user logs in with a
client API key and picks one of their servers. They then choose a server
software (Paper, Forge, Mohist, …) and one of its versions. The application
sends a pull request to the panel that tells the server to download that
version's `server.jar`.

The model has six modules. Each follows one source file, or the JavaScript
built-ins those files use:

- `Js` holds the JavaScript values and built-ins the components rely on: possibly-undefined
  strings, truthiness, `||`, `toLowerCase`, `includes`, `trim`, `length` in
  UTF-16 units, `filter`, and `${n}` for a non-negative integer.
- `Navigation` models `src/App.tsx`: the three screens, the shared session, the four
  handlers and the render selection, as the class `App`.
- `Login` models `src/components/LoginPage.tsx`: local validation of the key, the
  remote key check, and the form state as the class `LoginPage`.
- `Servers` models `src/components/ServerSelector.tsx`: extracting a server from each
  response entry, the search filter, and the fetch and search state as the
  class `ServerSelector`.
- `Catalog` models the static data of `src/components/VersionSelector.tsx`: the eight
  software entries, the download URLs, the search-and-category filter ordered
  by popularity, and the category counts.
- `Install` models `installVersion` and the per-version button rule of
  `src/components/VersionSelector.tsx`, as the class `VersionSelector`. The
  class has an explicit clock, a due-ordered queue of the `setTimeout`
  callbacks, the installs waiting for their pull answer, and a log of the pull
  requests sent.

An `async` handler is split at its `await` into two methods. The first does
the work up to the `await`. The second takes the outcome of the awaited call
(an HTTP status, or a thrown exception) as a parameter. Network calls are
therefore never made: their results are inputs.

Some behaviours of the code are worth stating up front:

- An install sends one pull request. An accepted pull is followed by two
  fixed delays: 30 s until the success message, then 5 s until the status is
  cleared. A rejected or failed pull is followed by a single 5 s delay. There
  is no extraction phase, no progress reporting and no key that identifies a
  run.
- Download URLs exist for the eight Mohist versions only. `installVersion`
  reports "Download URL not found" for a pair without a URL, but its only
  caller, the version button, is disabled for such pairs, so the application
  never shows this error (`EnabledOnlyWithUrl`).
- A clearing callback does not check which install it belongs to.
  `StaleClearScenario` shows a newer install being reset to idle by an older
  install's callback.
- A rejected pull's message carries the failure prefix twice. The `Error`
  thrown inside the `try` already starts with it, and the `catch` adds it again.

## Model

| member | source | states |
|---|---|---|
| Js.Truthy | src/components/ServerSelector.tsx:45-46 | JavaScript truthiness of a possibly-undefined string: defined and non-empty |
| Js.Or | src/components/ServerSelector.tsx:45-46 | `a || b` is truthy exactly when either operand is, and is the left operand when that one is truthy, otherwise the right operand |
| Js.Lower | src/components/ServerSelector.tsx:65-66 | `toLowerCase` keeps the length and maps each character by itself (ASCII letters to lower case) |
| Js.Includes | src/components/ServerSelector.tsx:65-66 | `includes` is true exactly when the term occurs at some offset of the string |
| Js.IncludesEmpty | src/components/VersionSelector.tsx:174-175 | every string includes the empty search term |
| Js.TrimStart | src/components/LoginPage.tsx:35 | the result is a suffix, everything dropped is whitespace, and the result does not start with whitespace |
| Js.TrimEnd | src/components/LoginPage.tsx:35 | the result is a prefix, everything dropped is whitespace, and the result does not end with whitespace |
| Js.Trim | src/components/LoginPage.tsx:35 | `trim()` is the trailing trim of the leading trim; its meaning is stated by `TrimShape` and `TrimEmptyIffBlank` |
| Js.TrimShape | src/components/LoginPage.tsx:35 | `trim()` is the contiguous part of the key between the whitespace around it, and neither begins nor ends with whitespace |
| Js.TrimEmptyIffBlank | src/components/LoginPage.tsx:35 | `trim()` gives the empty string exactly when every character is whitespace |
| Js.Utf16Length | src/components/LoginPage.tsx:37 | `length` lies between the number of characters and twice that, and equals it when every character is in the Basic Multilingual Plane |
| Js.CountWhere | src/components/VersionSelector.tsx:159-162 | the number of positions whose element satisfies the predicate, at most the length |
| Js.Filter | src/components/ServerSelector.tsx:64-67 | `filter` returns an ordered subsequence of elements satisfying the predicate, containing every satisfying element, and as long as the number of satisfying positions, so each kept element appears as often as in the input |
| Js.SubsequenceCount | src/components/ServerSelector.tsx:64-67 | a subsequence of satisfying elements is no longer than the number of satisfying positions |
| Js.FilterDetermined | src/components/ServerSelector.tsx:64-67 | the contract of `Filter` determines its result: any ordered subsequence of satisfying elements as long as the number of satisfying positions is the filtered list |
| Js.Decimal | src/components/VersionSelector.tsx:222 | `${status}` is a non-empty string of decimal digits without a leading zero |
| Js.DecimalRoundTrip | src/components/VersionSelector.tsx:222 | reading the rendered digits back gives the number |
| Navigation.Render | src/App.tsx:37-63 | login screen exactly when the state is login, there is no session, or the version state has no truthy server id; server list exactly in `server-select` with a session; version screen exactly in `version-select` with a truthy server id; the key, id and name passed on, with `Unknown Server` for a falsy name |
| Navigation.App.constructor | src/App.tsx:15-16 | the application starts in the login state without a session |
| Navigation.App.HandleLogin | src/App.tsx:18-21 | a new session holding only the key, and the server list is shown |
| Navigation.App.HandleServerSelect | src/App.tsx:23-26 | the id and name are recorded in an existing session, the key is kept, and there is still no session if there was none; the version screen is shown for a defined, non-empty id, with `Unknown Server` for a falsy name, and the login screen otherwise |
| Navigation.App.HandleLogout | src/App.tsx:28-31 | the session is dropped and the login screen is shown |
| Navigation.App.HandleBackToServerSelect | src/App.tsx:33-35 | the session is unchanged and the server list is shown |
| Navigation.NavigationScenario | src/App.tsx:14-63 | log in, pick a server, go back, pick it again, log out: the exact sequence of screens shown |
| Login.ValidateApiKey | src/components/LoginPage.tsx:14-30 | the key is valid exactly for a 2xx response; an exception means invalid |
| Login.KeyError | src/components/LoginPage.tsx:32-43 | "required" exactly for an all-whitespace key; "too short" exactly for a non-blank key under 10 UTF-16 units, counted before trimming; no error exactly for the rest |
| Login.PaddingCountsTowardsLength | src/components/LoginPage.tsx:35-38 | a letter padded to ten with spaces passes, the letter alone is too short, and ten spaces are blank |
| Login.LoginPage.constructor | src/components/LoginPage.tsx:9-12 | the form starts empty, not loading, without errors |
| Login.LoginPage.EditKey | src/components/LoginPage.tsx:106-108 | typing stores the key and clears a shown error; nothing else changes |
| Login.LoginPage.ValidateForm | src/components/LoginPage.tsx:32-43 | stores exactly `KeyError` of the key and reports whether it is none |
| Login.LoginPage.Submit | src/components/LoginPage.tsx:45-54 | an invalid form shows its error and starts no check; a valid one clears the error, sets loading and starts the check of the current key |
| Login.LoginPage.CheckResolved | src/components/LoginPage.tsx:54-63 | a passed check hands the submitted key on; a failed one shows the connection error; loading ends either way |
| Login.LoginScenario | src/components/LoginPage.tsx:32-63 | a whole attempt: checked exactly when the key passes local validation; the key is handed on exactly when the check also passes; otherwise the right error is shown |
| Servers.Extract | src/components/ServerSelector.tsx:44-47 | each field comes from `attributes` when it is truthy there, otherwise from the top level |
| Servers.ExtractServers | src/components/ServerSelector.tsx:43-47 | one server per response entry, in order; no `data` gives no servers |
| Servers.MatchesSearch | src/components/ServerSelector.tsx:65-66 | with both fields defined the test is the intended keep condition; it throws exactly when the name is undefined, or when the name does not match and the identifier is undefined; when it does not throw, it accepts exactly the servers the keep condition accepts |
| Servers.SearchFilter | src/components/ServerSelector.tsx:63-69 | defined exactly when the predicate does not throw on any server; then it is `Filter` of the servers with the accepted-by-the-predicate test, so the accepted servers in order, each as often as in the list |
| Servers.SearchFilterDefined | src/components/ServerSelector.tsx:64-67 | with both fields present, the search keeps exactly the servers whose lowercased name or identifier contains the lowercased term |
| Servers.EmptySearchKeepsAll | src/components/ServerSelector.tsx:63-69 | an empty search keeps every server whose name is defined |
| Servers.ServerSelector.constructor | src/components/ServerSelector.tsx:16-20 | the selector starts loading, with no servers, an empty search and no crash |
| Servers.ServerSelector.BeginFetch | src/components/ServerSelector.tsx:22-24 | loading is set and the error is cleared; the lists are kept |
| Servers.ServerSelector.FetchResolved | src/components/ServerSelector.tsx:36-56 | a parsed body replaces both lists with the extracted servers; a non-2xx response or an exception shows the load error and keeps the lists; loading ends either way |
| Servers.ServerSelector.SetSearchTerm | src/components/ServerSelector.tsx:18 | only the search term changes |
| Servers.ServerSelector.RunSearchEffect | src/components/ServerSelector.tsx:63-69 | the shown list becomes the search result; a throwing search is reported and crashes the application, with the list not updated |
| Servers.LoadScenario | src/components/ServerSelector.tsx:22-69 | after the load and the search effect: the application crashed exactly when a parsed body gives servers the search throws on; otherwise what is held, shown and reported for each kind of outcome |
| Catalog.DownloadUrl | src/components/VersionSelector.tsx:181 | `downloadUrls[serverType]?.[version]`: the URL stored under both keys, undefined when either is missing; which pairs have one is stated by `DownloadUrlAvailability` |
| Catalog.DownloadUrlAvailability | src/components/VersionSelector.tsx:143-155 | a URL exists exactly for Mohist and its eight versions, and every URL is truthy |
| Catalog.InstallableVersions | src/components/VersionSelector.tsx:27-155 | of every version the catalogue lists, exactly the Mohist ones have a download URL |
| Catalog.MatchesSearch | src/components/VersionSelector.tsx:174-175 | the search test: the lowercased name or description contains the lowercased term |
| Catalog.MatchesCategory | src/components/VersionSelector.tsx:176 | the category test: `all`, or the entry's own category |
| Catalog.InsertByPopularity | src/components/VersionSelector.tsx:178 | inserting into a list in descending popularity keeps it descending and adds exactly that entry |
| Catalog.SortByPopularity | src/components/VersionSelector.tsx:178 | the result is in descending popularity and a permutation of the input |
| Catalog.FilterAndSort | src/components/VersionSelector.tsx:173-178 | the shown list is in descending popularity, holds exactly the entries that match the search and the category, and is a permutation of the filtered list |
| Catalog.FilteredServers | src/components/VersionSelector.tsx:173-178 | the list shown for a term and a category is in descending popularity and holds exactly the catalogue entries that match both, each as often as in the catalogue |
| Catalog.CategoryCount | src/components/VersionSelector.tsx:157-163 | the count on a category button; its values are stated by `CategoryCounts` and its meaning by `CountIsListLength` |
| Catalog.CountIsListLengthIn | src/components/VersionSelector.tsx:157-163 | for any list of entries, a category's count is the length of the list shown for it with an empty search |
| Catalog.CountIsListLength | src/components/VersionSelector.tsx:157-178 | the number on each category button is the number of catalogue entries listed under it while the search is empty |
| Catalog.CategoryCounts | src/components/VersionSelector.tsx:157-163 | the counts are 8 (all), 3 (minecraft), 4 (modded), 1 (proxy) and 0 (other) |
| Catalog.CountOf | src/components/VersionSelector.tsx:159-162 | the count of one category, by category |
| Js.FilterKeepsAll | src/components/VersionSelector.tsx:158 | filtering with a predicate that always holds keeps the whole list |
| Catalog.DescendingUnique | src/components/VersionSelector.tsx:178 | two lists with the same entries, both in descending popularity, one strictly, are equal |
| Catalog.ShownOrderDetermined | src/components/VersionSelector.tsx:173-178 | any list holding the filtered entries in strictly descending popularity is the list shown |
| Install.Accepted | src/components/VersionSelector.tsx:208 | `response.ok`: the pull was answered with a 2xx status |
| Install.MissMessage | src/components/VersionSelector.tsx:185 | the not-found message for a software and a version |
| Install.InstallingMessage | src/components/VersionSelector.tsx:191 | the message shown while an install runs |
| Install.SuccessMessage | src/components/VersionSelector.tsx:212 | the message shown when the finishing callback fires |
| Install.CaughtMessage | src/components/VersionSelector.tsx:222-227 | the message the `catch` block sees: for a rejected response one that already starts with the failure prefix, for a thrown value its own message, if any |
| Install.FailureMessage | src/components/VersionSelector.tsx:221-227 | a failure message starts with the failure prefix, and for a rejected response with the prefix twice |
| Install.FailureMessageCarriesStatus | src/components/VersionSelector.tsx:222-227 | the digits after the doubled prefix denote the response status, followed by a space |
| Install.VersionKey | src/components/VersionSelector.tsx:189 | the key is the software id, a dash and the version |
| Install.VersionKeyInjective | src/components/VersionSelector.tsx:189 | for software ids without a dash, the key determines the software and the version |
| Install.CatalogueIdsHaveNoDash | src/components/VersionSelector.tsx:27-140 | no catalogue id contains a dash |
| Install.IsDisabled | src/components/VersionSelector.tsx:495-503 | a version's button is disabled exactly while an install is in progress or when it is not one of the eight Mohist versions |
| Install.EnabledOnlyWithUrl | src/components/VersionSelector.tsx:494-503 | a button is enabled exactly when no install runs and the version has a URL, so the not-found branch at lines 181-187 is never reached by a click |
| Install.IsInstalling | src/components/VersionSelector.tsx:495 | a row shows the spinner when its key is the version being installed; `OneSpinnerPerEntry` states that at most one row of an entry does |
| Install.OneSpinnerPerEntry | src/components/VersionSelector.tsx:495 | at most one version of a catalogue entry shows the spinner |
| Install.DueBy | src/components/VersionSelector.tsx:210-234 | the timers due no later than a time form a prefix of the queue, and in a sorted queue all later timers are due after it |
| Install.SortedInOrder | src/components/VersionSelector.tsx:210-234 | the queue's order from one timer to the next is the same as the order of every pair of timers |
| Install.Schedule | src/components/VersionSelector.tsx:210-234 | `setTimeout` keeps the queue in due order, makes it one longer, and holds exactly the pending timers and the new one; the multiplicities and the position are stated by `ScheduleMultiset` and `ScheduleFifo` |
| Install.ScheduleFifo | src/components/VersionSelector.tsx:210-234 | the new timer is spliced in at the position `DueBy` gives: after every pending timer due no later than it and before every timer due later, so among timers due at the same moment the one set first fires first |
| Install.ScheduleMultiset | src/components/VersionSelector.tsx:210-234 | every pending timer stays as often as it was pending, and the new one is added once |
| Install.InsertAtKeepsOrder | src/components/VersionSelector.tsx:210-234 | a timer placed between the earlier-or-equal and the later ones keeps the order |
| Install.ScheduleLatest | src/components/VersionSelector.tsx:216-219 | a timer due no earlier than all pending ones is queued last |
| Install.PopEarliest | src/components/VersionSelector.tsx:210-234 | firing the earliest timer leaves a queue in due order not due before it, and another pending finishing callback still pending |
| Install.ScheduleNotOverdue | src/components/VersionSelector.tsx:210-234 | setting a timer for later keeps the queue from being overdue |
| Install.ScheduleKeepsFinish | src/components/VersionSelector.tsx:210-220 | setting a timer keeps a pending finishing callback pending |
| Install.Resolution | src/components/VersionSelector.tsx:208-234 | an accepted pull sets the finishing callback 30 s ahead; any other answer sets the clearing callback 5 s ahead |
| Install.FireFinishKeepsInvariant | src/components/VersionSelector.tsx:210-220 | firing the finishing callback leaves a consistent state |
| Install.FireClearKeepsInvariant | src/components/VersionSelector.tsx:216-219 | firing a clearing callback leaves a consistent state |
| Install.VersionSelector.constructor | src/components/VersionSelector.tsx:169-171 | idle, no message, no version key, no timers, no requests |
| Install.VersionSelector.InstallVersion | src/components/VersionSelector.tsx:180-206 | without a URL: the error status and the not-found message, nothing sent; with one: the key, the installing status and message, one pull request for that URL into `/` as `server.jar` |
| Install.VersionSelector.ClickVersion | src/components/VersionSelector.tsx:497-503 | a click starts an install exactly when the button is enabled; a click on a disabled button changes nothing |
| Install.VersionSelector.PullResolved | src/components/VersionSelector.tsx:208-235 | an accepted pull changes nothing shown and queues the finishing callback; any other answer shows the failure message, clears the key and queues the clearing callback |
| Install.VersionSelector.FireTimer | src/components/VersionSelector.tsx:210-234 | the earliest callback fires at its due time, with the effect of its kind |
| Install.VersionSelector.FireFinish | src/components/VersionSelector.tsx:210-220 | the finishing callback shows the success message, clears the key and queues the clearing callback 5 s ahead |
| Install.VersionSelector.FireClear | src/components/VersionSelector.tsx:216-219 | a clearing callback resets the status and message and leaves the key as it is |
| Install.VersionSelector.Elapse | src/components/VersionSelector.tsx:210-234 | time passes without a callback falling due, and nothing else changes |
| Install.AnswerAndWait | src/components/VersionSelector.tsx:208-235 | an answered pull and the callbacks it sets off: the status shown after each |
| Install.InstallScenario | src/components/VersionSelector.tsx:180-236 | a whole install: the requests sent and every status shown, for a catalogue miss, an accepted pull and a rejected or failed one |
| Install.InstallAndFinish | src/components/VersionSelector.tsx:180-220 | an accepted install finishes 30 s later with only its clearing callback pending |
| Install.StaleClearScenario | src/components/VersionSelector.tsx:189-234 | an older install's clearing callback resets a newer install to idle while its pull is unanswered, and a third install can then start beside it |

## Left out

- The HTTP requests themselves are not modelled: the endpoints, the headers and the bearer token. A pull request is recorded by its body and by the server id that its URL contains. The outcomes of all requests are parameters.
- `console.error` logging is not modelled; it has no effect on state.
- Rendering is not modelled: JSX, CSS classes, icons, colours, the feature lists, the "Latest" and "Not Available" badges, and the show-key toggle. Only the decisions behind the rendering are modelled.
- The `selectedServer`, `searchTerm` and `selectedCategory` state of the version selector is a parameter, not a field. Setting it is a plain assignment with nothing to prove.
- `handleServerClick` is not modelled as a separate member. It forwards the identifier and name to `onServerSelect`, which is `HandleServerSelect`.
- React's batching of state updates, re-rendering and unmounting are not modelled. A callback that fires after the component is gone is modelled as if the component were still there.
- Servers.ServerSelector.RunSearchEffect: a search that throws is recorded as a crash of the selector. That React then unmounts the whole application, so that no screen at all is shown, is not modelled in `Navigation`.
- A list response that the extraction throws on is only represented by the `Threw` outcome. Examples are a `null` body, a truthy `data` that is not a list, and a `null` entry. These are caught like a network failure.
- Real timers are not modelled. `Elapse` only advances the clock up to, but not onto, the next due time. Timers are fired explicitly with `FireTimer`.
- Concurrency between the pending pull answers is left to the caller: `PullResolved` takes the index of the install being answered.
- Js.Lower: maps ASCII letters only. JavaScript's full Unicode case mapping is not modelled.
- Js.Utf16Length: counts a character above U+FFFF as two units. Lone surrogates cannot be stated in Dafny strings.
- Catalog.DownloadUrl: keys of `Object.prototype` (for example `constructor`) do not resolve to a value in the model. In JavaScript they would. The catalogue has no entry with such an id.
- Servers.MatchesSearch: the model throws only when a field is undefined. In JavaScript any non-string value would also throw, and the model's fields are strings or undefined.
- Catalog.FilteredServers: the concrete order of the full list (Paper, Forge, NeoForge, Fabric, Purpur, Velocity, Archlight, Mohist) is not proved as a literal. Comparing multisets of the eight-entry catalogue is beyond what the verifier does in reasonable time. `ShownOrderDetermined` states instead that any strictly descending arrangement of the filtered entries is the one shown. The popularities are distinct, so the order of the JavaScript sort does not depend on stability.
