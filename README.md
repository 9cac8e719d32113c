# anime-frontend, modelled in Dafny

anime-frontend is a React client for a personal anime catalogue. A signed-in
user sees the series they follow as a searchable, sorted and paginated grid of
cards. They can open a series' detail page with its state badge, genres and
trailer, and add or edit a series together with their own viewing record,
which the application calls a *nexo*. The routing layer wraps each page in
one of two guards: one that requires authentication and one that is open
only to visitors who are not signed in. A session context keeps the
signed-in user in browser storage, and a theme context keeps the light or
dark theme.

This project models that client's core, one Dafny module per source file,
plus a few modules for the JavaScript behaviour the code relies on:

* `Wrappers`: the `Option` and `Result` types.
* `JsText`: `includes`, `split(sep)[0]`, the text after the first
  separator (of which `split(sep)[1]` is the part before the next
  separator), `replace` of the first match, `toLowerCase`, and truthiness of
  a possibly absent string.
* `JsNumber`: `Number()`, `parseInt` and `String()` on decimal integers,
  with `NaN` as a value.
* `JsArray`: `find`, `filter` and `slice` with its clamping of bounds.
* `Records`: the series and nexo records and the row that joins them.
* `Storage`: `localStorage`, one object shared by both providers, holding
  a map from the keys the application uses.
* `UserJson`: `JSON.stringify` and `JSON.parse` of the stored user.
* `SerieForm`: the form that the add and edit pages share.
* `App`: the theme provider around the session provider, over that one
  storage.

Code that changes state step by step is modelled as classes with
`modifies` frames:

* the listing page's state, `Listing.ListingPage`;
* the browser storage both providers share, `Storage.LocalStorage`;
* the session, `Auth.AuthProvider`, whose failed mount is kept as an error;
* the theme, `Theme.ThemeProvider`;
* the video modal, `VideoModal.Modal`;
* the add and edit pages, `AddSerie.AddSeriePage` and
  `EditSerie.EditSeriePage`.

Each page class logs the requests it sends as values. Server replies, the
clock (`now`), the stored id and the system colour preference are
parameters. The `forEach` that builds the listing's nexo lookup is a loop
method proved equal to its specification function. Everything else is
pure functions and lemmas.

## Model

| member | source | states |
|---|---|---|
| JsText.IndexOf | src/components/VideoModal.tsx:16 | the first position where the pattern occurs, and None exactly when it occurs nowhere |
| JsText.ContainsIff | src/components/VideoModal.tsx:16 | `includes` holds exactly when the pattern occurs at some position |
| JsText.Before | src/components/VideoModal.tsx:23 | `split(sep)[0]` is the text up to the first occurrence of the separator, or the whole text when it has none; so it never contains the separator |
| JsText.After | src/components/VideoModal.tsx:23 | the text after the first separator, which with the text before it and the separator rebuilds the text; `split(sep)[1]` is its part before the next separator |
| JsText.ReplaceFirst | src/pages/Serie.tsx:101 | `replace` with a string pattern leaves a text without the pattern unchanged, and otherwise substitutes only the first occurrence |
| JsText.Lower | src/pages/Series.tsx:74 | `toLowerCase` keeps the length and lowers each character |
| JsNumber.ToNumberRoundTrip | src/pages/Series.tsx:19-22 | `Number(String(i))` gives back the integer `i` |
| JsNumber.ParseIntRoundTrip | src/contexts/AuthContext.tsx:24 | `parseInt(String(i))` gives back the integer `i` |
| JsNumber.ParseNegative | src/contexts/AuthContext.tsx:24 | `parseInt` of a minus sign and digits is the negated value |
| JsNumber.ParseNonNegative | src/contexts/AuthContext.tsx:24 | `parseInt` of a digit string is its decimal value |
| JsNumber.ReadsDigits | src/contexts/AuthContext.tsx:24 | `parseInt` reads the leading digits of a non-empty digit run with the sign in front |
| JsNumber.NatToStringRoundTrip | src/contexts/AuthContext.tsx:47 | the decimal digits `String()` writes read back as the same number |
| JsArray.FindIndex | src/pages/Serie.tsx:54-58 | the index `find` stops at satisfies the predicate, no earlier element does, and None means no element does |
| JsArray.Find | src/pages/Serie.tsx:54-58 | `find` gives a value exactly when some element satisfies the predicate, and then the first such element |
| JsArray.Filter | src/pages/Serie.tsx:183 | `filter` keeps exactly the elements that satisfy the predicate and is no longer than its input |
| JsArray.FilterAppend | src/pages/Series.tsx:71-85 | filtering a concatenation filters each part, in order |
| JsArray.FilterKeepsAll | src/pages/Serie.tsx:183 | when every element satisfies the predicate, `filter` returns the list unchanged |
| JsArray.ClampIndex | src/pages/Series.tsx:175 | a `slice` bound inside the list is kept, one past the end becomes the length, and a negative one counts from the end, stopping at 0 |
| JsArray.Slice | src/pages/Series.tsx:175 | `slice(start, end)` is the list's window from `start` up to `end` or the end of the list, empty once `start` is past the end or `end` is not after `start`, never longer than `end - start` |
| Records.Merge | src/pages/Series.tsx:83 | `{...nexo, ...serie}`: the series fields come from the series (they override the nexo's), and the nexo contributes its series id, user id, state, seen and stars |
| Records.MergeDetermined | src/pages/Series.tsx:83 | any row with those fields is the merge of that nexo and series |
| Records.CoverUrl | src/components/Card.tsx:55-61 | no `img2` gives `img`, an `img2` containing "http" gives `img2` itself, and any other `img2` gives it under the uploads base |
| Records.CoverUrlIsAbsolute | src/pages/Serie.tsx:177-181 | with an `img2` and an http base, the cover is always an http address |
| Storage.Get | src/contexts/AuthContext.tsx:22 | `getItem` gives a value exactly for a stored key, and then the stored text |
| Listing.StateRank | src/pages/Series.tsx:57-61 | a known state ranks in 0..2; the table is the definition, and Listing.RankTables states its order |
| Listing.SeasonRank | src/pages/Series.tsx:51-56 | a season ranks in 0..3; the table is the definition, and Listing.RankTables states its order |
| Listing.RankTables | src/pages/Series.tsx:51-61 | 'En emision' sorts before 'Finalizado', which sorts before 'Completado'; the seasons run Invierno, Primavera, Verano, Otoño; an unknown season ranks with Invierno (`?? 0`) |
| Listing.BuildNexoMap | src/pages/Series.tsx:64-69 | the `forEach` loop leaves exactly the lookup `NexoMapOf` defines |
| Listing.NexoMapLastWins | src/pages/Series.tsx:64-69 | a series id is in the lookup exactly when one of the user's nexos points at it, and its value is the last such nexo in list order |
| Listing.NexoMapOwned | src/pages/Series.tsx:66-67 | every value in the lookup is one of the user's nexos, filed under its own series id |
| Listing.SearchFilter | src/pages/Series.tsx:72-76 | an empty search keeps every series, and a series is kept exactly when its lower-cased name contains the lower-cased search |
| Listing.JoinRows | src/pages/Series.tsx:77-85 | each row merges a series with its nexo from the lookup, a series whose id is in the lookup is always joined, and series without a nexo are dropped |
| Listing.Compare | src/pages/Series.tsx:86-97 | the comparator returns 0 exactly when the two rows agree on state rank, year and season rank |
| Listing.JoinRowsAppend | src/pages/Series.tsx:77-85 | the join keeps the series list's order: joining a concatenation joins each part, in order |
| Listing.CompareOrder | src/pages/Series.tsx:86-97 | the comparator puts a row first when its state ranks lower, or else its year is later, or else its season ranks higher; it returns 0 exactly on equal sort keys and is antisymmetric |
| Listing.CompareTransitive | src/pages/Series.tsx:86-97 | the comparator is transitive, so it is a valid sort order |
| Listing.Insert | src/pages/Series.tsx:86 | inserting one row adds exactly that row to the multiset |
| Listing.SortRows | src/pages/Series.tsx:86 | `sort` returns a permutation of its input |
| Listing.InsertSorted | src/pages/Series.tsx:86 | inserting into a sorted list keeps it sorted |
| Listing.SortRowsSorted | src/pages/Series.tsx:86-97 | the sorted rows are in comparator order |
| Listing.InsertTies | src/pages/Series.tsx:86 | inserting a row puts it ahead of every row it ties with |
| Listing.SortRowsStable | src/pages/Series.tsx:86-97 | `sort` is stable: rows with equal keys keep their input order |
| Listing.JoinedKnown | src/pages/Series.tsx:88 | when the user's nexos carry known states, so does every joined row |
| Listing.FilteredData | src/pages/Series.tsx:48-98 | no series or no nexos gives no rows, and the listing is never longer than the series list |
| Listing.ListingSorted | src/pages/Series.tsx:86-97 | the listing is in comparator order |
| Listing.ListingMembers | src/pages/Series.tsx:48-98 | a row is listed exactly when it merges a series that matches the search with the user's nexo for that series, and that nexo belongs to the current user |
| Listing.ListingStable | src/pages/Series.tsx:71-97 | rows that tie on the comparator appear in the order of the series list |
| Listing.PageRows | src/pages/Series.tsx:174-175 | a page never holds more than 24 rows |
| Listing.PageCount | src/pages/Series.tsx:184 | `Math.ceil(n / 24)`: the fewest pages of 24 that cover `n` rows |
| Listing.ShowPagerIffSeveralPages | src/pages/Series.tsx:182 | the pager shows exactly when there is more than one page |
| Listing.PageWindow | src/pages/Series.tsx:175 | page `p` holds the rows from `(p-1)*24` up to 24 further, or none once past the end |
| Listing.FirstPagesPrefix | src/pages/Series.tsx:174-184 | the first `k` pages, concatenated, are the first `min(24k, n)` rows |
| Listing.PagesCoverListing | src/pages/Series.tsx:174-184 | all the pager's pages, concatenated, are the whole listing, in order |
| Listing.RowOnItsPage | src/pages/Series.tsx:174-184 | row `i` appears on page `i/24+1`, at position `i%24`, and that page is one the pager offers |
| Listing.HeaderCountAsWritten | src/pages/Series.tsx:116 | the header's `(length > 0) \|\| 0` renders nothing exactly when there are rows |
| Listing.HeaderCountAsWrittenHidesTotal | src/pages/Series.tsx:116 | for a non-empty listing, the header does not show the row count |
| Listing.HeaderCount | src/pages/Series.tsx:116 | the corrected header shows text that reads back as the row count |
| Listing.ListingPage.constructor | src/pages/Series.tsx:10-15 | empty lists, loading, no search, user 1, page 1 |
| Listing.ListingPage.ReadStoredId | src/pages/Series.tsx:19-22 | a truthy stored id becomes `Number(id)`, otherwise the user id is kept |
| Listing.ListingPage.Loaded | src/pages/Series.tsx:25-38 | a successful fetch stores both lists, a failed one keeps them, and loading ends either way |
| Listing.ListingPage.OnSearchInput | src/pages/Series.tsx:131-134 | typing sets the search and returns to page 1 |
| Listing.ListingPage.OnClearSearch | src/pages/Series.tsx:139 | the clear button empties the search |
| Listing.ListingPage.OnPageChange | src/pages/Series.tsx:184 | the pager sets the page |
| Listing.ListingPage.Visible | src/pages/Series.tsx:174-178 | the cards shown are at most 24 rows, all of them from the listing |
| Guards.ProtectedRoute | src/components/ProtectedRoute.tsx:9-18 | renders its children exactly when authenticated, and otherwise redirects to `/login`, replacing the history entry |
| Guards.PublicRoute | src/components/PublicRoute.tsx:10-18 | renders its children exactly when not authenticated, and otherwise redirects to `redirectTo` (default `/series`), replacing the history entry |
| Guards.GuardsComplementary | src/components/PublicRoute.tsx:10-18 | for any visitor, exactly one of the two guards renders |
| RouteBuilder.Wrap | src/utils/routeBuilder.tsx:26-46 | a protected route's element gets the protected guard, a public-only one gets the public guard, and any other element is left bare; `protected` wins over `publicOnly` |
| RouteBuilder.BuildRoute | src/utils/routeBuilder.tsx:13-48 | a route object keeps its route's path and title, wraps the element by the route's own flags, is a parent exactly when the route has children, and has as many children |
| RouteBuilder.BuildRoutes | src/utils/routeBuilder.tsx:13-14 | `map` builds one route object per route, in order |
| RouteBuilder.BuildRouteMirrors | src/utils/routeBuilder.tsx:13-48 | the built tree has the configured tree's shape at every depth, with each path and title kept and each element wrapped by its own route's flags |
| RouteBuilder.MirroredAccess | src/utils/routeBuilder.tsx:26-46 | a built element sends unauthenticated visitors of protected routes to `/login`, sends authenticated users of public-only routes to `/series`, and renders otherwise |
| RouteBuilder.BuiltAccess | src/utils/routeBuilder.tsx:26-46 | the same access rule for the element built from any route |
| RouteTable.AppRoutes | src/config/routes.tsx:32-87 | a single top-level route with seven children, each a titled leaf, none flagged both protected and public-only |
| RouteTable.Pages | src/config/routes.tsx:36-85 | the layout has seven child pages, each a titled leaf, none flagged both protected and public-only |
| RouteTable.LayoutIsTheRoot | src/config/routes.tsx:32-87 | one top-level route: the layout at `/`, with no flags or title, whose children are the pages |
| RouteTable.OnlyLoginIsPublicOnly | src/config/routes.tsx:45-50 | the login page is the only public-only page |
| RouteTable.ProtectedPages | src/config/routes.tsx:55-84 | the protected pages are exactly the dashboard and the four series pages; the home page has no flag |
| RouteTable.PageFlags | src/config/routes.tsx:40-84 | the home and login pages at positions 0 and 1; every later page is protected |
| RouteTable.BuiltPages | src/config/routes.tsx:32-87 | the built children mirror the configured pages one for one |
| RouteTable.AccessTable | src/config/routes.tsx:32-87 | a visitor who is not signed in can open home and login and is sent to `/login` from every other page; a signed-in user opens every page except login, which sends them to `/series` |
| UserJson.ReadEscape | src/contexts/AuthContext.tsx:25 | reading back an escaped string and its closing quote gives the string and leaves the rest |
| UserJson.EncodeUser | src/contexts/AuthContext.tsx:60 | the stored text opens with the `id` key and ends with the closing brace |
| UserJson.DecodeUser | src/contexts/AuthContext.tsx:25 | only text that opens with the `id` key is read as a user |
| UserJson.DecodeEncodeUser | src/contexts/AuthContext.tsx:25 | `JSON.parse(JSON.stringify(user))` gives back the same user, with or without a picture |
| Auth.InitialUser | src/contexts/AuthContext.tsx:20-27 | no stored user, or an expiry not after `now`, gives no user; a user is given only from a live session, and it is the decoded stored text; in a live session, readable text gives that user and unreadable text an error |
| Auth.SessionUser | src/contexts/AuthContext.tsx:52-57 | the signed-in user has id "1", the given email, the demo name, and the reply's picture when truthy or else the default avatar |
| Auth.StorageText | src/contexts/AuthContext.tsx:49 | `setItem` stores a text field as is, `null` as "null" and a missing field as "undefined" |
| Auth.SessionStore | src/contexts/AuthContext.tsx:45-60 | after login, storage holds the reply's id, name, picture, token, the expiry `now + maxAge` and the encoded user; it adds exactly those keys and keeps the saved theme |
| Auth.LiveUntil | src/contexts/AuthContext.tsx:22-24 | with a user stored, the session is live exactly before the expiry stored with `String()` |
| Auth.ReloadAfterLogin | src/contexts/AuthContext.tsx:20-60 | a reload after login restores exactly the signed-in user while `now` is before the stored expiry, and nobody afterwards |
| Auth.StoredIdAfterLogin | src/contexts/AuthContext.tsx:45 | the id the listing reads back after login is the reply's id |
| Auth.NoExpiryNoUser | src/contexts/AuthContext.tsx:23-24 | with no stored expiry, the `'0'` default means nobody is signed in |
| Auth.ReloadAfterLogout | src/contexts/AuthContext.tsx:70-71 | after a logout, a reload finds nobody signed in |
| Auth.AuthProvider.constructor | src/contexts/AuthContext.tsx:19-27 | mounting reads the initial user from storage; when the stored user cannot be parsed the error is kept as the mount error and nobody is signed in; the user held agrees with storage |
| Auth.AuthProvider.IsAuthenticated | src/contexts/AuthContext.tsx:85 | `isAuthenticated` holds exactly when a user is signed in |
| Auth.AuthProvider.Login | src/contexts/AuthContext.tsx:29-61 | a rejected reply fails with 'Credenciales Invalidas' and a call that throws (failed request, unreadable body, no `user`) fails with its own error, both changing nothing; an accepted one signs in the session user and writes the session keys, so the user held is the one stored; the mount error is kept either way |
| Auth.AuthProvider.Logout | src/contexts/AuthContext.tsx:63-78 | storage is cleared and the user signed out whether the call succeeds or fails; the body is returned, or the error rethrown; the mount error is kept |
| App.LogoutForgetsTheme | src/contexts/AuthContext.tsx:70-76 | a logout's `clear()` also removes the stored theme: the screen keeps its theme, but the next reload follows the system preference |
| App.LoginKeepsTheme | src/contexts/AuthContext.tsx:47-60 | a login writes only session keys, so the stored theme still matches the one shown |
| Auth.UseAuth | src/contexts/AuthContext.tsx:95-100 | the context inside a provider, and the error 'useAuth debe ser usado dentro de un AuthProvider' outside one |
| Theme.InitialTheme | src/contexts/ThemeContext.tsx:13-23 | a truthy saved theme is used as is, and otherwise the system preference decides |
| Theme.Toggle | src/contexts/ThemeContext.tsx:41-43 | toggling gives dark exactly from light, and light from anything else |
| Theme.ToggleTwice | src/contexts/ThemeContext.tsx:41-43 | toggling twice restores light or dark |
| Theme.ApplyClasses | src/contexts/ThemeContext.tsx:29-35 | the root gets the theme's class and loses the other, and every other class is untouched |
| Storage.LocalStorage.constructor | src/main.tsx:15-16 | the storage both providers share starts with what was saved |
| Theme.ThemeProvider.constructor | src/contexts/ThemeContext.tsx:13-39 | mounting picks the initial theme, applies its class and saves it in the shared storage |
| Theme.ThemeProvider.ApplyTheme | src/contexts/ThemeContext.tsx:25-39 | the effect applies the theme's class and saves the theme |
| Theme.ThemeProvider.ToggleTheme | src/contexts/ThemeContext.tsx:41-43 | toggling switches the theme, and the effect re-applies and saves it |
| Theme.ReloadKeepsTheme | src/contexts/ThemeContext.tsx:13-38 | a reload restores the saved theme, whatever the system preference |
| Theme.UseTheme | src/contexts/ThemeContext.tsx:52-58 | the context inside a provider, and the error outside one |
| VideoModal.IsYouTube | src/components/VideoModal.tsx:15-17 | a link counts as YouTube exactly when 'youtube.com' or 'youtu.be' occurs in it at some position |
| VideoModal.EmbedUrl | src/components/VideoModal.tsx:20-31 | a `v=` link becomes the embed prefix and the id after `v=`, cut at `&`; a `youtu.be/` link becomes the prefix and the id cut at `?`; any other URL is unchanged |
| VideoModal.WatchIdIsMaximal | src/components/VideoModal.tsx:23 | the extracted id is the longest prefix after `v=` that holds neither `&` nor another `v=` |
| VideoModal.CutIsMaximal | src/components/VideoModal.tsx:23-25 | cutting at one separator and then another keeps the longest piece free of both |
| VideoModal.YoutuIdIsMaximal | src/components/VideoModal.tsx:25 | the extracted id is the longest prefix after `youtu.be/` that holds neither `?` nor another `youtu.be/` |
| VideoModal.RewrittenIsYouTube | src/components/VideoModal.tsx:15-25 | every rewritten link is recognised as YouTube |
| VideoModal.Modal.constructor | src/components/VideoModal.tsx:9 | the modal starts closed |
| VideoModal.Modal.HandleOpen | src/components/VideoModal.tsx:12 | opening shows the modal |
| VideoModal.Modal.HandleClose | src/components/VideoModal.tsx:11 | closing hides it |
| SerieDetail.FilteredNexo | src/pages/Serie.tsx:49-59 | not ready without nexos, a route id or a stored id; otherwise the first nexo whose series and user ids match as numbers, or not found when none does |
| SerieDetail.StateInfo | src/pages/Serie.tsx:163-174 | the badge colour, text and icon of each known state, and a grey badge showing the state itself otherwise |
| SerieDetail.ShownState | src/pages/Serie.tsx:176 | the found nexo's state, or the empty string |
| SerieDetail.NoNexoBadge | src/pages/Serie.tsx:176 | without a nexo, the badge is grey with no text |
| SerieDetail.BadgeText | src/pages/Serie.tsx:163-174 | the badge shows the state, with 'En emision' spelled 'En emisión' |
| SerieDetail.ImageUrl | src/pages/Serie.tsx:177-181 | no `img2` gives `img`, an http `img2` gives itself, and any other `img2` gives it under `<api>/api/Portadas/` |
| SerieDetail.Genres | src/pages/Serie.tsx:183 | the truthy ones among genre, genre2 and genre3, in that order, so at most three, none empty, and led by the main genre when it is set |
| SerieDetail.GenresInOrder | src/pages/Serie.tsx:183 | with all three genres set, they appear as genre, genre2, genre3 |
| SerieDetail.TrailerUrl | src/pages/Serie.tsx:101 | a link without '-nocookie' is kept, and one with it loses exactly its first '-nocookie', the text on both sides kept |
| Card.StateColorAsWritten | src/components/Card.tsx:15-41 | the card's colours as written, with the airing text as the bytes in the source |
| Card.AsWrittenAiringTextDiffers | src/components/Card.tsx:21 | the airing text as written differs from the detail page's 'En emisión' |
| Card.StateColorOf | src/components/Card.tsx:15-41 | each known state's background and glow colours, grey otherwise, and the same text the detail page's badge shows |
| Card.CardMatchesBadge | src/components/Card.tsx:15-41 | the card's background colour is the detail badge's colour for every state |
| Card.ImageSrc | src/components/Card.tsx:55-61 | no `img2` gives `img`, an http `img2` gives itself, and any other `img2` gives it under the uploads address |
| Card.UploadedCoverIsHttp | src/components/Card.tsx:55-61 | whenever the card has an `img2`, its picture is an http address |
| Card.ClickTarget | src/components/Card.tsx:10-12 | a click opens `/series/` followed by the id |
| Card.ClickTargetCarriesId | src/components/Card.tsx:10-12 | the detail page reads back the card's id from that path, so it finds the nexo the card showed |
| SerieForm.Coerce | src/pages/EditSerie.tsx:115-118 | the four numeric fields take `Number(value)`, and the others the raw text |
| SerieForm.Change | src/pages/EditSerie.tsx:111-120 | `handleChange` sets exactly the named field to its coerced value and leaves every other field unchanged |
| SerieForm.ChangeNumber | src/pages/EditSerie.tsx:118 | a numeric field set from an integer's text holds that integer |
| SerieForm.Initial | src/pages/EditSerie.tsx:41-56 | the initial form: 12 episodes, the current year, Invierno, En emision, nothing seen, no stars, empty texts |
| SerieForm.SplitJoin | src/pages/EditSerie.tsx:131 | `const { state, seen, stars, ...serieData }` splits the form into two parts that rebuild it, and each part is recovered from a rebuilt form |
| SerieForm.ChangeTouchesOnePart | src/pages/EditSerie.tsx:131 | editing a nexo field leaves the series data unchanged, and editing a series field leaves the nexo data unchanged |
| SerieForm.YearChoices | src/pages/EditSerie.tsx:28 | 30 years counting down from the current one |
| SerieForm.ErrorText | src/pages/EditSerie.tsx:150 | an Error's message, or 'Error desconocido' for anything else thrown |
| SerieForm.SeriesFirstAppend | src/pages/EditSerie.tsx:133-143 | appending one submission's requests keeps every nexo request right after its series request |
| EditSerie.UserIdText | src/pages/EditSerie.tsx:71 | the signed-in user's id when truthy, and otherwise the stored id |
| EditSerie.UserNexo | src/pages/EditSerie.tsx:72-76 | a nexo is found exactly when one matches the series and the user, and the one found is the first that matches |
| EditSerie.FormFor | src/pages/EditSerie.tsx:83-99 | the series part copies the series (missing texts as ''), and the nexo part is the nexo's fields with falsy values replaced by 'En emision', 0 and 0, or those defaults without a nexo |
| EditSerie.LoadedPayload | src/pages/EditSerie.tsx:83-99 | with every optional text present, the loaded form's series part is the series' own data |
| EditSerie.EditSeriePage.constructor | src/pages/EditSerie.tsx:35-56 | the initial form, loading, no error or success, no nexo id, nothing sent |
| EditSerie.EditSeriePage.Load | src/pages/EditSerie.tsx:58-109 | without a route id nothing changes; otherwise the user's nexo id is kept, the form is loaded or the error set, and loading ends |
| EditSerie.EditSeriePage.HandleChange | src/pages/EditSerie.tsx:111-120 | the form after the change |
| EditSerie.EditSeriePage.HandleSubmit | src/pages/EditSerie.tsx:122-154 | without a route id nothing happens; otherwise the series update with `status: 1` is sent first, the nexo update only after it succeeds and only with a non-zero nexo id, success or the error's text is set, and submitting ends |
| AddSerie.NexoOwner | src/pages/AddSerie.tsx:81 | the new nexo's user is `Number(user.id)` when the id is truthy, and 1 otherwise |
| AddSerie.NewNexosBelongToUserOne | src/pages/AddSerie.tsx:81 | since login always signs in the user with id "1", every new nexo belongs to user 1 |
| AddSerie.AddSeriePage.constructor | src/pages/AddSerie.tsx:33-53 | the initial form, not loading, no error or success, nothing sent |
| AddSerie.AddSeriePage.HandleChange | src/pages/AddSerie.tsx:55-64 | the form after the change |
| AddSerie.AddSeriePage.HandleSubmit | src/pages/AddSerie.tsx:66-96 | the series is created first; its nexo is created for the new series' id only when that succeeds; success or the error's text is set, and loading ends |

## Left out

- Network calls, `fetch` and the services: each reply is a parameter, and each request is logged as a value.
- `Promise.all`, effect cancellation, `AbortController` and the `setTimeout` redirects after a save.
- The intermediate `loading = true` and `submitting = true` states: a method runs to completion, so they are not observable.
- JsText.Lower: `toLowerCase` lowers ASCII letters only. There is no Unicode case mapping.
- `Number()` reads decimal integers only: a fraction, an exponent or a hexadecimal literal gives NaN here, and `Infinity` is not a value.
- `parseInt` reads the leading decimal digits and stops at the first other character, so "1.5" and "1e3" give 1; it does not read a `0x` prefix, so "0x10" gives 0 where JavaScript gives 16.
- JsNumber.IsSpace: the whitespace trimmed before reading a number is space, tab, line feed and carriage return only; vertical tab, form feed, no-break space, U+FEFF, U+2028 and U+2029, which JavaScript also trims, are not.
- `JSON.parse` reads only the shape `JSON.stringify` writes for the session user. Control-character escapes are not modelled, and any other text counts as a parse error.
- Server ids, years and counts are integers. `max_age` is a number, so `Date.now() + maxAge` is numeric addition, not string concatenation.
- Listing.FilteredData: requires the user's nexos to carry one of the three known states. For an unknown state the comparator returns NaN, and the order is then unspecified.
- Input names outside the form's fourteen fields are not modelled in `handleChange`.
- The detail page's synopsis and video fetches are left out. They call an external API; only the trailer URL rewrite is modelled.
- Presentation is not modelled: the Dashboard statistics, Home, Navbar, Login form, Modal and Pagination markup.
- The card and the detail page use different upload paths, `http://localhost:4000/Portadas/` and `<api>/api/Portadas/`. Both are modelled as written.

## Findings

| source | as written | input that shows it | evidently intended | confidence | as-written member | corrected member |
|---|---|---|---|---|---|---|
| src/pages/Series.tsx:116 | the header renders `(filteredData.length > 0) \|\| 0`, which is `true` (rendered as nothing) for a non-empty listing and `0` for an empty one | a listing of 3 rows shows "• series" with no number | show the number of rows, `filteredData.length` | not executed | Listing.HeaderCountAsWritten, Listing.HeaderCountAsWrittenHidesTotal | Listing.HeaderCount |
| src/components/Card.tsx:21 | the airing state's text is 'En emisi√≥n', the UTF-8 bytes of 'ó' read as Mac Roman | a card for a series in state 'En emision' | 'En emisión', as the detail page's badge shows | not executed | Card.StateColorAsWritten, Card.AsWrittenAiringTextDiffers | Card.StateColorOf |
