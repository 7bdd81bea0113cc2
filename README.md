# BookSwap Campus — a verified model of its page logic

BookSwap Campus is a React marketplace where students list, search, swap
and share textbooks. This project models the logic behind its screens and
proves what each screen promises. The JSX, the styling and the backend are
not modelled. Each source file is a Dafny module:

- **SearchBooks** (`search_books.dfy`) is the listing search. The filter
  chain is modelled as a conjunction of optional tests: a case-insensitive
  term search over title, author and course code, plus exact category,
  condition and listing-type filters. The module also holds the price label,
  the listing-type colour and the condition label.
- **InventoryAlerts** (`inventory_alerts.dfy`) is the list of saved-search
  alerts. It covers create, toggle, delete and "simulate a match", and the
  "active" and "total matches" figures.
- **DigitalBookUpload** (`digital_book_upload.dfy`) is the shared-file
  library. It covers the file check (type first, then the 50 MiB limit), the
  upload gate, the simulated progress interval, the completed upload and
  the download counters.
- **AddBook** (`add_book.dfy`) is the "list a book" form. It covers the
  field-by-field record, the five-photo buffer (append, then truncate;
  remove by index), the submit-enabled rule and the simulated save.
- **Categories** (`categories.dfy`) is the category browser. It covers the
  search over the fixed eight-entry table, the "first three badges + N more"
  rule and the empty-state panel.
- **MapView** (`map_view.dfy`) is the map screen. It covers:
  - the access-token gate;
  - the geolocation result with its New York fallback;
  - the guard that builds the map at most once;
  - the radius filter over the distances sampled for each listing;
  - the marker list, which is cleared and then refilled one marker per
    nearby listing, each with its popup's title, author, condition, price
    label and location.
- **Index** (`index.dfy`) is the app shell. It restores the session from
  local storage, handles sign-in and sign-out, and routes a page name to its
  view.
- **LoginForm** (`login_form.dfy`) is the sign-in form. The simulated login
  writes the session only when both fields are filled.

There are also four helper modules:

- **Storage** is `localStorage`: a string map with get, set and remove.
- **Text** holds ASCII `toLowerCase`, `includes`, and `trim` over
  ECMAScript's whitespace set. It also renders and parses decimals.
- **Seqs** holds `Array.prototype.filter` and the subsequence relation.
- **Optional** holds an option type.

Modelling choices:

- **Handlers become methods.** State that a handler replaces is a field of a
  class, and each handler is a method on that class.
- **Callbacks become step methods.** Timer callbacks and asynchronous
  completions are separate methods, for example `Submit` followed later by
  `CompleteSubmit`, or `SubmitToken` followed, if the device answers, by
  `GetUserLocation`.
- **Outside inputs become parameters.** Clock values (`Date.now()` ids,
  ISO dates), random distances and geolocation results are passed in.
- **Listing types follow the code.** Colour-coding by type applies to sell,
  exchange and free listings alike. In the code, markers for sell and for
  unknown types share the amber colour; the model follows the code.
- **One price formatter.** `formatPrice` appears twice in the source, in
  `src/pages/SearchBooks.tsx:139-143` and `src/components/MapView.tsx:358-362`.
  The two copies are identical, so it is modelled once as
  `SearchBooks.FormatPrice`, and the map markers use it.

## Model

| member | source | states |
|---|---|---|
| SearchBooks.ResultsAreSubsequence | src/pages/SearchBooks.tsx:95-119 | the listings shown are the loaded listings with some dropped, none added and none reordered |
| SearchBooks.ResultsMembership | src/pages/SearchBooks.tsx:98-116 | a listing is shown iff it was loaded and it passes each filter that is set (term, category, condition, listing type) |
| SearchBooks.NoCriteriaShowsAll | src/pages/SearchBooks.tsx:95-119 | with no filter set, every loaded listing is shown, in order |
| SearchBooks.AddingFiltersNarrowsResults | src/pages/SearchBooks.tsx:106-116 | setting more filters yields an order-preserving subsequence of the earlier results |
| SearchBooks.SearchIgnoresCase | src/pages/SearchBooks.tsx:99-103 | two terms with the same lower-case form show the same results |
| SearchBooks.MissingCourseCodeMatchesByTitleOrAuthor | src/pages/SearchBooks.tsx:102 | a listing with no course code matches the term only through its title or author |
| SearchBooks.FreeAndExchangeIgnorePrice | src/pages/SearchBooks.tsx:139-141 | free and exchange listings show "Free" and "Exchange" whatever their price |
| SearchBooks.ContactForPriceIffNoPrice | src/pages/SearchBooks.tsx:142 | for any other type, "Contact for price" is shown iff the price is missing or zero; otherwise the label starts with "$" |
| SearchBooks.PriceLabelDeterminesPrice | src/pages/SearchBooks.tsx:142 | two priced listings with the same label have the same price, so the label loses nothing |
| SearchBooks.ListingTypeColorsDistinct | src/pages/SearchBooks.tsx:130-137 | sell, exchange and free get three distinct colour classes; every other type gets the grey one |
| SearchBooks.IndexOf | src/pages/SearchBooks.tsx:289 | the position of the first occurrence of a character, or the length when it does not occur |
| SearchBooks.ReplaceFirstAt | src/pages/SearchBooks.tsx:289 | `replace` with a one-character pattern changes only the first occurrence |
| SearchBooks.ConditionLabelShape | src/pages/SearchBooks.tsx:289 | the condition label keeps the slug's length, upper-cases its first character and turns only the first later `-` into a space |
| SearchBooks.ConditionLabelExamples | src/pages/SearchBooks.tsx:205-207 | "like-new" reads "Like new", "good" reads "Good" |
| SearchBooks.SearchPage.constructor | src/pages/SearchBooks.tsx:43-49 | the page opens loading, with no listings, an empty search and the category chosen elsewhere |
| SearchBooks.SearchPage.FilterBooks | src/pages/SearchBooks.tsx:95-119 | filtering one set filter at a time publishes exactly the conjunction of the filters that are set |
| SearchBooks.SearchPage.FetchCompleted | src/pages/SearchBooks.tsx:74-93 | on success the fetched rows are loaded; on failure the list stays; loading ends and the results follow the filters |
| SearchBooks.SearchPage.SetSearchTerm | src/pages/SearchBooks.tsx:179 | only the term changes, and the results are recomputed |
| SearchBooks.SearchPage.SetFilters | src/pages/SearchBooks.tsx:185-213 | only the three drop-down filters change, and the results are recomputed |
| InventoryAlerts.Toggled | src/components/InventoryAlerts.tsx:122-128 | toggling keeps the list's length |
| InventoryAlerts.Matched | src/components/InventoryAlerts.tsx:148-158 | recording a match keeps the list's length |
| InventoryAlerts.Find | src/components/InventoryAlerts.tsx:130 | the alert found has the id and is in the list; nothing found means no alert has the id |
| InventoryAlerts.NewAlertOmitsEmptyFields | src/components/InventoryAlerts.tsx:100-109 | a new alert lacks exactly the category, max price and location left empty on the form, keeps the others as typed, and keeps the query untrimmed |
| InventoryAlerts.CreatedAlertCounts | src/components/InventoryAlerts.tsx:100-111 | a new alert starts active with no matches: the active count rises by one, the total stays, the query is kept untrimmed |
| InventoryAlerts.ActiveAtMostAll | src/components/InventoryAlerts.tsx:185 | the active count never exceeds the number of alerts |
| InventoryAlerts.ToggleTwiceRestores | src/components/InventoryAlerts.tsx:121-128 | toggling the same id twice restores the list |
| InventoryAlerts.ToggleChangesActiveCountByOne | src/components/InventoryAlerts.tsx:121-128 | toggling an alert whose id is unique moves the active count by exactly one, in the direction of its old state |
| InventoryAlerts.ToggleAbsentIsIdentity | src/components/InventoryAlerts.tsx:121-128 | toggling an id that no alert has changes nothing |
| InventoryAlerts.DeleteRemovesExactlyId | src/components/InventoryAlerts.tsx:139-140 | deleting keeps, in order, exactly the alerts with another id, and shrinks the list by the number carrying the id |
| InventoryAlerts.FilterSplitsCount | src/components/InventoryAlerts.tsx:140 | the alerts kept plus the alerts dropped make up the whole list |
| InventoryAlerts.MatchRaisesTotal | src/components/InventoryAlerts.tsx:147-158 | a simulated match raises the total by the number of alerts carrying the id |
| InventoryAlerts.MatchWithUniqueIdRaisesTotalByOne | src/components/InventoryAlerts.tsx:147-158 | with a unique id the total rises by exactly one |
| InventoryAlerts.ToggleNoticeReadsOldState | src/components/InventoryAlerts.tsx:130-136 | the toast wording reflects the alert's state before the toggle ("paused" if it was active) |
| InventoryAlerts.ToggleUnknownId | src/components/InventoryAlerts.tsx:130-136 | toggling an unknown id reads "Alert activated" and leaves the list unchanged |
| InventoryAlerts.FindFirst | src/components/InventoryAlerts.tsx:130 | `find` returns the first alert carrying the id |
| InventoryAlerts.AlertManager.constructor | src/components/InventoryAlerts.tsx:37-76 | the panel starts with the three seed alerts, an empty form and the form hidden |
| InventoryAlerts.AlertManager.EditDraft | src/components/InventoryAlerts.tsx:69-74 | typing replaces the form |
| InventoryAlerts.AlertManager.SetShowAddForm | src/components/InventoryAlerts.tsx:76 | the form is shown or hidden |
| InventoryAlerts.AlertManager.CreateAlert | src/components/InventoryAlerts.tsx:90-119 | a query that is blank after trimming changes nothing; otherwise the new alert is put in front (active, no matches, each optional field absent iff it was left empty) and the form is cleared and hidden |
| InventoryAlerts.AlertManager.ToggleAlert | src/components/InventoryAlerts.tsx:121-137 | the list is the toggled list, and the notice is computed from the list before the toggle |
| InventoryAlerts.AlertManager.DeleteAlert | src/components/InventoryAlerts.tsx:139-145 | the list becomes the list with that id deleted |
| InventoryAlerts.AlertManager.SimulateNewMatch | src/components/InventoryAlerts.tsx:147-164 | the list becomes the list with the match recorded; a match is recorded only for a listed alert that is active, because the Test button of a paused alert is disabled (line 378) |
| Text.TrimEmptyIffBlank | src/components/InventoryAlerts.tsx:91 | `trim()` yields the empty string iff every character is ECMAScript whitespace |
| Text.LowerIdempotent | src/pages/SearchBooks.tsx:100-102 | lower-casing an already lower-cased term changes nothing |
| Text.LowerHasNoCapitals | src/pages/SearchBooks.tsx:100-102 | no capital letter survives lower-casing |
| Text.ParseIntToString | src/pages/SearchBooks.tsx:142 | the decimal text of a price parses back to that price |
| Seqs.FilterIsSubsequence | src/pages/SearchBooks.tsx:99-115 | `filter` keeps its survivors in order |
| Seqs.FilterMembership | src/pages/SearchBooks.tsx:99-115 | an element survives `filter` iff it is in the input and accepted |
| Seqs.FilterChain | src/pages/SearchBooks.tsx:96-116 | chained filters equal one filter by the conjunction |
| DigitalBookUpload.AcceptedIff | src/components/DigitalBookUpload.tsx:95-121 | a file is accepted iff its type is PDF, EPUB or plain text and its size is at most 52428800 bytes |
| DigitalBookUpload.TypeCheckedBeforeSize | src/components/DigitalBookUpload.tsx:99-117 | a file of a wrong type is reported as a type error even when it is also too large |
| DigitalBookUpload.SizeLimitBoundary | src/components/DigitalBookUpload.tsx:110 | exactly 50 MiB passes; one more byte is too large |
| DigitalBookUpload.PdfLabel | src/components/DigitalBookUpload.tsx:149 | an "application/pdf" file is stored as "PDF" |
| DigitalBookUpload.EpubLabel | src/components/DigitalBookUpload.tsx:149-150 | an "application/epub+zip" file is stored as "EPUB" |
| DigitalBookUpload.TxtLabel | src/components/DigitalBookUpload.tsx:149-150 | a "text/plain" file is stored as "TXT" |
| Text.ContainsAt | src/components/DigitalBookUpload.tsx:149-150 | an occurrence at some offset makes `includes` true |
| Text.NoSubstring | src/components/DigitalBookUpload.tsx:149-150 | a string lacking some character of the pattern does not include it |
| DigitalBookUpload.UploadedBookFields | src/components/DigitalBookUpload.tsx:144-155 | a completed upload records the form's fields, the file's size (at most 50 MiB), the type label and zero downloads |
| DigitalBookUpload.DownloadRaisesTotal | src/components/DigitalBookUpload.tsx:190-198 | a download raises the total by the number of entries carrying the id |
| DigitalBookUpload.RunProgressInterval | src/components/DigitalBookUpload.tsx:128-136 | from 0 the interval ticks 11 times, reading 10, 20, …, 100 and then 100 again when it clears itself; it never leaves 0..100 |
| DigitalBookUpload.Library.constructor | src/components/DigitalBookUpload.tsx:39-72 | the panel starts with exactly the two seed files, an empty form and no upload running |
| DigitalBookUpload.Library.EditFields | src/components/DigitalBookUpload.tsx:66-72 | only the form's text fields change, and any file held stays an accepted one |
| DigitalBookUpload.Library.SelectFile | src/components/DigitalBookUpload.tsx:95-121 | the check's verdict is returned; only an accepted file replaces the form's file, so the form never holds a rejected file |
| DigitalBookUpload.Library.Submit | src/components/DigitalBookUpload.tsx:175-188 | the upload starts at progress 0 iff title, author, category and file are all present; otherwise nothing changes |
| DigitalBookUpload.Library.Tick | src/components/DigitalBookUpload.tsx:129-135 | one tick adds 10, held at 100, and progress stays within 0..100 |
| DigitalBookUpload.Library.CompleteUpload | src/components/DigitalBookUpload.tsx:139-166 | the captured form becomes a new entry in front of the list, with the file's size (at most 50 MiB), the PDF/EPUB/TXT label of its type and no downloads; the form, progress and upload flag are reset |
| DigitalBookUpload.Library.Download | src/components/DigitalBookUpload.tsx:190-198 | each entry with that id gains one download; the others keep their count |
| AddBook.SubmitIgnoresCategoryAndPrice | src/pages/AddBook.tsx:354 | neither the category nor the price affects whether submit is disabled |
| AddBook.PlaceholdersDistinct | src/pages/AddBook.tsx:83-85 | a batch yields one placeholder per file, numbered from 1, and they are pairwise distinct |
| AddBook.AddImages | src/pages/AddBook.tsx:86 | the buffer after a batch is a prefix of old-then-new photos, of length min(total, 5) |
| AddBook.AddImagesKeepsExisting | src/pages/AddBook.tsx:86 | photos already held are never displaced by a new batch |
| AddBook.RemoveAt | src/pages/AddBook.tsx:316 | removing at a valid index shortens the list by one; any other index changes nothing |
| AddBook.RemoveAtShifts | src/pages/AddBook.tsx:316 | the photos before the removed one keep their place and the later ones move down by one |
| AddBook.PhotoTileRule | src/pages/AddBook.tsx:324 | a batch hides the add-photo tile iff it brings the total to five; removing from a full buffer shows it again |
| AddBook.PriceFieldRule | src/pages/AddBook.tsx:267 | choosing a listing type shows the price input iff the choice is "sell"; other fields do not affect it; the fresh form does not show it |
| AddBook.ListingForm.constructor | src/pages/AddBook.tsx:17-32 | the form starts with the eleven fields empty except contactMethod "platform", no photos and not loading |
| AddBook.ListingForm.SetField | src/pages/AddBook.tsx:75-77 | the named field takes the value and every other field keeps its own |
| AddBook.ListingForm.UploadImages | src/pages/AddBook.tsx:79-88 | a file list appends its placeholders and truncates to five; no file list changes nothing |
| AddBook.ListingForm.RemoveImage | src/pages/AddBook.tsx:316 | the photo list becomes the list with that index removed |
| AddBook.ListingForm.Submit | src/pages/AddBook.tsx:60-62 | the save starts loading; it can only start from a form whose button is enabled and whose required location (and, for a sale, price) is filled |
| AddBook.RequiredFieldsRule | src/pages/AddBook.tsx:175-180 | the browser refuses the form while the location is empty, or while a sale listing's price is empty (line 276); the fresh form is refused |
| AddBook.ListingForm.CompleteSubmit | src/pages/AddBook.tsx:65-72 | loading ends and the app is sent to "my-books" |
| Categories.FilteredIsOrderedSubset | src/pages/Categories.tsx:82-85 | the cards shown are table entries in table order; an entry is shown iff its name or description includes the term, ignoring case |
| Categories.EmptySearchShowsAll | src/pages/Categories.tsx:82-85 | an empty search shows the whole table |
| Categories.VisibleSubcategories | src/pages/Categories.tsx:135 | the badges are the first min(3, n) subcategories |
| Categories.BadgesAccountForAll | src/pages/Categories.tsx:135-144 | "+N more" appears iff there are more than three subcategories, and N is exactly the number hidden |
| Categories.EmptyStateIffNoMatch | src/pages/Categories.tsx:164 | the empty-state panel appears iff no category matches the term |
| Categories.EmptySearchHasNoEmptyState | src/pages/Categories.tsx:164 | the panel never appears for an empty search |
| MapView.WithinRadius | src/components/MapView.tsx:340-346 | the radius filter never grows the list |
| MapView.NoLocationKeepsAll | src/components/MapView.tsx:338 | with no user location every listing counts as nearby |
| MapView.WithinRadiusSpec | src/components/MapView.tsx:340-346 | the nearby listings are an order-preserving subsequence; a listing is nearby iff one of its occurrences drew a distance within the radius |
| MapView.WiderRadiusKeepsMore | src/components/MapView.tsx:345 | widening the radius keeps every listing that was nearby |
| MapView.MarkerStyles | src/components/MapView.tsx:263 | the marker is amber iff the type is neither free nor exchange; sell, exchange and free get distinct glyphs (spelled exactly as the file has them) and any other type the default glyph |
| MapView.MapScreen.constructor | src/components/MapView.tsx:32-43 | the screen starts with no listings, no location, a 5 km radius, an empty token, the setup screen shown and no map |
| MapView.MapScreen.SetToken | src/components/MapView.tsx:423 | typing replaces the token |
| MapView.MapScreen.FetchCompleted | src/components/MapView.tsx:306-324 | on success the fetched rows are loaded; on failure the list stays; loading ends |
| MapView.MapScreen.GetUserLocation | src/components/MapView.tsx:61-92 | the location becomes the position found, or the New York fallback (40.7128, -74.0060) when geolocation fails or is unsupported |
| MapView.MapScreen.SubmitToken | src/components/MapView.tsx:364-375 | (offered only once loading is over) an empty token keeps the setup screen and requests nothing; a token hides it and requests the location, which stays as it was until the answer arrives |
| MapView.SubmitBeforeLocationArrives | src/components/MapView.tsx:49-53 | after the listings load and a token is submitted and before the location request is answered, the setup screen is gone, no location is known and no map is built |
| MapView.MapScreen.InitializeMapIfReady | src/components/MapView.tsx:49-53 | a map exists iff one existed or token, location and container are all present, the container being rendered only after loading and the setup screen (lines 377-388); at most one map is ever built |
| MapView.MapScreen.SetRadius | src/components/MapView.tsx:467-474 | the radius becomes the slider's value (1 to 50) |
| MapView.MapScreen.UpdateMapMarkers | src/components/MapView.tsx:188-304 | with a map and a location, the old markers are dropped and there is exactly one marker per nearby listing, in order, coloured by its type and carrying its title, author, condition, price label and location; otherwise nothing changes |
| MapView.MapScreen.RefreshMarkers | src/components/MapView.tsx:55-59 | the markers are redrawn only when some listing is loaded |
| Storage.LocalStorage.SetItem | src/components/auth/LoginForm.tsx:25-26 | the key takes the value and every other key is untouched |
| Storage.LocalStorage.RemoveItem | src/pages/Index.tsx:28-31 | the key is gone and every other key is untouched |
| Index.LogoutForgetsSession | src/pages/Index.tsx:27-34 | logout removes exactly the four session keys, keeps every other entry, and leaves no session to restore |
| Index.LogoutIdempotent | src/pages/Index.tsx:28-31 | logging out twice leaves the store as logging out once |
| Index.RouteCases | src/pages/Index.tsx:57-89 | routing is total: "categories" and "add-book" reach their pages, the six unfinished pages show Coming Soon, any other name shows the dashboard |
| Index.AuthScreenIffSignedOut | src/pages/Index.tsx:53-55 | after loading, the sign-in screen shows iff the user is signed out, whatever the current page |
| Index.App.constructor | src/pages/Index.tsx:9-11 | the shell starts signed out, loading, on the dashboard |
| Index.App.RestoreSession | src/pages/Index.tsx:13-20 | the user is signed in iff the stored flag is exactly "true" (or was already signed in); loading ends |
| Index.App.HandleAuthSuccess | src/pages/Index.tsx:22-25 | signed in, on the dashboard |
| Index.App.HandleLogout | src/pages/Index.tsx:27-34 | the store loses the four session keys; the user is signed out and sent to the dashboard |
| Index.App.HandleNavigate | src/pages/Index.tsx:36-38 | only the current page changes |
| LoginForm.SignInIsRestored | src/components/auth/LoginForm.tsx:24-26 | a successful sign-in is restored on the next load, adds only its two keys, and never stores the password |
| LoginForm.LogoutUndoesSignIn | src/pages/Index.tsx:27-34 | signing out after signing in leaves the store as signing out alone would |
| LoginForm.SignInForm.constructor | src/components/auth/LoginForm.tsx:13-15 | the form starts empty and not loading |
| LoginForm.SignInForm.SetEmail | src/components/auth/LoginForm.tsx:58 | the email takes the typed value |
| LoginForm.SignInForm.SetPassword | src/components/auth/LoginForm.tsx:70 | the password takes the typed value |
| LoginForm.SignInForm.Submit | src/components/auth/LoginForm.tsx:18-23 | submitting starts loading and the pending callback captures the email and password as they are now; the browser submits only with both filled, since both inputs are required (lines 59, 71) |
| LoginForm.SignInForm.CompleteSubmit | src/components/auth/LoginForm.tsx:23-40 | login succeeds iff the email and password captured at submission are non-empty; on success the store gains isAuthenticated "true" and that email; on failure it is untouched; loading ends on both branches |
| LoginForm.ClearEmailWhilePending | src/components/auth/LoginForm.tsx:18-26 | clearing the email after submitting still signs in, with the email captured at submission |

## Left out

- Network fetches are left out. The Supabase query for active listings (its
  ordering and its status filter) is not modelled; the rows it returns are a
  parameter of `FetchCompleted`.
- Geometry and randomness are left out. The Haversine distance, the radius
  circle and the random coordinates drawn for each listing on every pass are
  not modelled. The nearby filter takes one sampled distance per listing as
  input, and a marker's position and popup distance are not kept. The list
  beside the map samples its own distances; the model makes no claim that
  it agrees with the map.
- External services are left out: Mapbox calls (map construction, controls,
  markers as DOM elements, popups) and the device geolocation API, which is
  the `GeoOutcome` parameter.
- Toast display (the toggle toast's wording is modelled by
  `InventoryAlerts.ToggleNotice`), JSX rendering, styling and the selected-listing side panel are not
  modelled.
- Timers are left out. `setTimeout` and `setInterval` delays become explicit
  step methods. Interleavings of the progress interval with the completion
  timer are not modelled.
- Clock reads are left out. `Date.now()` ids and ISO dates are parameters.
- `formatFileSize` is left out because it uses floating point (`Math.log`,
  `toFixed`).
- Text.Lower: only ASCII letters are lower-cased; JavaScript's full Unicode
  case mapping is not modelled.
- SearchBooks.ConditionLabelShape: the first character is upper-cased over
  ASCII only. JavaScript's `toUpperCase` maps all of Unicode and can lengthen
  a string ('ß' becomes "SS"), so "keeps the slug's length" holds for the
  model, and for the ASCII condition slugs the page offers, not for every
  string.
- SearchBooks.FormatPrice: prices are whole numbers. Fractional prices and
  their decimal rendering are not modelled.
- InventoryAlerts.NewAlert: `maxPrice` keeps the typed text. The `Number()`
  conversion (and its NaN case) is not modelled.
- SearchBooks: the listing-type icon component is not modelled because it
  only picks an icon.
- The dashboard, navigation bar, auth layout and auth page are not part of
  this model. The routes only name them.
- `RegisterForm` is not part of this model.
- DigitalBookUpload.Library.Submit requires that no upload is running,
  because the upload button is disabled while one runs.
- AddBook.ListingForm.Submit requires that the submit button is enabled
  (not loading, and title, author, condition and listing type filled),
  because the button's `disabled` attribute blocks the click and implicit
  submission; `handleSubmit` itself has no guard. It also requires the
  `required` location input, and the price input when it is shown, to be
  filled, because the browser refuses the submit otherwise.
- DigitalBookUpload.Library.Submit does not model the browser's refusal of
  an empty `required` title or author: the handler's own guard refuses the
  same forms and leaves the same state, only its error toast is not shown.
- LoginForm.SignInForm.Submit: the `type="email"` format check the browser
  makes on the email input is not modelled; any non-empty email is let through.
- LoginForm.SignInForm.Submit requires that no sign-in is pending, because
  the sign-in button is disabled while loading; the text fields stay
  editable and are modelled so.
