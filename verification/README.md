# SIM backend: paging, protection and bookkeeping, verified

The backend puts one API in front of three SIM providers (Kite, Tele2, Moabits).
This project models the parts of it that keep state across calls or pages, and
proves what they promise over whole runs. It has no code in common with the
backend; `dafny verify dfyconfig.toml` checks all of it.

- **Paging** (`Paging`, `Runs`, `FanOut`, `Listing`, `Failures`, `AdminListing`,
  `Search`):
  what an adapter promises about a page, one client page split over several
  providers, and runs in which the client sends every cursor back until there is
  none. A run is a sequence of requests; limits, set-up failures and answers may
  differ from page to page.
- **Adapters** (`Adapters`, `RealListing`, `FilteredPages`, `RealSearch`,
  `RealAdmin`, `Tele2Window`): the cursor arithmetic of the three providers and
  the filters they refuse, the promise of `Paging` discharged for them, and the
  listing, the search and the admin listing over the real adapters.
- **Cursors** (`Base64`, `Json`, `Cursors`, `Text`): the opaque token, down to
  characters: compact sorted JSON (RFC 8259, sections 4 and 7) in unpadded
  base64url (RFC 4648, sections 3.2 and 5).
- **Protection** (`CircuitBreaker`, `RateLimiter`): the calls of a provider
  overlap, so runs are sequences of begin and end steps; a sleep lasts at least as
  long as asked.
- **Protocols** (`Idempotency`, `RoutingSync`): any number of requests or workers
  take one transaction at a time and may die between any two.
- **Caches and folds** (`Enrichment`, `SimListCache`, `NegativeCache`, `Stats`,
  `Months`, `Details`): the fast or stateful form against the plain one.

Code that changes state is modelled by classes and loops. Each such method is
tied to a step function over a recorded history (`trace`), and the theorems are
about every history.

## What came out differently from what the documentation says

- **The global listing loses Tele2's SIMs for page limits from 2 to 148.** Tele2's
  cursor is a page number, and its page size is its share of the client's page.
  When another provider runs out, the share changes and the page number points
  elsewhere. `RealListing.ListingIsCompleteIff`: every list is delivered whole
  exactly for the limits 1 and 149 to 500.
- **A search never reads Moabits if it asks it for a status**, nor for an IMSI, an
  MSISDN or a custom field: the adapter refuses every such call. Without them it
  reads Moabits whole (`RealSearch.MoabitsIsCompleteIff`).
- **A search without a start of the time window never reads Tele2**, and the
  default request has none: unlike the global listing, the search puts nothing
  in for it (`RealSearch.RefusedIsNeverRead`).
- **A search loses Tele2's SIMs as the global listing does**, also within one
  provider: the share of a status grows when the other statuses, or Kite, run out.
  All of a Tele2 selection is always read exactly if it has a start of the window
  and its page size is the same for the smallest share of a status and the largest
  (`RealSearch.SearchIsCompleteIff`). With a limit L of its own and k statuses the
  latter means k = 1, L <= 1 or L >= 50 k (`RealSearch.OwnLimitIsCompleteIff`); for
  Kite, Tele2 and Moabits, in this order and without limits of their own, it fails
  for the limits 4, 7, ... up to 148 (`RealSearch.SharedLimitIsCompleteIff`).
- **The admin listing does so too**: of n credentials with a page limit L, a Tele2
  credential that the limit reaches is always read whole exactly for n = 1, L = 1
  or a first share of at least 50 (`RealAdmin.AdminIsCompleteIff`,
  `RealAdmin.SteadyIff`).
- **A Tele2 routing crawl must end within the second it begins in.** The crawl
  fixes the start of its window exactly a year back; a second later the adapter
  refuses every further page, also of a crawl that is taken up again
  (`Tele2Window.CrawlEndsIff`, `Tele2Window.ResumedCrawlIsRefused`). Statistics
  with the default filters raise if one of their first hundred pages comes later
  than one second after the start (`Tele2Window.StatisticsRaiseIff`).
- **The admin listing never reads a credential that the first page's limit does
  not reach.** Its cursor cannot carry "not begun"
  (`AdminListing.RunCoversCredentialIff`). Nor does it read one whose adapter
  refuses the request's filters (`RealAdmin.RefusedIsNeverRead`).
- **A provider that fails on one page is gone for the rest of the run**, even if
  it recovers. It is cut off exactly where it stood, and so delivered whole exactly
  if it was exhausted (`Listing.FailureCutsProvider`,
  `Failures.RecoveryComesTooLate`).
- **A crawl that fails in its last transaction starts over.** By then its cursor is
  gone; it is otherwise taken up behind its last page with rows, and reads none of
  them again (`RoutingSync.Database.CrawlFrom`, `RoutingSync.ResumeReadsTheRest`).
- **The admin listing hides failures.** A failed call is not reported, and its page
  passes for complete, if another credential of the provider is through or cannot be
  listed (`AdminListing.FailureIsHiddenIff`).
- **A search with a cursor of its own for a provider never ends** if there is more at
  that cursor: every page sends it again (`Search.OwnCursorNeverEnds`).
- **With a page limit of 1 or 2 the failures of some providers abort the run for
  the others.** From 3 on they do not: whoever keeps answering is delivered whole
  by every run that is over (`Failures.FinishedRunsCoverIff`).
- **HALF_OPEN does not admit one probe but all** that begin before one has ended
  (documented otherwise in `app/shared/resilience.py:6`):
  `CircuitBreakers.EveryProbeIsForwarded`, `CircuitBreakers.SingleProbeIff`.
- **A cancelled write leaves an audit row "success"** and its key taken for good
  (`Idempotency.CancelledCallAuditsSuccess`, `Idempotency.SuccessRowIff`). No code
  purges expired keys, so a claim that is not released is permanent here.
- **Adding months to a moment is not monotone** for two moments of one month whose
  days are cut to the same last day; it is for dates
  (`Months.AddMonthsToIsMonotoneIff`).
- **Statistics are partial** from 50,000 SIMs on for Kite, beyond 50,000 for
  Moabits and beyond 5,000 for Tele2, whose pages are cut to 50.

## Model

| member | source | states |
|---|---|---|
| Base64.DecodeOfEncode | app/subscriptions/services/cursors.py:15-25 | Decoding what was encoded gives back every byte string, all lengths modulo 3 included. |
| Base64.RepadOfStripPad | app/subscriptions/services/cursors.py:15-23 | Stripping the padding and putting `-len % 4` signs back restores every encoded text. |
| Base64.AlphabetByIndex | app/subscriptions/services/cursors.py:15 | The 64 characters are those of section 5 of RFC 4648, in its order. |
| Base64.EncodeConcat | app/subscriptions/services/cursors.py:15 | Whole groups of three bytes are encoded one by one. |
| Base64.EncodeThree | app/subscriptions/services/cursors.py:15 | Three bytes and their four characters are the same 24-bit number, most significant first. |
| Base64.EncodeTwo | app/subscriptions/services/cursors.py:15 | Two bytes at the end are filled up with zero bits and one `=`. |
| Base64.EncodeOne | app/subscriptions/services/cursors.py:15 | One byte at the end with zero bits and two. |
| Base64.OneTooMany | app/subscriptions/services/cursors.py:22-26 | A token whose length leaves remainder 1 modulo 4 is never decoded. |
| Json.ReadObjectOfPrint | app/subscriptions/services/cursors.py:14-30 | Reading the compact JSON of any object with string or null values gives its members back in order, escapes and surrogate pairs included. |
| Json.PrintObjectIsAscii | app/subscriptions/services/cursors.py:14 | The JSON text is ASCII for every content, so one character is one byte. |
| Json.PrintObjectIsTight | app/subscriptions/services/cursors.py:14 | The text is compact: its only white space are the spaces of its strings. |
| Json.EscapeConcat | app/subscriptions/services/cursors.py:14 | The characters of a string are escaped one by one. |
| Json.EscapeOfAscii | app/subscriptions/services/cursors.py:14 | Printable ASCII stands for itself, quote and backslash apart; seven characters have short escapes. |
| Json.EscapeOfOthers | app/subscriptions/services/cursors.py:14 | Every other character of the first plane is its number in four lower-case hexadecimal digits. |
| Json.EscapeOfPair | app/subscriptions/services/cursors.py:14 | Beyond the first plane it is the surrogate pair of its number. |
| Cursors.CursorRoundTrip | app/subscriptions/services/cursors.py:10-30 | Decoding an encoded cursor gives the map minus its None entries; a map of Nones gives no cursor. |
| Cursors.GlobalRoundTrip | app/subscriptions/services/listing.py:131-151 | Decoding an encoded global cursor gives the same map, None entries kept; the empty map gives no cursor. |
| Cursors.CursorDependsOnMap | app/subscriptions/services/cursors.py:10-16 | Dictionaries with equal contents give equal cursors, whatever their insertion order. |
| Cursors.GlobalDependsOnMap | app/subscriptions/services/listing.py:131-138 | The same for the global cursor. |
| Cursors.NestedRoundTrip | app/subscriptions/services/listing.py:178-183 | A status cursor packed as a value into a global cursor comes out of both decodings as it went in. |
| Cursors.NativeCursorIsNoStatusCursor | app/subscriptions/services/listing.py:182-183 | A cursor that starts with a digit or with p is never read as a status cursor. |
| Cursors.KeysAreSorted | app/subscriptions/services/cursors.py:14 | The keys in a token are in the order of their code points, decided where they first differ. |
| Cursors.BareCursorIsBroadcast | app/subscriptions/services/listing.py:141-146 | A cursor without the mark becomes the cursor of all three providers. |
| Cursors.OnlyProvidersAreRead | app/subscriptions/services/listing.py:147-151 | Of a marked cursor the entries of the three providers are kept and no others. |
| Cursors.UnreadableIsEmpty | app/subscriptions/services/cursors.py:24-29 | A marked token that cannot be read is an empty map, in each of the three kinds of cursor. |
| Cursors.CutTokenIsUnreadable | app/subscriptions/services/cursors.py:22-26 | So is one that is a character longer than whole groups. |
| Cursors.UnmarkedCursors | app/subscriptions/services/listing.py:158-183 | Without its mark an admin cursor is empty and a status cursor is none. |
| Text.ParseIntOfDecimal | app/providers/kite/adapter.py:336-349 | Reading a printed offset gives the offset back. |
| Text.ParseIntOfSigned | app/providers/kite/adapter.py:336-349 | A sign in front gives the number its sign. |
| Paging.PageExtends | app/providers/kite/adapter.py:327-350 | A page that meets the adapter's promise extends what was read of the list by exactly the next stretch. |
| Paging.PageShrinks | app/providers/kite/adapter.py:327-350 | Such a page, or a failure, strictly lowers the number of pages to come. |
| Adapters.KiteMeets | app/providers/kite/adapter.py:336-350 | Kite's page is the slice at the offset, its cursor is strictly further on, and None means the end; also for an exactly full last page. |
| Adapters.MoabitsMeets | app/providers/moabits/adapter.py:1476-1521 | The same for Moabits. |
| Adapters.KitePageIsFull | app/providers/kite/adapter.py:336-350 | A page of Kite is as long as the limit, at least 1 and at most 1000, and the list allow; it has a next cursor if and only if it is full. |
| Adapters.MoabitsPageIsFull | app/providers/moabits/adapter.py:1476-1521 | A page of Moabits the same, at most 500; it has one if and only if the list goes on. |
| Adapters.StartOfOthers | app/providers/kite/adapter.py:336-340 | No cursor, an empty, an unreadable and a negative one mean the start of the list. |
| Adapters.ReadCursor | app/providers/tele2/adapter.py:858-873 | The parsing loop computes the fields of a cursor that the printed cursors are proved against. |
| Adapters.CursorFieldsOfFormat | app/providers/tele2/adapter.py:858-983 | The page, since and till printed into a cursor are read back from it. |
| Adapters.BadPageIsFirst | app/providers/tele2/adapter.py:858-868 | An unreadable page number and one below 1 mean the first page. |
| Adapters.WindowOfRequest | app/providers/tele2/adapter.py:875-912 | The filter's start and end count before the cursor's, and the default end only without either. |
| Adapters.WindowStays | app/providers/tele2/adapter.py:875-983 | Each page hands the window on to the next, whose number is one more. |
| Adapters.Tele2Meets | app/providers/tele2/adapter.py:856-983 | Tele2 meets the adapter's promise while the page size stays the same. |
| Adapters.Tele2ContinuesIff | app/providers/tele2/adapter.py:858-983 | Two pages in a row continue without gap or overlap if and only if they have the same page size. |
| FanOut.SharesAreFair | app/subscriptions/services/provider_dispatch.py:64-68 | The shares add up to the page limit exactly, differ by at most one, and never grow along the list. |
| FanOut.ZeroShare | app/subscriptions/services/provider_dispatch.py:64-68 | A call gets no share if and only if the limit does not reach it. |
| FanOut.ItemsOfCall | app/subscriptions/services/listing.py:428-456 | What a page emits for a provider is what that provider's call returned, untouched by the others. |
| FanOut.NextOfCall | app/subscriptions/services/listing.py:388-456 | The cursors for the next page hold a provider's returned cursor, its old one (None included) if it had no share, and nothing if it ended or failed. |
| Listing.CollectCalls | app/subscriptions/services/listing.py:348-386 | The first loop computes the calls of a page and the providers that could not be set up. |
| Listing.SplitCalls | app/subscriptions/services/listing.py:388-409 | The second loop sets the calls without a share aside, cursor included. |
| Listing.MergeResults | app/subscriptions/services/listing.py:428-468 | The third loop collects items, cursors and failures of the calls made. |
| Listing.ListViaRoutingIndex | app/subscriptions/services/listing.py:340-505 | The handler computes the page that the run theorems are about, its failed providers and the error for a page of nothing but failures included. |
| Listing.FailedIff | app/subscriptions/services/listing.py:377-456 | A page reports a provider if and only if it is live and its set-up fails, or it is called with a share and the call fails. |
| Listing.PageRaisesIff | app/subscriptions/services/listing.py:484-495 | A page raises if and only if no SIM came and there is such a provider; otherwise it reports exactly these. |
| Listing.NextCursorDecodes | app/subscriptions/services/listing.py:131-151 | The next cursor, decoded again, tells each provider's place. |
| Listing.RunCoversProvider | app/subscriptions/services/listing.py:340-505 | A run that ends has emitted the stable list of every provider that is set up and answers on each page, once and in order, whatever the limits; an aborted or unfinished run has emitted a prefix. |
| Listing.FinishedRunCoversProvider | app/subscriptions/services/listing.py:340-505 | With limits of at least 3 an aborted run has emitted that list whole too, whatever the others do. |
| Failures.FinishedRunsCoverIff | app/subscriptions/services/listing.py:484-495 | For every page limit: each run that is over has emitted whole every provider that kept answering if and only if the limit is at least 3. |
| Listing.DoneStaysDone | app/subscriptions/services/listing.py:348-356 | A provider that a cursor has left out emits nothing in the rest of the run. |
| Listing.FailureDropsProvider | app/subscriptions/services/listing.py:428-456 | A provider that fails on a page emits nothing on that page and in the rest of the run. |
| Listing.FailureCutsProvider | app/subscriptions/services/listing.py:428-456 | A provider that served every page before number k, on which it is live and fails, is emitted exactly up to where it stood then, whatever it does later; whole if and only if it was exhausted there. |
| Failures.RecoveryComesTooLate | app/subscriptions/services/listing.py:428-456 | Kite fails on the first page only; the run ends with nothing of Kite's list, and Moabits' whole. |
| Failures.OneFailureLosesSim | app/subscriptions/services/listing.py:428-456 | Such a run with six SIMs, of which Kite's is never delivered. |
| Listing.RunTerminates | app/subscriptions/services/listing.py:340-505 | A run in which each call fails or gets on in its list is over within the sum of (list length + 1) pages. |
| Listing.PageFitsLimit | app/subscriptions/services/listing.py:341-469 | No page holds more than the limit clamped to 1 to 500, if every answer keeps to its share. |
| RealListing.RealTurnServes | app/providers/tele2/adapter.py:856-983 | Under a page limit of 1 or at least 149 each real adapter keeps its promise on every page, whoever has run out. |
| RealListing.RealRunEnds | app/subscriptions/services/listing.py:340-505 | Over the real adapters every run ends within that bound, whatever the limits, and even if they change on the way. |
| RealListing.RealPageFits | app/subscriptions/services/listing.py:341-469 | And no page of theirs holds more than the clamped limit. |
| RealListing.GoodLimitDelivers | app/subscriptions/services/listing.py:340-505 | With such a limit a run over the real adapters ends and delivers all three lists whole. |
| RealListing.WitnessLosesSims | app/subscriptions/services/listing.py:341-409 | For each limit from 2 to 148 there is a list of different SIMs of which a run delivers only a proper prefix. |
| RealListing.BadLimitLosesSim | app/subscriptions/services/listing.py:340-505 | For each of them there is a run that ends and never delivers some SIM, though no SIM is listed twice. |
| RealListing.ListingIsCompleteIff | app/subscriptions/services/listing.py:340-505 | For every page limit: all lists in which no SIM occurs twice are always delivered whole if and only if the limit is 1 or at least 149. |
| AdminListing.ListViaAdminCredentials | app/subscriptions/services/listing.py:748-972 | The handler computes the page that the run theorems are about, shows what of it passes the filter, once, and reports the providers that failed as the next row has them. |
| AdminListing.ShownFacts | app/subscriptions/services/listing.py:895-930 | Filtering and de-duplication lose no SIM that passes and repeat none. |
| AdminListing.ReportedIff | app/subscriptions/services/listing.py:775-945 | A provider is reported if and only if a live credential of it cannot be set up, or a call of it fails and all its credentials are live and ready. |
| AdminListing.FailureIsHiddenIff | app/subscriptions/services/listing.py:775-945 | So a failed call is not reported if and only if another credential of its provider is through or cannot be listed, and none fails to be set up. |
| AdminListing.RunCoversCredentialIff | app/subscriptions/services/listing.py:854-932 | A credential whose answers page through one list, whatever its share of a page (for Tele2: with one page size), is read whole by a run that ends if and only if the first page's limit reaches it or its list is empty; otherwise nothing of it is read. |
| AdminListing.ServedFromTheStart | app/subscriptions/services/listing.py:854-932 | Such a credential with a share on the first page is read whole, in order. |
| AdminListing.LeftOutFromTheStart | app/subscriptions/services/listing.py:154-155 | A credential without one is never read. |
| AdminListing.AdminRunTerminates | app/subscriptions/services/listing.py:748-972 | A run in which each call fails or gets on in its list ends within the sum of (list length + 1) over the credentials. |
| RealAdmin.RealAdminEnds | app/subscriptions/services/listing.py:748-972 | Over the real adapters every run of the admin listing ends within that sum, whatever the filters. |
| RealAdmin.ShareBetween | app/subscriptions/services/listing.py:861-872 | However many credentials are through or fail, a credential's share is at least what it is when all are called, and at most the page. |
| RealAdmin.RealAdminCovers | app/subscriptions/services/listing.py:748-972 | A credential that can be set up, whose adapter takes the request and that the page limit reaches is read whole and in order, for Tele2 if its page size is the same for the first share and the whole page. |
| RealAdmin.RefusedIsNeverRead | app/providers/moabits/adapter.py:1461-1469 | A credential whose adapter refuses the request's filters is never read. |
| RealAdmin.UnsteadyCredentialLosesSim | app/subscriptions/services/listing.py:854-932 | If Tele2's page size is not the same, there is a run over different SIMs that reads all but the last of them. |
| RealAdmin.AdminIsCompleteIff | app/subscriptions/services/listing.py:748-972 | For every request, list of credentials and page limit: the i-th is always read whole if and only if its adapter takes the filters, the limit reaches it and, for Tele2, the page size stays. |
| RealAdmin.SteadyIff | app/subscriptions/services/provider_dispatch.py:64-68 | The page size stays if and only if there is one credential, the limit is 1, or the first share is at least 50. |
| Search.SearchProvider | app/subscriptions/services/listing.py:581-702 | The loop over a provider's statuses computes the reads, the packed cursor and the failures that the theorems are about. |
| Search.SearchViaProviderFilters | app/subscriptions/services/listing.py:515-745 | The handler computes the page's items, next cursor and failed providers as the theorems have them. |
| Search.ProviderPage | app/subscriptions/services/listing.py:576-702 | A page of a provider, seen by one status, reads what was answered for it; the provider's next cursor resumes it right behind, or not at all once it is drained. |
| Search.RunCoversStream | app/subscriptions/services/listing.py:576-702 | A run that ends has read each (provider, status) stream whose own calls do not fail once, from start to end, without gaps. |
| Search.SearchTerminates | app/subscriptions/services/listing.py:515-745 | A search in which each call fails or gets on in its stream ends as soon as the longest stream is through. |
| Search.DrainedStaysDrained | app/subscriptions/services/listing.py:583-607 | A status that has left the nested cursor is never read again. |
| Search.SearchShowsReads | app/subscriptions/services/listing.py:680-691 | What a stream reads on a page and its filter keeps is shown on that page. |
| Search.SearchShowsIff | app/subscriptions/services/listing.py:651-702 | A page shows a SIM for a provider if and only if one of the provider's streams reads it there and its filter keeps it. |
| Search.NothingShownTwice | app/subscriptions/services/listing.py:651-691 | No page shows a SIM twice for a provider. |
| Search.StatusKeysHas | app/subscriptions/services/listing.py:581-583 | A status is searched if and only if it is asked for and not empty; the search without a status is made if and only if none is. |
| Search.SearchFailedIff | app/subscriptions/services/listing.py:566-715 | A page reports a selection's provider if and only if it is live and its set-up fails, or one of its live statuses is answered with a failure. |
| Search.OwnCursorReads | app/subscriptions/services/listing.py:558-560 | A selection with a cursor of its own is read from there on every page. |
| Search.OwnCursorNeverEnds | app/subscriptions/services/listing.py:558-560 | So if there is more at that cursor, no run of such a search ever ends. |
| RealSearch.RealCursorsAreNative | app/subscriptions/services/listing.py:182-183 | No cursor of the three adapters is ever taken for a status cursor. |
| FilteredPages.TakenPageMeets | app/providers/moabits/adapter.py:1461-1521 | An adapter that takes the filters keeps its promise for the list of what matches, Tele2 with one page size. |
| FilteredPages.RefusedPage | app/providers/tele2/adapter.py:879-880 | One that does not fails on the first page: Tele2 without a start of the window, Moabits with a status, an IMSI, an MSISDN or a custom field. |
| RealSearch.RealSearchEnds | app/subscriptions/services/listing.py:508-745 | Over the real adapters every search ends within the length of the longest list plus one pages, whatever the limits and filters. |
| RealSearch.RealSearchCovers | app/subscriptions/services/listing.py:508-745 | It then has read each status whole and in order of every selection that its adapter takes, of Kite and Moabits for all limits, of Tele2 if the selection is steady. |
| RealSearch.RefusedIsNeverRead | app/subscriptions/services/filters.py:300-327 | Of a selection that its adapter refuses nothing is ever read. |
| RealSearch.UnsteadySearchLosesSim | app/subscriptions/services/listing.py:590-607 | If a selection of Tele2 is taken but not steady, there is a search over different SIMs that never reads one of them. |
| RealSearch.LosingRun | app/subscriptions/services/listing.py:590-607 | That search runs over the real adapters, long enough to end, with Tele2 ready and the limit unchanged on every page. |
| RealSearch.SearchIsCompleteIff | app/subscriptions/services/listing.py:543-607 | For every selection: all its statuses are always read whole if and only if its adapter takes what it asks for and, for Tele2, the page size is the same for the smallest share that a status can get and the largest. |
| RealSearch.MoabitsIsCompleteIff | app/providers/moabits/adapter.py:1461-1469 | For Moabits: if and only if it asks for no status and for no IMSI, MSISDN or custom field. |
| RealSearch.OwnLimitIsCompleteIff | app/subscriptions/services/listing.py:590-607 | For Tele2 with its own limit L and k statuses: if and only if there is a start of the window, and k is 1, L at most 1 or L at least 50 k. |
| RealSearch.SharedLimitIsCompleteIff | app/subscriptions/services/listing.py:543-565 | For Kite, Tele2 and Moabits in this order, with one limit for all and one status: if and only if there is a start of the window, and the limit leaves no remainder 1 modulo 3, is at most 1 or at least 150. |
| Tele2Window.CheckedPageIsTele2Page | app/providers/tele2/adapter.py:875-983 | The page with the checks on its window is refused or is the page of the other theorems. |
| Tele2Window.PageOfWindow | app/providers/tele2/adapter.py:889-912 | A page is refused if and only if it is asked for more than a year after the start of its window, and otherwise keeps the window for the next page. |
| Tele2Window.RefusedWindows | app/providers/tele2/adapter.py:889-917 | A window is refused if and only if its start is in the future or more than a year ago, or its end more than a year after its start. |
| Tele2Window.RefusedTexts | app/providers/tele2/adapter.py:879-905 | A missing start and dates that cannot be read are refused. |
| Tele2Window.WindowOfCursor | app/providers/tele2/adapter.py:875-909 | The filter's start counts before the cursor's, and a missing end is a year after the start. |
| Tele2Window.WalkEndsIff | app/providers/tele2/adapter.py:875-912 | Paging with a fixed start ends if and only if each of the pages is asked for within a year of that start. |
| Tele2Window.CrawlEndsIff | app/sync/tasks.py:112-175 | A routing crawl of Tele2 ends if and only if all its pages are asked for in the second it began in. |
| Tele2Window.ResumedCrawlIsRefused | app/sync/tasks.py:93-129 | Its stored cursor is refused in every later second. |
| Tele2Window.StatisticsRaiseIff | app/subscriptions/services/stats.py:79-117 | Statistics over Tele2 with the default start raise if and only if one of their pages, at most the first hundred, is asked for later than a second after the start; otherwise they are partial if and only if there are more than 5,000 SIMs. |
| CircuitBreakers.CircuitBreaker.constructor | app/shared/resilience.py:56-75 | A new breaker stands at the empty history. |
| CircuitBreakers.CircuitBreaker.BeginCall | app/shared/resilience.py:91-105 | Beginning a call adds its step to the history; it is forwarded or rejected, with the delay, as the theorems have it. |
| CircuitBreakers.CircuitBreaker.RecordSuccess | app/shared/resilience.py:119-124 | The same for a success. |
| CircuitBreakers.CircuitBreaker.RecordFailure | app/shared/resilience.py:126-141 | The same for a failure. |
| CircuitBreakers.CircuitBreaker.DropOldFailures | app/shared/resilience.py:131-133 | The popleft loop drops the leading times before the cutoff. |
| CircuitBreakers.DequeIsWindow | app/shared/resilience.py:117-139 | After any interleaving the deque equals the failures since the last clear that lie in the window of the newest, is sorted, and is shorter than the threshold. |
| CircuitBreakers.FailureOpensIff | app/shared/resilience.py:126-141 | A failure in CLOSED opens the breaker if and only if threshold-many failures since the last clear, itself included, lie in the window it ends. |
| CircuitBreakers.FailedProbeReopens | app/shared/resilience.py:126-141 | A failure in HALF_OPEN opens the breaker again, and nothing is forwarded until the open duration after it is over. |
| CircuitBreakers.AnsweredProbeCloses | app/shared/resilience.py:119-124 | A success in HALF_OPEN closes it, with no failure left to count. |
| CircuitBreakers.FailureWhileOpenIff | app/shared/resilience.py:126-141 | A late failure in OPEN begins the open time anew if and only if threshold-many failures lie in the window it ends. |
| CircuitBreakers.OtherStepsKeepState | app/shared/resilience.py:91-124 | Nothing else changes state, failures or opening time, but for the call that begins once the open duration is over. |
| CircuitBreakers.NothingForwardedWhileOpen | app/shared/resilience.py:95-105 | After an opening at time o no call is forwarded before o plus the open duration, whatever calls in flight do. |
| CircuitBreakers.RetryAfterBounds | app/shared/resilience.py:96-105 | A rejected caller is told to wait at least 1 and at most the open duration, rounded up: the time that is left, less than a second more. |
| CircuitBreakers.WaitingIsEnough | app/shared/resilience.py:96-105 | Waiting that long is enough unless a failure opened the breaker in the meantime. |
| CircuitBreakers.EpisodeIff | app/shared/resilience.py:94-141 | HALF_OPEN lasts exactly until the first success or failure, of whichever call. |
| CircuitBreakers.EveryProbeIsForwarded | app/shared/resilience.py:94-107 | In every history, each call that begins in HALF_OPEN before one has ended is forwarded, and the state stays. |
| CircuitBreakers.SingleProbeIff | app/shared/resilience.py:94-107 | So the documented single probe holds for an episode if and only if no further call begins before one has ended. |
| CircuitBreakers.ProbesWithoutLimit | app/shared/resilience.py:94-141 | For every configuration and number there is a possible history that has so many probes in flight. |
| CircuitBreakers.CountersCount | app/shared/resilience.py:71-72 | The two counters count all failures and successes of the history. |
| RateLimiters.RateLimiter.WaitForBackoff | app/providers/tele2/adapter.py:92-98 | With the lock taken, the sleep reaches to the key's backoff deadline. |
| RateLimiters.RateLimiter.WaitForTps | app/providers/tele2/adapter.py:100-104 | The second sleep reaches to the last start plus the interval. |
| RateLimiters.RateLimiter.StartCall | app/providers/tele2/adapter.py:106 | The start is recorded. |
| RateLimiters.RateLimiter.RecordRateLimited | app/providers/tele2/adapter.py:123-126 | A rate limit adds its step to the history. |
| RateLimiters.RateLimiter.RecordSuccess | app/providers/tele2/adapter.py:128-134 | A success adds its step to the history. |
| RateLimiters.CallsNeverOverlap | app/providers/tele2/adapter.py:91-115 | All calls of a key that started have ended, but for at most one. |
| RateLimiters.LockFollowsCall | app/providers/tele2/adapter.py:91-115 | The lock of a key is held from entering to finishing or leaving, whatever becomes of the call. |
| RateLimiters.StartsAfterDeadline | app/providers/tele2/adapter.py:93-97 | No call starts before its key's backoff deadline. |
| RateLimiters.RateLimitDelaysNextStart | app/providers/tele2/adapter.py:93-126 | After a rate limit the next start of the key waits out the delay then in force, errors of other kinds in between included. |
| RateLimiters.StartsAreSpaced | app/providers/tele2/adapter.py:100-106 | At a rate of at most r, starts i and j of a key are at least (j - i) / r apart. |
| RateLimiters.SleepsAreExact | app/providers/tele2/adapter.py:92-104 | And no call is made to wait longer than the deadline and the interval since the last start require. |
| RateLimiters.SuccessKeepsDeadline | app/providers/tele2/adapter.py:128-134 | A success shortens the delay but not the wait that is on. |
| RateLimiters.WindowHoldsAtMost | app/providers/tele2/adapter.py:100-106 | A window of length W, placed anywhere, holds at most floor(W * r) + 1 starts of a key. |
| RateLimiters.BackoffIsCounter | app/providers/tele2/adapter.py:123-134 | Delay and deadline are stored for the same keys; the delay is a whole number of seconds from 1 to 30, the value of a counter over the outcomes. |
| RateLimiters.BackoffUpAndDown | app/providers/tele2/adapter.py:123-134 | k rate limits in a row from clean give min(k, 30), and thirty successes in a row always clear the backoff. |
| RateLimiters.MaxTps | app/providers/tele2/adapter.py:177-187 | The configured rate is the configured number when that is in range, its nearer end when it is not, and 1 when there is no readable one. |
| RateLimiters.ConfiguredRateIsKept | app/providers/tele2/adapter.py:83-187 | At the configured rate the window bound holds as it stands. |
| Idempotency.Store.ClaimKey | app/subscriptions/services/idempotency.py:24-48 | A claim succeeds if and only if the key has no row. |
| Idempotency.Store.MarkProcessed | app/subscriptions/services/idempotency.py:51-61 | Marking updates the row, if there is one. |
| Idempotency.Store.ReleaseKey | app/subscriptions/services/idempotency.py:64-76 | Releasing deletes the row only while it is processing. |
| Idempotency.Store.WriteRow | app/subscriptions/services/idempotency.py:79-113 | One audit row is added. |
| Idempotency.Store.Handle | app/subscriptions/routers/sims.py:766-828 | An undisturbed handler takes exactly the steps claim, call, release or mark, and audit, in that order, in each of its four outcomes. |
| Idempotency.OneCallInFlight | app/subscriptions/routers/sims.py:768-803 | However requests interleave and die, a key never has two provider calls in flight. |
| Idempotency.OneReturn | app/subscriptions/routers/sims.py:768-828 | A key has at most one call that ever returns normally. |
| Idempotency.NothingAfterSeal | app/subscriptions/routers/sims.py:768-828 | After a normal return (and also after a cancelled call, a failed set-up or release, or a crash behind the claim) every later claim of the key fails and the provider is never called under it again. |
| Idempotency.MarkedIsProcessed | app/subscriptions/services/idempotency.py:51-61 | Once a request has marked its key, the row says processed for good. |
| Idempotency.TableChangesIff | app/subscriptions/services/idempotency.py:24-76 | A step changes the row of a key if and only if it is a claim of the free key, a release or a mark by the key's request; each has its one effect. |
| Idempotency.ReleaseFreesKey | app/subscriptions/services/idempotency.py:64-76 | Releasing deletes the request's own processing row, and the next claim of the key succeeds. |
| Idempotency.OneAuditRow | app/subscriptions/routers/sims.py:768-826 | A request that is over, was not killed, and failed its claim or reached the provider has exactly one audit row, which says what happened to it. |
| Idempotency.AtMostOneAuditRow | app/subscriptions/routers/sims.py:810-826 | Under crashes and cancellations too, a request never has two rows, nor one that says otherwise. |
| Idempotency.SuccessRowIff | app/subscriptions/routers/sims.py:791-826 | A row says success if and only if the call returned normally or was cancelled in flight. |
| Idempotency.CancelledCallAuditsSuccess | app/subscriptions/routers/sims.py:791-826 | Every cancelled call ends with a success row, without a return, and with its key taken for good. |
| RoutingSync.Database.CommitPage | app/sync/tasks.py:132-161 | A page's rows and the cursor behind them go in together. |
| RoutingSync.Database.CrawlFrom | app/sync/tasks.py:125-197 | The loop ends, failed if and only if a step raises. Done means that exactly the rows from the starting cursor on went in, with their number; failed, that those of the pages before the failure did, that they are counted, and that the cursor stands behind the last page that had one. |
| RoutingSync.Database.Crawl | app/sync/tasks.py:87-197 | The same from wherever the job was left. |
| RoutingSync.ResumeReadsTheRest | app/sync/tasks.py:87-197 | A failed crawl that is taken up at its cursor and goes through reads no row a second time: the rows counted by both are together those of the list, and in the table. |
| RoutingSync.CommitStoresPage | app/sync/tasks.py:132-161 | In every interleaving a commit stores the rows of the page fetched, under its provider and company, and changes no other. |
| RoutingSync.CommitMovesOn | app/sync/tasks.py:155-175 | It moves the job's cursor behind the page and counts its rows, or leaves the job alone if there are none; the worker goes on behind the page. |
| RoutingSync.JobsBeginAndEnd | app/sync/tasks.py:87-198 | How a job is created, given up, done and failed. |
| RoutingSync.OnlyCommitsMoveCursors | app/sync/tasks.py:87-198 | No other step moves a job's cursor or progress, and a worker takes a job up at its cursor. |
| RoutingSync.StepsKeepToTheirOwn | app/sync/tasks.py:87-198 | A step leaves other workers, other jobs and, but for commits and the writes of others, the table alone. |
| RoutingSync.PageMaps | app/sync/tasks.py:131-161 | A page's rows extend the mapped part of the list by the page, SIMs without an ICCID excepted. |
| RoutingSync.CursorsAreSafeAndDoneIsComplete | app/sync/tasks.py:87-189 | Whatever crashes, restarts and overlaps: everything before a persisted cursor is mapped, and a job that is done has every SIM with an ICCID mapped, to its provider and company unless others route that SIM too. |
| RoutingSync.MappedForGood | app/sync/tasks.py:142-150 | What is mapped stays mapped, and to the source unless others route it too. |
| RoutingSync.KiteCanBeCrawled | app/providers/kite/adapter.py:336-350 | Kite keeps the promise that the crawl relies on, from no cursor. |
| RoutingSync.MoabitsCanBeCrawled | app/providers/moabits/adapter.py:1476-1521 | So does Moabits. |
| RoutingSync.Tele2CanBeCrawled | app/sync/tasks.py:112-123 | So does Tele2 from the crawl's own cursor, as its pages always hold 50. |
| Enrichment.EnrichmentCache.CacheHits | app/providers/moabits/adapter.py:603-625 | The loop splits the ICCIDs into unexpired hits and the rest. |
| Enrichment.EnrichmentCache.CacheStore | app/providers/moabits/adapter.py:628-650 | Storing, after pruning what has expired from a large cache, keeps the cache sound and changes nothing else. |
| Enrichment.EnrichmentCache.FetchChunk | app/providers/moabits/adapter.py:744-816 | A chunk comes to its hits plus what was fetched of the rest, or the hits alone if the fetch failed; an answered one is remembered row by row for the time to live, no unexpired entry is lost, and a cache of more than 10,000 entries is rid of the expired ones. |
| Enrichment.EnrichmentCache.FetchEnrichment | app/providers/moabits/adapter.py:732-831 | The union over the chunks is the enrichment that the theorems are about, and each chunk leaves its answer in the cache for the next. |
| Enrichment.SecondLookupIsServed | app/providers/moabits/adapter.py:603-650 | Until the rows of an answered chunk expire, asking again gives each of them and fetches none, whatever becomes of the second fetch. |
| Enrichment.KeysDiffer | app/providers/moabits/adapter.py:597-600 | For one account, different routes and different ICCIDs never share a cache key. |
| Enrichment.PruningKeepsSound | app/providers/moabits/adapter.py:638-646 | Pruning drops nothing that could still be hit. |
| Enrichment.ChunksAreACut | app/providers/moabits/adapter.py:733-737 | The chunks are the list cut up: nothing lost, repeated or out of order, none empty or longer than the batch. |
| Enrichment.EnrichmentIsLookup | app/providers/moabits/adapter.py:716-831 | If no chunk fails, the result is the upstream restricted to the de-duplicated ICCIDs, for every batch size, time to live and sound state of the cache that each chunk may find. |
| Enrichment.EnrichmentDegradesGracefully | app/providers/moabits/adapter.py:716-831 | If chunks fail, the result is a part of that, and a row is missing only if its chunk failed and it was not in the cache. |
| SimListCache.SimLists.LookFirst | app/providers/moabits/adapter.py:420-427 | The look before the lock serves what the theorems say. |
| SimListCache.SimLists.LookAgain | app/providers/moabits/adapter.py:429-435 | The look under the lock serves, or starts the fetch. |
| SimListCache.SimLists.Store | app/providers/moabits/adapter.py:437-440 | The answer is kept for the time to live. |
| SimListCache.OneFetchInFlight | app/providers/moabits/adapter.py:429-440 | In every interleaving a key has at most one fetch in flight. |
| SimListCache.LockHeldIff | app/providers/moabits/adapter.py:429-440 | The lock of a key is held if and only if somebody is fetching it. |
| SimListCache.CallersMove | app/providers/moabits/adapter.py:420-440 | A caller who is not served waits, then fetches, and is out once it has the answer or gives up; the others stay. |
| SimListCache.FetchesAreSpaced | app/providers/moabits/adapter.py:430-439 | No fetch starts within the time to live of an earlier answer. |
| SimListCache.ServedIsRecent | app/providers/moabits/adapter.py:424-435 | A list served from the cache is the last answer and less than the time to live old. |
| SimListCache.RecentAnswerServesAll | app/providers/moabits/adapter.py:424-435 | While an answer is that recent every caller is served and nobody waits. |
| SimListCache.NothingKeptWithoutTtl | app/providers/moabits/adapter.py:420-440 | Without a time to live nothing is kept. |
| NegativeCache.NegativeIccids.IsHit | app/subscriptions/services/routing.py:96-104 | A hit is an unexpired entry; an expired one is dropped. |
| NegativeCache.NegativeIccids.RecordMiss | app/subscriptions/services/routing.py:107-115 | Recording makes room, then stores or updates in place. |
| NegativeCache.NegativeIccids.ForgetKey | app/subscriptions/services/routing.py:118-119 | Forgetting removes the entry. |
| NegativeCache.NeverTooLarge | app/subscriptions/services/routing.py:107-115 | After any history the cache holds at most 10,000 entries. |
| NegativeCache.HitIff | app/subscriptions/services/routing.py:96-119 | A key hits if and only if an unbounded table of the records would say so and the key was not forced out since it was last recorded. |
| NegativeCache.HitIsRecent | app/subscriptions/services/routing.py:96-119 | A hit means a record less than 60 seconds old and not forgotten since. |
| NegativeCache.NothingEvictedBelowCapacity | app/subscriptions/services/routing.py:109-114 | Nothing is forced out while fewer than 10,000 keys are ever recorded. |
| NegativeCache.ForcedOutIff | app/subscriptions/services/routing.py:107-115 | An entry is forced out if and only if another key is recorded while 10,000 entries are there, none of them expired, and it is the one that took its place first; recording a key again does not renew its place. |
| NegativeCache.EntryAfterStep | app/subscriptions/services/routing.py:96-119 | What each step leaves of each entry: a record sets it for 60 seconds, a full cache loses what has expired or the one forced out, a look drops an expired entry, forgetting drops it; nothing else changes. |
| Stats.Counters.Add | app/subscriptions/services/stats.py:30-43 | One SIM is counted under its status, its group and, if stale, as stale. |
| Stats.Counters.Collect | app/subscriptions/services/stats.py:97-118 | The counters come to the direct count of the filtered pages read, and partial means that the provider did not end within 100 pages. |
| Stats.Counters.MergeIn | app/subscriptions/services/stats.py:121-127 | The counters of both sides are added key by key. |
| Stats.AddSubCounts | app/subscriptions/services/stats.py:30-43 | Adding a SIM to the count of a list gives the count of the longer list. |
| Stats.StatusCountsAre | app/subscriptions/services/stats.py:30-43 | Under each status stands the number of SIMs that have it, under UNKNOWN that of those without one. |
| Stats.GroupCountsAre | app/subscriptions/services/stats.py:30-43 | Under each group the number of its SIMs. |
| Stats.StaleCountIs | app/subscriptions/services/stats.py:30-43 | Stale is the number of SIMs last seen before the threshold or never. |
| Stats.ShownOne | app/subscriptions/services/stats.py:105-117 | A SIM is counted if and only if it passes the filter. |
| Stats.EndOfReading | app/subscriptions/services/stats.py:105-117 | An empty cursor ends the reading like none; a failure raises. |
| Stats.CountsAddUp | app/subscriptions/services/stats.py:30-43 | Status counts and group counts each add up to the total, and stale is at most the total. |
| Stats.MergeCountsBoth | app/subscriptions/services/stats.py:121-127 | Merging two counts gives the count of the lists together. |
| Stats.NotPartialCountsAll | app/subscriptions/services/stats.py:105-117 | Statistics that are not partial have read the whole list; partial ones a prefix. |
| Stats.KitePartialIff | app/subscriptions/services/stats.py:26-27 | Kite's are partial if and only if there are 50,000 SIMs or more. |
| Stats.MoabitsPartialIff | app/subscriptions/services/stats.py:26-27 | Moabits' are partial if and only if there are more than 50,000. |
| Stats.Tele2PartialIff | app/subscriptions/services/stats.py:26-27 | Tele2's are partial if and only if there are more than 5,000. |
| Months.AddMonthsIsValid | app/providers/moabits/adapter.py:1038-1043 | The result is a date of the calendar, so many months on, and keeps the day if the month has it. |
| Months.AddMonthsFailsIff | app/providers/moabits/adapter.py:1038-1043 | There is no result if and only if the month counted to is outside the years 1 to 9999. |
| Months.AddMonthsIsMonotone | app/providers/moabits/adapter.py:1038-1043 | Later dates and more months never give an earlier date. |
| Months.AddMonthsToIsMonotoneIff | app/providers/moabits/adapter.py:1038-1043 | With the time of day this holds if and only if the two moments are not of one month, on days cut to the same last day, the first at a later hour. |
| Months.OneMonthCanReverse | app/providers/moabits/adapter.py:1038-1043 | Two concrete moments that change order. |
| Months.DayNumbersOrder | app/providers/moabits/adapter.py:1167-1172 | Day numbers order dates as the calendar does. |
| Months.NextDayNumber | app/providers/moabits/adapter.py:1167-1172 | They count days one by one. |
| Months.YearStarts | app/providers/moabits/adapter.py:1038-1043 | The days before each year, in closed form: the calendar is the Gregorian one. |
| Months.SixMonthsSpan | app/providers/moabits/adapter.py:1169 | Adding six months spans 181 to 184 days, for every start. |
| Months.AcceptedRanges | app/providers/moabits/adapter.py:1167-1172 | An accepted usage range spans at most 184 days, and a range of up to 181 days is never refused. |
| Months.AcceptedIff | app/providers/moabits/adapter.py:1167-1172 | A range is accepted if and only if it does not end before its start nor later than the same time of day six calendar months on. |
| Months.OverflowIff | app/providers/moabits/adapter.py:1167-1172 | The check breaks off if and only if the range does not end before its start and starts in the second half of the year 9999. |
| Details.SortRequest | app/subscriptions/routers/sims.py:511-537 | The loop sorts the ICCIDs into unresolved, filtered out and targets. |
| Details.FetchAll | app/subscriptions/routers/sims.py:539-587 | Every target gets its own result: a set-up failure, or what fetching it came to. |
| Details.Summarize | app/subscriptions/routers/sims.py:589-591 | The loop counts the results with each status. |
| Details.GetSimDetailsBatch | app/subscriptions/routers/sims.py:502-598 | The handler computes the response that the theorems are about, its errors included. |
| Details.WhichAnswerComes | app/subscriptions/routers/sims.py:502-537 | When each of the four answers comes: empty request, more than the largest batch (repeats counted), a lookup that breaks, details. |
| Details.IccidEndsUpOnce | app/subscriptions/routers/sims.py:511-598 | An ICCID of the request ends up in exactly one of results, unresolved and filtered out; any other in none. |
| Details.ListedOnce | app/subscriptions/routers/sims.py:511-529 | Nothing is listed twice. |
| Details.ListedInOrder | app/subscriptions/routers/sims.py:511-529 | Both lists keep the order of the request. |
| Details.CountsAddUp | app/subscriptions/routers/sims.py:589-591 | The five counts add up to the total, which is the number of results. |
| Details.CountsAreOfTheirStatus | app/subscriptions/routers/sims.py:589-591 | Each count is the number of results with its status. |
| Details.WhereAnIccidEndsUp | app/subscriptions/routers/sims.py:516-571 | What puts an ICCID where it ends up, and that one provider's failure leaves the others' results alone. |

## Left out

- HTTP, SOAP, TLS, the database driver, Redis, authentication, encryption and logging. A provider is a function from cursor and limit to a page or a failure, a table is a map with atomic commits, and storing the routes of listed SIMs cannot fail.
- Field mapping and normalisation of the providers' records; post-filters are an abstract predicate, status groups an abstract function.
- Titles, counts and statuses per provider in listing responses; which providers failed is in.
- The cursor decoder refuses some tokens that Python repairs or reads otherwise: characters outside the base64url alphabet, payload bytes outside ASCII, JSON values other than strings and null, and lone surrogates count as malformed. No token that the backend makes has any of them.
- `int()` of digits outside ASCII and of digits grouped by underscores.
- Paging.PageExtends and all run theorems take a provider's list as stable while the client pages on.
- Adapters.Tele2Meets: leaves out the checks on the time window; `Tele2Window` has them, with the clock.
- RoutingSync.Tele2CanBeCrawled: the same; `Tele2Window.CrawlEndsIff` has the crawl with them.
- RealSearch.SearchIsCompleteIff: the same, so it takes a start of the window that is given as one that Tele2 accepts on every page; `Tele2Window.PageOfWindow` says until when it does.
- RealAdmin.AdminIsCompleteIff: the same; and the limit is the same on every page.
- Stats.Tele2PartialIff: the same; `Tele2Window.StatisticsRaiseIff` has the statistics with them.
- RoutingSync.CursorsAreSafeAndDoneIsComplete: which route a SIM ends up with that imports or other companies' crawls also write is not determined; the last writer wins.
- Search.RunCoversStream: a selection that fixes its own cursor is outside, since it sends the same cursor on every page; `Search.OwnCursorNeverEnds` has what becomes of it.
- Limits of search pages: a zero share is sent, and the adapters raise it to 1.
- Search by ICCID over all providers, and search over admin credentials.
- Tele2's detail calls for the first devices of a page, and its retries.
- Rounding of floating point: times and rates are real numbers; a rate that is not a number is outside.
- RateLimiters.CallsNeverOverlap: takes asyncio's lock at its word, and so does `SimListCache.OneFetchInFlight`; what is proved is that every path through the code goes through the lock and leaves it.
- Liveness of idempotency keys and of crawls, and "one job in flight", which the code does not guarantee.
- Repeated ICCIDs within one page of a crawl, which the database refuses; a run may fail at any step.
- Enrichment.EnrichmentCache.FetchEnrichment: runs its chunks one after the other; the theorems are about any interleaving. Errors that are not swallowed abort the request.
- Keys of two different accounts that contain the separator and so collide in the enrichment cache.
- CRUD of users, companies and credentials.
