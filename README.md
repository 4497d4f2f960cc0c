# Display controller of the information screen

This project models the controller of the information-screen page of a
display system (`src/app/page.tsx`). The page sits in a public space. It
periodically fetches display records (`EventData`) for a chosen location and
keeps a snapshot of them. It classifies each record's media as an image, a
video or an embedded player. From the snapshot it derives two lists:

- the day's upcoming events, capped at five;
- the information articles, which rotate one at a time on a timer.

A footer ticker shows the events currently in progress.

The model is split into modules:

- `Records` (`records.dfy`) holds the values: `EventData`, `Lokasi`, the
  category, the media kind and the outcome of a fetch.
- `Seqs` (`seqs.dfy`) is the order-preserving filter that
  `Array.prototype.filter` performs.
- `Media` (`media.dfy`) is `classifyMedia`: the extension taken by
  `split('.').pop()`, lower-casing, the three kinds and the media URL. The URL
  is proved to carry back the id and the `type` value it was built from.
- `Derive` (`derive.dfy`) holds `filterUpcomingEvents`, which is a same-day
  filter followed by a stable sort by start time. It also holds the
  displayed-event and displayed-information derivations, `isEventOngoing` and
  the ticker.
- `Snapshot` (`snapshot.dfy`) holds the location filter of `pollData` and the
  loop that fills the id-keyed URL and kind tables (a later record with the
  same id overwrites an earlier one).
- `Rotation` (`rotation.dfy`) holds the rotation arithmetic. The advance is
  `(prev + 1) % n`. The module fixes the index after a new information list,
  the 60 s rotation dwell and the video dwell. It also models the index as a
  JavaScript number, which can become NaN.
- `DisplayController` (`display.dfy`) has the class `Display`. Its fields are
  the page's state variables plus the pending browser timeouts. Its methods
  are the transitions:
  - a poll result arriving;
  - a location being chosen;
  - the rotation timer firing;
  - a video's metadata loading;
  - unmounting.

  The class invariant `Valid` is kept by every transition of the corrected
  page; `HandleLoadedMetadataAsWritten`, which reproduces a defect, does not
  keep it. It says:
  - at most one rotation timer is pending, and the stored handle names it;
  - a timer is pending only while there is an article;
  - the index names an article whenever one exists.

Timestamps are integers counting milliseconds since the epoch. A `Clock`
value stands for `new Date()`: it holds the current time and the display's
offset from UTC. "Today" is the local calendar day `(t + offset) / 86400000`.

## Model

| member | source | states |
|---|---|---|
| Seqs.Filter | src/app/page.tsx:131-133 | The filter result is no longer than its input and holds exactly the input elements that satisfy the test. |
| Seqs.FilterCount | src/app/page.tsx:131-133 | Filtering keeps every occurrence of a selected element and drops all occurrences of the others (multiset count). |
| Media.LastSegment | src/app/page.tsx:155 | The extension is a dot-free suffix of the name, and the character just before it is a dot unless the extension is the whole name. |
| Media.LastSegmentUnique | src/app/page.tsx:155 | These three properties determine the extension uniquely. |
| Media.ExtensionAfterLastDot | src/app/page.tsx:155 | The extension of `stem.ext` is `ext` whenever `ext` contains no dot, whatever dots the stem holds. |
| Media.NoDotIsWholeName | src/app/page.tsx:155 | A name without a dot is its own extension. |
| Media.NatToString | src/app/page.tsx:158 | The decimal rendering of an id is a non-empty string of digits. |
| Media.IntToString | src/app/page.tsx:158 | The rendering of any integer id is non-empty and contains no `&`, so it cannot run into the next query parameter. |
| Media.IntToStringRoundTrip | src/app/page.tsx:158 | Parsing the rendered id gives the id back, so distinct ids give distinct URLs. |
| Media.IndexOf | src/app/page.tsx:158 | The first `&` of the query tail is located exactly: it is the first position holding the character. |
| Media.MediaUrlRoundTrip | src/app/page.tsx:158-164 | A media URL parses back to exactly the record id and the `type` value it was built from. |
| Media.ClassifyMedia | src/app/page.tsx:154-166 | A record is an image exactly when its lower-cased extension is jpg, jpeg or png, and a video exactly when it is mp4; every other media is an embedded player. The URL asks for `type=embed` for an embedded player and `type=file` otherwise. |
| Media.QueryRoundTrip | src/app/page.tsx:158 | The query tail `<id>&type=<value>` parses back to the id and the value. |
| Media.ClassifyMediaUrl | src/app/page.tsx:154-166 | The classified URL names the classified record, and it asks for `type=file` exactly when the kind is image or video (otherwise `type=embed`). |
| Media.ClassifyByExtension | src/app/page.tsx:155-165 | The kind of `stem.ext` depends only on the lower-cased `ext`: jpg, jpeg and png give image, mp4 gives video, anything else gives youtube. The URL carries the matching `type`. |
| Media.ClassifyDotless | src/app/page.tsx:155-165 | A dot-free name is classified by the whole name. |
| Derive.Insert | src/app/page.tsx:204 | Inserting one record adds exactly that record to the multiset of the list. |
| Derive.InsertSorted | src/app/page.tsx:204 | Inserting into a list sorted by start time keeps it sorted. |
| Derive.SortByStart | src/app/page.tsx:204 | The sort returns a permutation of its input, sorted by start time. |
| Derive.SortIsStable | src/app/page.tsx:204 | For every start time, the records with that start time keep their relative order. |
| Derive.FilterUpcomingEvents | src/app/page.tsx:200-205 | The result holds exactly the records starting on today's local date, sorted by start time. |
| Derive.FilterUpcomingEventsIsPermutation | src/app/page.tsx:200-205 | Each of today's records appears as often as in the snapshot, and no other record appears. |
| Derive.FilterUpcomingEventsIsStable | src/app/page.tsx:200-205 | Records of today with equal start times keep their snapshot order. Records starting on another day are absent. |
| Derive.FilterKeepsSorted | src/app/page.tsx:237-241 | Filtering a list sorted by start time keeps it sorted. |
| Derive.UpcomingOfCategory | src/app/page.tsx:237-249 | The result holds exactly today's records of the category that have not ended, sorted by start time. |
| Derive.UpcomingOfCategoryIsPermutation | src/app/page.tsx:237-249 | Each qualifying record appears as often as in the snapshot, and no other record appears. |
| Derive.DisplayedEvents | src/app/page.tsx:237-243 | The displayed events are the first min(5, n) of today's n events that have not ended, in start order. |
| Derive.DisplayedInformation | src/app/page.tsx:245-249 | The displayed information holds exactly today's information articles that have not ended, in start order. |
| Derive.OngoingEventIsPending | src/app/page.tsx:331-334 | An event in progress (`isEventOngoing`: started and not yet ended) is among the day's pending events exactly when it started today; one that began on an earlier day appears on the ticker only. |
| Derive.TickerLines | src/app/page.tsx:364-384 | The ticker is never empty. It is the single placeholder line when there is no snapshot or no event is in progress. Otherwise there is one line per event in progress, in snapshot order, each that event's description. |
| Snapshot.FilterByLocation | src/app/page.tsx:131-133 | A record is accepted exactly when one of its locations has the selected id. |
| Snapshot.FilterByLocationKeepsOrder | src/app/page.tsx:131-133 | The location filter works record by record: it distributes over concatenation and keeps or drops a single record, so it never reorders. |
| Snapshot.FilterByLocationIdempotent | src/app/page.tsx:131-133 | Filtering an accepted list again for the same location gives the same list. |
| Snapshot.IdTableKeys | src/app/page.tsx:138-144 | The URL and kind tables have exactly the snapshot's ids as keys. |
| Snapshot.IdTableLastWins | src/app/page.tsx:140-144 | The entry for an id is computed from the last record that carries that id. |
| Snapshot.IdTableOfUniqueIds | src/app/page.tsx:140-144 | With unique ids, every record's id maps to that record's own URL and kind. |
| Snapshot.BuildMediaTables | src/app/page.tsx:138-146 | The classification loop leaves the URL table and the kind table that the last-wins definitions describe. |
| Rotation.Remainder | src/app/page.tsx:287 | The remainder is below the divisor. It is the number itself below the divisor and one divisor less between one and two divisors. |
| Rotation.RemainderIsMod | src/app/page.tsx:287 | Repeated subtraction agrees with the `%` operator on non-negative numbers. |
| Rotation.Next | src/app/page.tsx:287 | One advance over a non-empty list stays in range. It moves to the next index and wraps from the last index to 0. |
| Rotation.AdvanceTimesIsShift | src/app/page.tsx:287 | Up to a full cycle, k advances move the index k places round the list. |
| Rotation.RotationIsCyclic | src/app/page.tsx:285-293 | After n advances the index is back where it started, and not before. |
| Rotation.RotationVisitsAll | src/app/page.tsx:285-293 | From any starting index, every article is reached within one cycle. |
| Rotation.IndexAfterNewInformation | src/app/page.tsx:251-257 | After a non-empty list arrives the index is in range: 0 for a lone article, otherwise `(prev + 1) % n`. An empty list leaves the index unchanged. |
| Rotation.RotationDwell | src/app/page.tsx:285-293 | The rotation dwell is 60 s for an embedded player and 60 s for every other kind. |
| Rotation.MetadataDwell | src/app/page.tsx:307-320 | A video stays for its duration when that is a non-zero number and for the 10 s fallback otherwise. The dwell is always positive. |
| Rotation.JsAdvance | src/app/page.tsx:287 | On JavaScript numbers the advance is NaN exactly when the index already is or the list is empty; otherwise it is `(prev + 1) % n`. |
| Rotation.JsIndexAfterNewInformation | src/app/page.tsx:251-257 | On a valid index the page's arithmetic agrees with `IndexAfterNewInformation`; a NaN index stays NaN unless a list of exactly one article arrives. |
| Rotation.NaNIndexPersists | src/app/page.tsx:287 | Once the index is NaN it stays NaN through any timer firings and new lists, unless a list of exactly one article arrives. |
| Rotation.EmptyListTimerStrandsIndex | src/app/page.tsx:262-293 | A timer armed while there is no information turns the index into NaN. Later lists of two or more articles never bring it back. |
| DisplayController.Cancel | src/app/page.tsx:280-283 | Cancelling a handle removes exactly the timers with that handle. |
| DisplayController.PollDecision | src/app/page.tsx:113-152 | The poll is ignored exactly when no location is chosen ("Default" counts as none) or when the filtered result equals the compared snapshot. The snapshot is emptied exactly on a failure with a location. An accepted list differs from the snapshot and is the location filter of the fetched records, in their order. |
| DisplayController.KindShownIsOwnKind | src/app/page.tsx:263-264 | With the kind table built from a snapshot of unique ids, the kind looked up for the article on screen is that article's own classification. |
| DisplayController.Display.constructor | src/app/page.tsx:60-76 | The page starts with nothing selected, no snapshot, empty tables and lists, index 0 and no timer, satisfying the invariant. |
| DisplayController.Display.LoadLocations | src/app/page.tsx:93-111 | A successful location fetch replaces the list. A failed fetch keeps it. |
| DisplayController.Display.ClearRotationTimer | src/app/page.tsx:280-283 | The timer named by the handle is cancelled and the handle is cleared. |
| DisplayController.Display.ArmRotationTimer | src/app/page.tsx:285-293 | A new timeout with a fresh handle is added, and the handle now names it. |
| DisplayController.Display.RunRotationEffect | src/app/page.tsx:262-301 | After the effect re-runs, exactly one timer is pending, with the dwell of the article on screen, when there is an article. Otherwise none is pending and the handle is cleared. The invariant is restored. |
| DisplayController.Display.DeriveLists | src/app/page.tsx:209-260 | The two lists are recomputed from the snapshot and the index follows the new information list. The index names an article whenever one exists. |
| DisplayController.Display.RunDerivations | src/app/page.tsx:209-260 | Beyond the new lists and index, the rotation effect re-runs exactly when the index, the list length or the kind table changed. Otherwise the timers are left as they were. |
| DisplayController.Display.AcceptSnapshot | src/app/page.tsx:135-146 | An accepted list becomes the snapshot. Both tables are rebuilt from it, the lists and index are re-derived, and one timer is armed for the article on screen. |
| DisplayController.Display.DropSnapshot | src/app/page.tsx:148-151 | A failure leaves an empty snapshot, empty lists, no pending timer and an unchanged index. The media tables are kept. |
| DisplayController.Display.PollAgainst | src/app/page.tsx:113-152 | A poll compared against a given snapshot value has one of three outcomes. If ignored, no state changes. If the fetch failed, the snapshot is emptied. Otherwise the new snapshot, tables, lists, index and timer are as the decision and the derivations fix them. The invariant holds. |
| DisplayController.Display.Poll | src/app/page.tsx:113-152 | Compared against the current snapshot, a re-poll of records equal to it changes nothing at all. An accepted poll gives the new snapshot, tables, lists and index, and the re-run rotation effect leaves exactly one timer for the article on screen, or none when there is no article. |
| DisplayController.Display.SelectLocation | src/app/page.tsx:352 | Choosing a location stores it. Choosing the same value again changes nothing. A new value without a snapshot changes nothing else. A new value with a snapshot re-derives the lists and index from it; if the index or the list length changed, the rotation effect re-runs and arms one timer when there is an article, otherwise the timers are kept. |
| DisplayController.Display.TimerFires | src/app/page.tsx:286-292 | The fired timer advances the index cyclically. A lone article gets no new timer. With more articles, one timer is re-armed for the new article. |
| DisplayController.Display.HandleLoadedMetadata | src/app/page.tsx:303-321 | When a video's metadata loads, exactly one timer remains pending: for the duration when it is usable, otherwise for 10 s. |
| DisplayController.Display.HandleLoadedMetadataAsWritten | src/app/page.tsx:303-321 | As the page has it, the usable-duration branch replaces the pending timer. The fallback branch adds a second timer beside it. |
| DisplayController.Display.Unmount | src/app/page.tsx:323-329 | Unmounting leaves no timer pending. |
| DisplayController.StalePollSkipsArticle | src/app/page.tsx:194-198 | An interval poll that compares against the stale snapshot `None` re-sets an unchanged snapshot. When there are two or more articles, the rotation jumps one article ahead. |
| DisplayController.OrphanedVideoTimer | src/app/page.tsx:315-320 | With an unusable duration, two timers with distinct handles are pending, and the handle names only the new one. |

## Left out

- Network access, `console` logging and `Intl` date/time formatting are not
  modelled. The clock tick (lines 79-90) is not modelled either. Fetch
  outcomes are parameters: `Fetched` and `LocationsFetched`.
- `Date` parsing is not modelled. Invalid dates and daylight-saving changes
  are out of scope: a record's times are integers, and "today" uses one fixed
  UTC offset. One `Clock` stands for every `new Date()` of a derivation.
- Video durations are floating point in the page. Here a duration is an
  optional whole number of milliseconds. `None` stands for an undefined or NaN
  duration; an infinite one is not modelled.
- `JSON.stringify` equality (line 135) is modelled as value equality of the
  record lists. The page compares the JSON text, and `waktu_mulai` and
  `waktu_selesai` arrive as date strings, while the model holds them as
  integer milliseconds. Two snapshots that write the same instant
  differently (`...:00Z` and `...:00.000Z`), or whose keys come in another
  order, differ in the page, which then replaces the snapshot and advances
  the index; in the model they are equal and the poll is ignored.
- The DOM is not modelled: `innerHTML`, the JSX rendering, `imageError` and
  `videoRef`. `fetchEmbedCode` (lines 169-192) and the duplicated `embedHtml`
  declaration (lines 71 and 75) are left out too. `fetchEmbedCode` only sets
  `embedHtml`, and nothing on the page reads it, so they feed no state the
  page uses.
- `src/app/coba/page.tsx` and `middleware.ts` (at the repository root) are not part of this model.
- Media.IntToString: renders every id in plain decimal; a template literal
  writes an id of 1e21 or more in exponent form (`1e+21`), which is not
  modelled.
- `Media.Lower` folds only the ASCII letters A to Z. `toLowerCase` also folds
  non-ASCII letters, but no media extension the classifier recognises
  contains one.
- Asynchrony is not modelled. A poll is one atomic transition, with no
  interleaving of two polls or of a poll and a timer. The page calls
  `setData` before awaiting the classification loop; the model sets the
  snapshot and both tables in one step.
- React's render batching is modelled as the effects running in dependency
  order after each transition.
- The 60 s poll interval itself (line 196) is not modelled. Each poll is a
  call to `Poll`, or to `PollAgainst` when the stale closure is meant.
- DisplayController.Display.RunRotationEffect: models the corrected effect
  in every run, not only the first. The page arms a 60 s timer in every run
  of the effect, also over an empty list (after a failed poll, after a
  snapshot with no information for today, and on mount). The class never
  does, so `Valid` (at most one pending timer, and none without an article)
  and the "no pending timer" clauses of `DropSnapshot` and `PollAgainst`
  describe the intended page (Findings 1 and 2). The page's behaviour over
  an empty list appears only in `Rotation.EmptyListTimerStrandsIndex` and
  `Rotation.RunAsWritten`.
- `Snapshot.BuildMediaTables` classifies each record through `UrlOf` and
  `KindOf`, the two halves of one `classifyMedia` result. The `await` on
  `classifyMedia` is not modelled.
- The dwell for images and other non-embedded media follows the code, which
  uses 60 s (lines 289-292), not a shorter image dwell.
- DisplayController.Display.TimerFires: a lone article is not re-armed after
  its timer fires. The index does not change, so the rotation effect does not
  re-run; this matches the page.

## Findings

| source | as written | input that shows it | evidently intended | confidence | as-written member | corrected member |
|---|---|---|---|---|---|---|
| src/app/page.tsx:285-293 | The rotation effect arms a 60 s timer even when there is no information article. When the timer fires, it sets the index to `(0 + 1) % 0`, which is NaN. `(NaN + 1) % n` stays NaN. | A poll outage longer than one period: a failed poll empties the snapshot, the effect arms a timer over the empty list, and it fires 60 s later. Opening the page and waiting 60 s before information arrives does the same. Lists of two or more articles then arrive, and no article is ever shown again. | Arm the rotation timer only while there is an article to rotate, so the index stays a valid position. | not executed | Rotation.EmptyListTimerStrandsIndex | DisplayController.Display.RunRotationEffect |
| src/app/page.tsx:315-320 | When the duration is unusable, `handleLoadedMetadata` arms the 10 s fallback without cancelling the pending timer. Two timers then advance the index, and the first of them can no longer be cancelled through the handle. | A video whose `duration` is NaN, while the rotation effect's 60 s timer is pending. | Cancel the pending timer in both branches, as the usable-duration branch does. | not executed | DisplayController.OrphanedVideoTimer | DisplayController.Display.HandleLoadedMetadata |
| src/app/page.tsx:194-198 | `setInterval(pollData, 60000)` keeps the `pollData` of the render in which the location changed. Every interval poll therefore compares against the snapshot of that render, not the current one. | Choose a location on a freshly opened page, with at least two information articles today and a backend that does not change. Every poll then re-sets an equal snapshot, re-runs the derivations and skips one article ahead. | Compare each poll against the current snapshot, so an unchanged backend changes nothing. | not executed | DisplayController.StalePollSkipsArticle | DisplayController.Display.Poll |
