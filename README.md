# GTD organiser — a Dafny model

This project models the core of a "Getting Things Done" task organiser and
proves properties of that model.

- **Server.** An HTTP server keeps, for each signed-in user, five collections of records: inbox items, projects, next actions, waiting-for items and someday/maybe ideas. It also keeps one weekly-review checklist per user. Every handler acts only on the caller's own records.
- **Client store.** A browser-side store caches the six resources. It calls the API first and changes its cache only when the call succeeds.
- **Screens.** Six screens read the cache and turn button presses into store calls:
  - the inbox clarify flow;
  - the weekly review;
  - waiting-for;
  - someday/maybe;
  - projects;
  - next actions.

## Layout

| file | module | models |
|---|---|---|
| `wrappers.dfy` | `Wrappers` | `Option`, `Result`, and `Update` (a patch field that is either left out or supplied) |
| `text.dfy` | `Text` | ECMAScript `String.prototype.trim` and JavaScript truthiness of strings |
| `seq_ops.dfy` | `SeqOps` | `filter`, `filter(...).length`, `find`, the index of the first match (used by `find` and by the store's first-match update and delete) and conditional `map` over lists, plus their laws |
| `gtd_types.dfy` | `GtdTypes` | the closed unions, record shapes, patches and constant tables of `src/types/gtd.ts` |
| `doc_store.dfy` | `DocStore` | the document store as the routes use it; the class `Collection` has `find/sort`, `insertOne`, `findOneAndUpdate`, `deleteOne` and `updateMany` |
| `crud_routes.dfy` | `CrudRoutes` | the list/insert/update/delete handler shape the five collection routes share |
| `inbox_routes.dfy`, `action_routes.dfy`, `waiting_for_routes.dfy`, `someday_routes.dfy`, `project_routes.dfy` | one module per route file | request validation, defaults, response shaping, and the project delete cascade |
| `review_routes.dfy` | `ReviewRoutes` | the per-user review record (class `ReviewCollection`) and its four handlers |
| `api.dfy` | `Api` | the requests the client sends, and how their bodies meet the server's validation |
| `gtd_store.dfy` | `GtdStore` | the client cache (class `Store`) and the pure updates it applies |
| `coherence.dfy` | `Coherence` | the client's cache updates agree with what the server does for the same request |
| `inbox_view.dfy`, `review_view.dfy`, `waiting_for_view.dfy`, `someday_view.dfy`, `projects_view.dfy`, `next_actions_view.dfy` | one module per screen | the screens' derived lists and counts, and their handlers (each screen's state is a class) |

**Modelling choices:**
- A collection is a sequence of documents in the store's natural order, not a map. This keeps `find({ userId })` a plain filter. It also makes `sort({ createdAt: -1 })` a newest-first permutation (an insertion sort proved sorted and a permutation).
- The invariant `Collection.Valid()` stands for the `_id` index: no two documents share an id.
- Whether a store call fails is a boolean parameter (`storeUp`). A failed call gives the 500 answer and changes nothing.
- The clock and the ids the store assigns are parameters. The creation time that is echoed back is a separate parameter (`echoNow`), because the source reads the clock a second time for it.
- In the client store, each API answer is a `Result` parameter. Each method returns the requests it sent, in order, and the error it rethrew. Each screen handler returns the store calls it makes, in the order it makes them.

## Model

| member | source | states |
|---|---|---|
| Text.Trim | src/components/inbox/Inbox.tsx:67-68 | the trimmed text is empty exactly when the input is all white space; otherwise it neither starts nor ends with white space; TrimIsSlice shows it is the slice of the input between its leading and trailing white space |
| Text.TrimIsSlice | src/components/inbox/Inbox.tsx:67-68 | what `trim` keeps is a slice of the input with only white space before and after it |
| Text.TrimIdempotent | src/components/inbox/Inbox.tsx:67-68 | trimming a trimmed string changes nothing |
| Text.FilledTrimIsTruthy | src/components/inbox/Inbox.tsx:67-68 | a field that passes the `trim()` guard sends a non-empty string, which the server's `!content` check accepts |
| Text.TrimStart | src/components/inbox/Inbox.tsx:67 | removes exactly a leading run of white space: what is left is a suffix that does not start with white space |
| Text.TrimEnd | src/components/inbox/Inbox.tsx:67 | removes exactly a trailing run of white space: what is left is a prefix that does not end with white space |
| SeqOps.Filter | src/components/waiting/WaitingFor.tsx:70-71 | the result holds exactly the passing elements, no more of each than the input has, and its length is their count |
| SeqOps.IndexOf | src/store/gtdStore.ts:226 | no element before the index passes; the element at the index passes, unless no element passes and the index is the length |
| SeqOps.Find | src/store/gtdStore.ts:226 | finds nothing exactly when no element passes; otherwise finds the first passing element: every element before it fails |
| SeqOps.CountComplement | src/components/review/Review.tsx:36-37 | a test and its negation split a list's length |
| SeqOps.CountAll | src/components/review/Review.tsx:29-31 | the count equals the length exactly when every element passes |
| SeqOps.CountAppend | src/store/gtdStore.ts:117-119 | counts over a concatenation add up |
| SeqOps.CountMonotone | src/components/actions/NextActions.tsx:166-167 | a stronger test never counts more |
| SeqOps.FilterAppend | src/store/gtdStore.ts:117-119 | filtering a concatenation filters each part |
| SeqOps.FilterAll | src/components/someday/Someday.tsx:59-62 | a filter everything passes returns the list unchanged |
| SeqOps.FilterNone | src/components/projects/Projects.tsx:63-67 | a filter nothing passes returns the empty list |
| SeqOps.FilterDropsOne | src/store/gtdStore.ts:143-145 | a filter that rejects exactly one position removes that element and keeps the order of the rest |
| SeqOps.FilterSameKept | src/components/projects/Projects.tsx:63-67 | lists that agree on which positions pass, and on the elements there, filter to the same list |
| SeqOps.FilterFilter | src/components/actions/NextActions.tsx:45-49 | filtering first by a weaker test does not change a later filter by a stronger one |
| SeqOps.FilterMapWhere | src/store/gtdStore.ts:183-191 | a conditional map that only touches elements a later filter drops, and keeps every element on the same side of it, is invisible through the filter |
| SeqOps.CountNone | src/components/actions/NextActions.tsx:166-167 | a test nothing passes counts zero |
| SeqOps.CountSplit | src/components/actions/NextActions.tsx:166-167 | counting by the union of two disjoint tests adds the two counts |
| SeqOps.CountOfFilter | src/components/actions/NextActions.tsx:166-167 | counting what a filter kept by a second test is counting by both tests at once |
| SeqOps.SumKeyCounts | src/components/someday/Someday.tsx:169-177 | with distinct keys, the badges add up to the number of elements whose key has a tab |
| SeqOps.SumKeyCountsIsLength | src/components/someday/Someday.tsx:169-177 | when every key has a tab, the badges add up to the list's length |
| GtdTypes.ParseContext | src/types/gtd.ts:2-8 | a recognised string is the wire form of the context it parses to |
| GtdTypes.ParseStatus | src/types/gtd.ts:9 | a recognised string is the wire form of the status it parses to |
| GtdTypes.ParseCategory | src/types/gtd.ts:10-15 | a recognised string is the wire form of the category it parses to |
| GtdTypes.UnionsRoundTrip | src/types/gtd.ts:2-15 | each union member's wire string parses back to that member |
| GtdTypes.StatusUnionIsExactly | src/types/gtd.ts:9 | a status string is valid exactly when it is `active`, `completed` or `on-hold` |
| GtdTypes.ContextsTable | src/types/gtd.ts:65-72 | six rows; every context listed once; `@anywhere` at index 5 |
| GtdTypes.CategoriesTable | src/types/gtd.ts:74-80 | five rows; every category listed once, `other` among them |
| DocStore.InsertByDate | server/routes/inbox.ts:17-21 | inserting into a newest-first list keeps it newest first and adds exactly that document |
| DocStore.SortNewestFirst | server/routes/inbox.ts:20 | `sort({ createdAt: -1 })` yields a newest-first permutation of its input |
| DocStore.FindSorted | server/routes/inbox.ts:17-21 | exactly the caller's documents, newest first, each once |
| DocStore.UpdateOwnedWhere | server/routes/projects.ts:128-133 | `updateMany` applies `$set` to exactly the caller's documents that pass the selector; every id, owner and creation time is kept, every other document is untouched, and every other user's documents list as before |
| DocStore.InsertThenFind | server/routes/inbox.ts:48-53 | an insert adds the document to its owner's listing and leaves every other user's listing unchanged |
| DocStore.DeleteIsolation | server/routes/inbox.ts:113-116 | a delete never changes another user's documents or listing |
| DocStore.DeleteRemovesExactly | server/routes/inbox.ts:113-120 | with no match nothing is removed; otherwise exactly the matching document goes and the order of the rest is kept |
| DocStore.DeleteAt | server/routes/inbox.ts:113-116 | the single match at position `k` is the one document removed |
| DocStore.UpdateIsolation | server/routes/inbox.ts:80-86 | an update never changes another user's documents |
| DocStore.UpdateChangesOnlyMatch | server/routes/inbox.ts:80-90 | with no match nothing changes; otherwise only the matching document is merged, ids stay unique, and every id, owner and creation time is kept |
| DocStore.DeleteKeepsUnique | server/routes/inbox.ts:113-116 | deleting keeps ids unique |
| DocStore.FilterKeepsUnique | server/routes/inbox.ts:113-116 | any filter keeps ids unique |
| DocStore.Collection.constructor | server/routes/inbox.ts:48-53 | a new collection is empty, so its ids are unique |
| DocStore.Collection.FindByOwner | server/routes/inbox.ts:17-21 | answers the caller's documents newest first, or fails when the store is down |
| DocStore.Collection.InsertOne | server/routes/inbox.ts:48-53 | succeeds exactly when the store is up and the id is new; on success appends the document and answers its id; otherwise nothing changes |
| DocStore.Collection.FindOneAndUpdate | server/routes/inbox.ts:80-86 | merges into the caller's matching document and answers it as updated; fails with no change when the store is down |
| DocStore.Collection.DeleteOne | server/routes/inbox.ts:113-118 | removes the matching document and answers a count of 1 or 0 |
| DocStore.Collection.UpdateMany | server/routes/projects.ts:128-133 | rewrites the caller's selected documents, or fails with no change |
| CrudRoutes.Listing | server/routes/inbox.ts:17-29 | one item per document the caller owns, each the view of such a document |
| CrudRoutes.ListingNewestFirst | server/routes/inbox.ts:17-29 | when the view keeps `createdAt`, items are newest first and every owned document appears |
| CrudRoutes.List | server/routes/inbox.ts:12-35 | answers the listing, or 500 when the store fails |
| CrudRoutes.Insert | server/routes/inbox.ts:47-68 | 201 with the echoed item and the document appended, or 500 with no change |
| CrudRoutes.Update | server/routes/inbox.ts:73-104 | 500 with no change if the store fails; 404 with no change when no document matches both id and owner; otherwise the merged document |
| CrudRoutes.UpdatedIsFirstMatch | server/routes/inbox.ts:80-86 | after an update, the document found by id and owner is the merged version of the one found before |
| CrudRoutes.IndexOfSameTests | server/routes/inbox.ts:80-86 | lists that pass the same test position by position have the same first match |
| CrudRoutes.Delete | server/routes/inbox.ts:107-127 | 500 if the store fails; 404 with no change when nothing matches; otherwise exactly the matching document is removed |
| InboxRoutes.View | server/routes/inbox.ts:24-29 | the item carries the document's id, content, creation time and processed flag |
| InboxRoutes.NewFields | server/routes/inbox.ts:43-53 | rejected exactly when `content` is falsy; otherwise stores that content, not processed |
| InboxRoutes.MergeReplacesSupplied | server/routes/inbox.ts:84 | `$set` replaces exactly the supplied fields; an empty patch changes nothing |
| InboxRoutes.List | server/routes/inbox.ts:12-35 | exactly the caller's items, newest first; 500 on failure |
| InboxRoutes.Create | server/routes/inbox.ts:38-70 | 400 and nothing stored for falsy content; otherwise 201 with a new unprocessed item owned by the caller exactly when the store is up and the id is new, else 500 with no change |
| InboxRoutes.Update | server/routes/inbox.ts:73-104 | merges only into the caller's item with that id; 404 and no change otherwise |
| InboxRoutes.Delete | server/routes/inbox.ts:107-127 | removes only the caller's item with that id; 404 when there is none |
| ActionRoutes.View | server/routes/actions.ts:22-30 | the item carries every stored field |
| ActionRoutes.NewFields | server/routes/actions.ts:42-57 | rejected exactly when `content` is falsy; context defaults to `@anywhere`, project and due date to null; not completed |
| ActionRoutes.List | server/routes/actions.ts:11-36 | exactly the caller's actions, newest first |
| ActionRoutes.Create | server/routes/actions.ts:39-74 | 400 for falsy content; otherwise 201 with the new action owned by the caller exactly when the store is up and the id is new, else 500 with no change |
| ActionRoutes.MergeReplacesSupplied | server/routes/actions.ts:86 | `$set` gives each supplied field the request's value and keeps every omitted field; an empty patch changes nothing |
| ActionRoutes.Update | server/routes/actions.ts:77-109 | merges only into the caller's matching action, else 404 with no change |
| ActionRoutes.Delete | server/routes/actions.ts:112-132 | removes only the caller's matching action, else 404 |
| WaitingForRoutes.CompletedOrFalse | server/routes/waitingFor.ts:29 | `completed ?? false` is true only for a stored `true` |
| WaitingForRoutes.View | server/routes/waitingFor.ts:23-30 | the item carries the stored fields; a missing `completed` reads as false |
| WaitingForRoutes.NewFields | server/routes/waitingFor.ts:43-63 | rejected unless both content and person are truthy; project and date default to null; stored as not completed |
| WaitingForRoutes.CompletedReadsBack | server/routes/waitingFor.ts:112 | a new item reads back as not completed, and a patch's `completed` reads back exactly |
| WaitingForRoutes.List | server/routes/waitingFor.ts:11-37 | exactly the caller's items, newest first |
| WaitingForRoutes.Create | server/routes/waitingFor.ts:40-83 | 400 unless content and person are both truthy; otherwise 201 with the new item exactly when the store is up and the id is new, else 500 with no change |
| WaitingForRoutes.MergeReplacesSupplied | server/routes/waitingFor.ts:97 | `$set` gives each supplied field the request's value (a supplied `completed` is stored as present) and keeps every omitted field; an empty patch changes nothing |
| WaitingForRoutes.Update | server/routes/waitingFor.ts:86-120 | merges only into the caller's matching item, else 404 |
| WaitingForRoutes.Delete | server/routes/waitingFor.ts:123-143 | removes only the caller's matching item, else 404 |
| SomedayRoutes.View | server/routes/somedayMaybe.ts:23-28 | the item carries the stored fields |
| SomedayRoutes.NewFields | server/routes/somedayMaybe.ts:40-53 | rejected exactly when content is falsy; the category defaults to `other` |
| SomedayRoutes.List | server/routes/somedayMaybe.ts:11-34 | exactly the caller's ideas, newest first |
| SomedayRoutes.Create | server/routes/somedayMaybe.ts:37-69 | 400 for falsy content; otherwise 201 with the new idea exactly when the store is up and the id is new, else 500 with no change |
| SomedayRoutes.MergeReplacesSupplied | server/routes/somedayMaybe.ts:83 | `$set` gives each supplied field the request's value and keeps every omitted field; an empty patch changes nothing |
| SomedayRoutes.Update | server/routes/somedayMaybe.ts:72-103 | merges only into the caller's matching idea, else 404 |
| SomedayRoutes.Delete | server/routes/somedayMaybe.ts:106-126 | removes exactly the caller's matching idea, else 404 |
| ProjectRoutes.View | server/routes/projects.ts:23-29 | the item carries the stored fields |
| ProjectRoutes.NewFields | server/routes/projects.ts:41-54 | rejected exactly when the name is falsy; the description defaults to `''` and the status is `active` |
| ProjectRoutes.List | server/routes/projects.ts:11-35 | exactly the caller's projects, newest first |
| ProjectRoutes.Create | server/routes/projects.ts:38-72 | 400 and nothing stored for a falsy name; otherwise 201 with the new active project exactly when the store is up and the id is new, else 500 with no change |
| ProjectRoutes.MergeReplacesSupplied | server/routes/projects.ts:86 | `$set` gives each supplied field the request's value and keeps every omitted field; an empty patch changes nothing |
| ProjectRoutes.Update | server/routes/projects.ts:75-107 | merges only into the caller's matching project, else 404 and no change |
| ProjectRoutes.UnlinkActionsKeepsRecords | server/routes/projects.ts:128-130 | the cascade keeps every action; the caller's actions on that project lose the link, and every other action is untouched |
| ProjectRoutes.UnlinkWaitingKeepsRecords | server/routes/projects.ts:131-133 | the same for waiting-for items |
| ProjectRoutes.Delete | server/routes/projects.ts:110-140 | 404 or 500 with no change and no cascade when the delete does not happen; otherwise the project goes, then actions, then waiting-for items are unlinked; a later failure answers 500 and keeps the earlier steps |
| ReviewRoutes.Unchecked | server/routes/review.ts:12 | seven unchecked steps |
| ReviewRoutes.ApplySet | server/routes/review.ts:52-58 | `$set` replaces exactly the supplied fields |
| ReviewRoutes.Shape | server/routes/review.ts:60-66 | a missing field is answered as null, 0 or seven unchecked steps; a present one as stored |
| ReviewRoutes.DefaultReviewFitsChecklist | server/routes/review.ts:9-13 | the default has as many steps as the checklist and answers as null, step 0, all unchecked |
| ReviewRoutes.Checked | server/routes/review.ts:113-114 | the copy has the step checked and every other entry as before; a step past the end grows the array, and the gap reads unchecked |
| ReviewRoutes.CheckedIdempotent | server/routes/review.ts:113-114 | checking a step twice is checking it once |
| ReviewRoutes.CopyAndCheck | server/routes/review.ts:113-114 | the array the loop fills in place equals `Checked` of the stored steps |
| ReviewRoutes.AfterStep | server/routes/review.ts:116-131 | the last review date is kept, the current step becomes step + 1, and the steps are `Checked` |
| ReviewRoutes.StepOrderNotEnforced | server/routes/review.ts:116-124 | completing a step twice gives the same record, and completing an earlier step moves the current step backwards |
| ReviewRoutes.SevenStepsComplete | server/routes/review.ts:102-114 | every valid step keeps seven entries, and checking all seven checks everything |
| ReviewRoutes.ReviewCollection.constructor | server/routes/review.ts:21 | no user has a review record yet |
| ReviewRoutes.ReviewCollection.Get | server/routes/review.ts:16-43 | answers the stored record; with none, stores and answers the default; 500 with no change on failure |
| ReviewRoutes.ReviewCollection.Put | server/routes/review.ts:46-71 | upserts the supplied fields and answers the shaped record |
| ReviewRoutes.ReviewCollection.Start | server/routes/review.ts:74-94 | whatever was stored, the record becomes: started now, step 0, all unchecked |
| ReviewRoutes.ReviewCollection.CompleteStep | server/routes/review.ts:97-137 | 400 with no change for a missing or out-of-range step; 404 with no record; otherwise `AfterStep` |
| Api.CreateBodiesAccepted | server/routes/waitingFor.ts:43-63 | the client's create requests pass server validation exactly when their required strings are non-empty, and the server then stores what was sent |
| GtdStore.InitialReview | src/store/gtdStore.ts:65-69 | no review date, step 0, seven unchecked steps |
| GtdStore.Without | src/store/gtdStore.ts:143-145 | exactly the cached records with another id remain |
| GtdStore.Replaced | src/store/gtdStore.ts:130-132 | same length; only records with that id are rewritten |
| GtdStore.WithoutRemovesOne | src/store/gtdStore.ts:143-145 | with distinct ids, a delete removes exactly one record and keeps the order of the rest |
| GtdStore.ReplacedKeepsIds | src/store/gtdStore.ts:170-172 | an update that keeps ids keeps ids distinct |
| GtdStore.MarkProcessed | src/store/gtdStore.ts:130-132 | the item becomes processed, with everything else kept |
| GtdStore.PatchProject | src/store/gtdStore.ts:170-172 | the spread `{ ...item, ...updates }`: each supplied field takes the patch's value, each omitted field keeps the record's; id and creation time are kept; an empty patch changes nothing |
| GtdStore.PatchAction | src/store/gtdStore.ts:215-217 | the spread `{ ...item, ...updates }`: each supplied field takes the patch's value, each omitted field keeps the record's; id and creation time are kept; an empty patch changes nothing |
| GtdStore.PatchWaiting | src/store/gtdStore.ts:271-273 | the spread `{ ...item, ...updates }`: each supplied field takes the patch's value, each omitted field keeps the record's; id and creation time are kept; an empty patch changes nothing |
| GtdStore.PatchSomeday | src/store/gtdStore.ts:327-329 | the spread `{ ...item, ...updates }`: each supplied field takes the patch's value, each omitted field keeps the record's; id and creation time are kept; an empty patch changes nothing |
| GtdStore.ToggleAction | src/store/gtdStore.ts:229-234 | flips `completed` and nothing else |
| GtdStore.ToggleWaiting | src/store/gtdStore.ts:297-302 | the same as ToggleAction, for waiting-for items |
| GtdStore.ToggleTwiceRestores | src/store/gtdStore.ts:225-240 | toggling the same id twice restores the list |
| GtdStore.UnlinkedActions | src/store/gtdStore.ts:186-188 | every action is kept; none still points at the project; only the linked ones changed |
| GtdStore.UnlinkedWaiting | src/store/gtdStore.ts:189-191 | the same for waiting-for items |
| GtdStore.AppendBreaksNewestFirst | src/store/gtdStore.ts:117-119 | appending a record newer than the first cached one leaves the cache out of the server's newest-first order |
| GtdStore.Store.constructor | src/store/gtdStore.ts:71-80 | empty collections, `initialReview`, neither loading nor initialised |
| GtdStore.Store.InitializeData | src/store/gtdStore.ts:83-111 | a no-op once initialised; otherwise the six reads, then every collection replaced (a missing review gives `initialReview`); on failure only `isLoading` is reset |
| GtdStore.Store.AddToInbox | src/store/gtdStore.ts:114-124 | the created item is appended and nothing else changes; a failure changes nothing and rethrows |
| GtdStore.Store.ProcessInboxItem | src/store/gtdStore.ts:126-138 | only the item with that id is marked processed |
| GtdStore.Store.DeleteInboxItem | src/store/gtdStore.ts:140-150 | only items with that id leave the cache |
| GtdStore.Store.AddProject | src/store/gtdStore.ts:153-164 | the description defaults to `''`; the project is appended and its id answered |
| GtdStore.Store.UpdateProject | src/store/gtdStore.ts:166-178 | only the project with that id is patched |
| GtdStore.Store.DeleteProject | src/store/gtdStore.ts:180-196 | the project leaves; actions and waiting-for items are kept with the link cleared |
| GtdStore.Store.AddAction | src/store/gtdStore.ts:199-209 | the created action is appended |
| GtdStore.Store.UpdateAction | src/store/gtdStore.ts:211-223 | only the action with that id is patched |
| GtdStore.Store.ToggleActionComplete | src/store/gtdStore.ts:225-240 | nothing for an absent id; otherwise sends the flipped flag and flips that action only |
| GtdStore.Store.DeleteAction | src/store/gtdStore.ts:242-252 | only actions with that id leave the cache |
| GtdStore.Store.AddWaitingFor | src/store/gtdStore.ts:255-265 | the created item is appended |
| GtdStore.Store.UpdateWaitingFor | src/store/gtdStore.ts:267-279 | only the item with that id is patched |
| GtdStore.Store.DeleteWaitingFor | src/store/gtdStore.ts:281-291 | only items with that id leave the cache |
| GtdStore.Store.ToggleWaitingForComplete | src/store/gtdStore.ts:293-308 | nothing for an absent id; otherwise flips that item only |
| GtdStore.Store.AddSomedayMaybe | src/store/gtdStore.ts:311-321 | the created idea is appended |
| GtdStore.Store.UpdateSomedayMaybe | src/store/gtdStore.ts:323-335 | only the idea with that id is patched |
| GtdStore.Store.DeleteSomedayMaybe | src/store/gtdStore.ts:337-347 | only ideas with that id leave the cache |
| GtdStore.Store.MoveSomedayToAction | src/store/gtdStore.ts:349-367 | nothing for an absent id; otherwise an action with the idea's content is created, and the delete is sent only if that succeeded; the cache changes only when both succeed |
| GtdStore.Store.MoveSomedayToWaitingFor | src/store/gtdStore.ts:369-387 | the same, creating a waiting-for with no project |
| GtdStore.Store.StartReview | src/store/gtdStore.ts:390-398 | the cache takes the server's review |
| GtdStore.Store.CompleteReviewStep | src/store/gtdStore.ts:400-408 | the cache takes the server's review |
| GtdStore.Store.ResetReview | src/store/gtdStore.ts:410-418 | sends `initialReview` and caches it |
| Coherence.ProcessAgrees | src/store/gtdStore.ts:126-138 | marking processed in the cache gives what the server answers for `{ processed: true }` |
| Coherence.ProjectPatchAgrees | src/store/gtdStore.ts:166-178 | the cached patch equals the server's merged project |
| Coherence.ActionPatchAgrees | src/store/gtdStore.ts:211-223 | the cached patch equals the server's merged action |
| Coherence.WaitingPatchAgrees | src/store/gtdStore.ts:267-279 | the cached patch equals the server's merged item, even without a stored `completed` |
| Coherence.SomedayPatchAgrees | src/store/gtdStore.ts:323-335 | the cached patch equals the server's merged idea |
| Coherence.ToggleAgrees | src/store/gtdStore.ts:225-240 | the patch a toggle sends flips the flag on the server as the cache flips it |
| Coherence.UnlinkAgrees | src/store/gtdStore.ts:180-196 | the server cascade and the cache clear the same link in the same way |
| InboxView.Unprocessed | src/components/inbox/Inbox.tsx:62 | exactly the unprocessed items are listed |
| InboxView.Filing | src/components/inbox/Inbox.tsx:79-124 | no record is filed exactly for trash, "do it now" and a blank delegate; any record filed carries the item's text |
| InboxView.Selected | src/components/inbox/Inbox.tsx:63 | a found item is in the inbox with the selected id; a held id is always found |
| InboxView.Clarify | src/components/inbox/Inbox.tsx:79-124 | trash and "do it now" only delete; every other decision files one record with the item's content, then marks the item processed and deletes it; delegating to a blank person does nothing |
| InboxView.UnprocessedPartition | src/components/inbox/Inbox.tsx:62 | listed and processed items split the inbox |
| InboxView.InboxScreen.constructor | src/components/inbox/Inbox.tsx:42-51 | empty text, nothing selected, the flow at "actionable?", `@anywhere`, `other`, no person |
| InboxView.InboxScreen.HandleAddItem | src/components/inbox/Inbox.tsx:65-71 | captures the trimmed text when not blank and clears the field; otherwise nothing |
| InboxView.InboxScreen.OpenProcessDialog | src/components/inbox/Inbox.tsx:73-77 | the flow restarts at "actionable?" for that item |
| InboxView.InboxScreen.ConfirmActionable | src/components/inbox/Inbox.tsx:227 | on to the two-minute question, with no store call |
| InboxView.InboxScreen.HandleNotActionable | src/components/inbox/Inbox.tsx:79-90 | nothing without a selected item; trash only deletes; someday files, then marks processed and deletes |
| InboxView.InboxScreen.HandleTwoMinute | src/components/inbox/Inbox.tsx:92-102 | "do it now" deletes only; "no" moves to organize with no call |
| InboxView.InboxScreen.HandleOrganize | src/components/inbox/Inbox.tsx:104-116 | an action in the chosen context, or a waiting-for with no project, then processed and deleted; the person field is cleared |
| InboxView.InboxScreen.HandleCreateProject | src/components/inbox/Inbox.tsx:118-124 | a project named after the item, then processed and deleted |
| InboxView.InboxScreen.ProcessItem | src/components/inbox/Inbox.tsx:73-124 | walking the dialog for a listed item makes exactly the calls `Clarify` prescribes |
| InboxView.InboxScreen.AnswerNotActionable | src/components/inbox/Inbox.tsx:79-90 | from the "not actionable" page, trash or someday makes the calls `Clarify` prescribes |
| InboxView.InboxScreen.AnswerActionable | src/components/inbox/Inbox.tsx:92-124 | from the two-minute page, and then the organize page, each answer makes the calls `Clarify` prescribes |
| ReviewView.CheckedCount | src/components/review/Review.tsx:29 | never more than the number of steps |
| ReviewView.CompleteIffAllChecked | src/components/review/Review.tsx:29-31 | with seven entries, complete exactly when every step is checked |
| ReviewView.HeaderCall | src/components/review/Review.tsx:106-116 | Start when no review is under way or it is complete; Reset otherwise |
| ReviewView.OnCheck | src/components/review/Review.tsx:150-157 | a call is made exactly when the review is open, under way, the step is not past the current one, and not yet checked |
| ReviewView.GatingKeepsOrder | src/components/review/Review.tsx:150-157 | from an in-order review only the current step can be ticked, it is in 0..6, and the result stays in order |
| ReviewView.StartedReviewInOrder | src/components/review/Review.tsx:106-116 | a freshly started review is in order and incomplete, and the header then offers Reset |
| ReviewView.ReviewStats | src/components/review/Review.tsx:33-40 | each stat is the count of its own test: unprocessed inbox items, active projects, unfinished and finished actions, all waiting-for items and ideas; unfinished and finished actions add up to all actions |
| WaitingForView.ActiveItems | src/components/waiting/WaitingFor.tsx:70 | exactly the open items |
| WaitingForView.CompletedItems | src/components/waiting/WaitingFor.tsx:71 | exactly the done items |
| WaitingForView.ActiveCompletedPartition | src/components/waiting/WaitingFor.tsx:70-71 | every item is in exactly one list and the sizes add up |
| WaitingForView.FollowUpText | src/components/waiting/WaitingFor.tsx:90 | the text starts with the prefix "Follow up: " and continues with exactly the item's text |
| WaitingForView.ConvertTextFilled | src/components/waiting/WaitingFor.tsx:88-100 | the pre-filled text is never blank, so confirming it unedited converts |
| WaitingForView.WaitingForScreen.constructor | src/components/waiting/WaitingFor.tsx:44-60 | every form field empty, no item being converted, the convert context `@anywhere` |
| WaitingForView.WaitingForScreen.HandleAddItem | src/components/waiting/WaitingFor.tsx:73-86 | needs non-blank text and person; sends both trimmed, with no project and the chosen date or none; clears the form |
| WaitingForView.WaitingForScreen.OpenConvertDialog | src/components/waiting/WaitingFor.tsx:88-93 | pre-fills "Follow up: …" and `@anywhere` |
| WaitingForView.WaitingForScreen.HandleConvertToAction | src/components/waiting/WaitingFor.tsx:95-108 | an action with the item's project and no due date, then the item is deleted; nothing for blank text |
| WaitingForView.WaitingForScreen.OpenFollowUpDialog | src/components/waiting/WaitingFor.tsx:110-115 | starts from the item's person, with empty text and no date |
| WaitingForView.WaitingForScreen.HandleCreateFollowUp | src/components/waiting/WaitingFor.tsx:117-130 | a new waiting-for with no project; the original is kept |
| SomedayView.FilteredItems | src/components/someday/Someday.tsx:59-62 | everything for "all"; otherwise exactly the ideas of that category |
| SomedayView.CategoryCounts | src/components/someday/Someday.tsx:174-177 | one badge per category |
| SomedayView.CategoryBadgesAddUp | src/components/someday/Someday.tsx:169-177 | each badge is the length of its tab's list, and the badges add up to the "all" badge |
| SomedayView.SomedayScreen.constructor | src/components/someday/Someday.tsx:36-49 | nothing selected, empty text, category `other`, context `@anywhere`, no category tab chosen |
| SomedayView.SomedayScreen.HandleAddItem | src/components/someday/Someday.tsx:64-71 | non-blank text is sent trimmed; text and category reset to empty and `other` |
| SomedayView.SomedayScreen.OpenMoveDialog | src/components/someday/Someday.tsx:73-76 | selects the idea and keeps the previous context |
| SomedayView.SomedayScreen.OpenDelegateDialog | src/components/someday/Someday.tsx:78-83 | selects the idea and clears the person and date |
| SomedayView.SomedayScreen.HandleMoveToAction | src/components/someday/Someday.tsx:85-91 | only with a selection: moves it with the chosen context and no project |
| SomedayView.SomedayScreen.HandleDelegate | src/components/someday/Someday.tsx:93-105 | needs a selection and a non-blank person; sends the trimmed person and the date or none |
| ProjectsView.FilteredProjects | src/components/projects/Projects.tsx:59-61 | all projects for "all"; otherwise exactly those with that status |
| ProjectsView.StatusCounts | src/components/projects/Projects.tsx:172-174 | one badge per status button |
| ProjectsView.StatusBadgesAddUp | src/components/projects/Projects.tsx:162-174 | each badge is the number its button shows, and they add up to the "all" badge |
| ProjectsView.ProjectActions | src/components/projects/Projects.tsx:63-64 | exactly the actions linked to the project |
| ProjectsView.ProjectWaiting | src/components/projects/Projects.tsx:66-67 | exactly the waiting-for items linked to the project |
| ProjectsView.Progress | src/components/projects/Projects.tsx:191-192 | done is the number of the project's actions that are finished, total the number of its actions, and done ≤ total |
| ProjectsView.UnlinkEmptiesOnlyThatProject | src/components/projects/Projects.tsx:63-67 | after the store's delete cascade, the deleted project's card lists nothing and every other card is unchanged |
| ProjectsView.SetStatusCall | src/components/projects/Projects.tsx:240 | the status button's patch changes the status and nothing else |
| ProjectsView.FieldFilledIffTyped | src/components/projects/Projects.tsx:97 | a per-project field counts as filled exactly when something other than white space was typed into it, and is then sent without surrounding white space |
| ProjectsView.ProjectsScreen.constructor | src/components/projects/Projects.tsx:36-57 | nothing being edited, an empty form, the status filter on `active`, no per-project text typed |
| ProjectsView.ProjectsScreen.HandleAddProject | src/components/projects/Projects.tsx:69-76 | needs a non-blank name; sends name and description trimmed; clears the form |
| ProjectsView.ProjectsScreen.OpenEditDialog | src/components/projects/Projects.tsx:87-94 | loads the project with that id; nothing for an unknown id |
| ProjectsView.ProjectsScreen.HandleEditProject | src/components/projects/Projects.tsx:78-85 | needs a project being edited and a non-blank name; patches name and description only |
| ProjectsView.ProjectsScreen.HandleAddAction | src/components/projects/Projects.tsx:96-103 | an action linked to the project, in its chosen context or `@anywhere`; only that project's text is cleared |
| ProjectsView.ProjectsScreen.HandleAddWaitingFor | src/components/projects/Projects.tsx:105-113 | needs both trimmed text and person; links the project; clears only those two fields |
| NextActionsView.FilteredActions | src/components/actions/NextActions.tsx:45-49 | an action is listed exactly when (finished ones are shown or it is not finished) and (the tab is "all" or the context matches) |
| NextActionsView.PendingCount | src/components/actions/NextActions.tsx:51 | never more than the number of actions |
| NextActionsView.ContextBadges | src/components/actions/NextActions.tsx:165-167 | one badge per context, none larger than the pending count |
| NextActionsView.CountSame | src/components/actions/NextActions.tsx:166-167 | tests that agree everywhere count the same |
| NextActionsView.ContextBadgesAddUp | src/components/actions/NextActions.tsx:157-167 | each badge is the length of its tab's list, and the six add up to the pending count |
| NextActionsView.GetContextInfo | src/components/actions/NextActions.tsx:69-71 | a row of the table: the matching one, or row 5 when none matches |
| NextActionsView.ContextInfoNeverFallsBack | src/components/actions/NextActions.tsx:69-71 | every context has its own row, so the fallback is never taken |
| NextActionsView.GetProjectName | src/components/actions/NextActions.tsx:73-76 | nothing for a null or empty id; otherwise the name of the project with that id, and nothing exactly when there is none |
| NextActionsView.ProjectChoices | src/components/actions/NextActions.tsx:127 | exactly the active projects |
| NextActionsView.ToggleMovesPendingCount | src/components/actions/NextActions.tsx:51 | ticking one action moves the pending count by exactly one |
| NextActionsView.NextActionsScreen.constructor | src/components/actions/NextActions.tsx:31-37 | an empty form in `@anywhere` with no project or date; finished actions hidden; no context tab chosen |
| NextActionsView.NextActionsScreen.HandleAddAction | src/components/actions/NextActions.tsx:53-67 | non-blank text gives an action with the chosen context, project and date; the form resets to `@anywhere`, no project, no date |

## Left out

- Authentication (password hashing, token signing, the OAuth exchange) is not part of this model. The signed-in `userId` is a parameter.
- HTTP plumbing, the fetch wrapper in `src/lib/api.ts`, the database connection and server start-up are left out. Each store or API call is an operation that either succeeds with a value or fails.
- A malformed id makes the id constructor throw, which lands in the generic 500 path. Ids here are opaque, so that path is not modelled.
- `parseInt` reads a leading number from strings like `"3abc"`. The review step is an `Option<int>` that the caller has already parsed.
- `Promise.all` in `initializeData` is one atomic load (`Loaded`). The store calls that handlers fire without awaiting them are an ordered list, not interleavings.
- Dates are plain integers. Overdue checks, the calendar view and date formatting are left out.
- The floating-point progress percentage, all markup and styling, and the dialog open/close flags are left out.
- The navigation sidebar repeats the filters above and is left out.
- Request fields are closed enumerations: `context`, `category` and `status` come from the unions, and patches carry only the record's own fields. The server in fact stores any JSON it receives. A PATCH that includes `userId` or unknown keys is not modelled.
- An explicit JSON `null` for a create field with a default (`context` at server/routes/actions.ts:42, `description` at server/routes/projects.ts:41, `category` at server/routes/somedayMaybe.ts:40) is stored as `null` by the server, because a destructuring default replaces only a missing field. The model's `None` is a missing field and gets the default; a body with such a `null` is not modelled.
- The JavaScript array grown by `completedSteps[step] = true` beyond its length has holes. The model fills them with `false`; after the JSON round trip they read back as `null`, which every reader treats as unchecked.
- A stored review whose `completedSteps` is missing makes the spread throw. The model answers 500 with no change, as the catch block does.
- Several members state ids as possibly absent with `Option`. The JavaScript truthiness test `!selectedItemId` also rejects an empty string id. `InboxView` treats any held id as selected, because the store never hands out empty ids.
- `GtdStore.Store.MoveSomedayToAction` and `GtdStore.Store.MoveSomedayToWaitingFor`: when the create succeeds and the delete then fails, the new record exists on the server but not in the cache. The contract states that the cache is unchanged; the server side is outside the store's model.
- `GtdStore.Store.InitializeData`: the logged error is not modelled.
- Error message texts are not modelled. Failures carry only their HTTP status.
