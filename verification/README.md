# TMS task board: a Dafny model of the board service and the profile form

TMS is a Kanban-style task board. Users own boards, a board holds lists and
tags, and a list holds cards ordered by a `positionNumber`. Everything is kept
in Firestore. `TaskboardService` turns user actions into document writes, and
its own rules sit on top of those writes:

- **Dense renumbering:** the cards of a list are renumbered 1..n, either in a
  given order or in their current position order.
- **Card moves:** a card moved to another list is placed at a given position,
  half a step lower when it goes last.
- **Permission-guarded removal:** removing a list or a board is guarded by
  who created the list and who created its cards.
- **Array set semantics:** members and favourites use `arrayUnion` and
  `arrayRemove`.
- **Creation defaults:** new boards and cards start with fixed default values.

`UserProfileComponent` adds two rules:

- it trims every value of the profile form in place before saving;
- it dispatches the avatar bottom sheet's answer while keeping an
  `isAvatarImageInProcess` flag.

## How the model is organised

- `wrappers.dfy`: `Option`.
- `firestore_arrays.dfy` (module `FirestoreArrays`): `arrayUnion` adds a value
  when it is absent, and `arrayRemove` removes every occurrence. Lemmas cover
  idempotence and removal undoing a union.
- `board_store.dfy` (module `BoardStore`):
  - the documents (`BoardDoc`, `Tag`, `ListDoc`, `Card`) and the store of card
    collections;
  - what it means for ids to be in position order, which is what
    `orderBy('positionNumber')` returns;
  - the renumbering batch as a function (`Renumbered`) with its lemmas: dense,
    order-keeping, idempotent, only positions change;
  - the move of a card between lists as a predicate over the store before and
    after (`IsMoveResult`), with its consequences as lemmas.
- `taskboard_service.dfy` (module `Taskboard`): the class `TaskboardService`.
  - Its fields are the signed-in user, the current board, the users collection
    and one map per collection kind: boards, each board's tags, each board's
    lists, and each list's cards.
  - Each service operation is a method that updates these maps. The loops of
    the source (the tag `forEach`, the renumbering `forEach`, the sequential
    `for … await removeList`, and the read-only card loop) are loops here.
- `js_strings.dfy` (module `JsStrings`): ECMAScript `trim` over the
  WhiteSpace and LineTerminator code points.
- `user_profile.dfy` (module `UserProfile`):
  - the class `UserProfileComponent`, whose fields are the flag, the
    snack-bar messages opened and the profile-service calls made;
  - the class `FormValue`, whose `fields` map `ClearFormDataValues` overwrites
    in place.

### How Firestore is represented

- **Collections are independent.** A sub-collection lives independently of
  its parent document. Deleting a list document leaves that list's cards in
  place, and deleting a board leaves its lists and tags. A collection that
  was never written is empty.
- **Failures.** `update` of a missing document rejects with `NotFound`.
  `delete` of a missing document succeeds.
- **Fresh ids.** The ids `add` assigns are parameters, required to be fresh.
- **Batches are atomic.** A renumbering batch that names a missing card
  rejects and writes nothing. An empty batch writes nothing.
- **Result order.** A query ordered by `positionNumber` may return cards with
  equal positions in any order.
- **Promises.** Each promise the service awaits runs to completion in one
  step. How a delete or a profile-service call ends is a parameter:
  `deleteError` for cards and `Settlement` for the avatar and profile calls.

### Removal does not cascade

Removing a list does not remove its cards, and removing a board does not
remove its lists:

- `removeAllListCards` checks that the user created every card, then only
  reads them.
- `removeList` therefore deletes only the list document.
- `removeAllBoardLists` calls `removeList` without a creator id, and the
  signed-in user's id is never `undefined`, so every list makes it reject.
  `removeBoard` therefore deletes a board only when the board has no lists.

Two other behaviours of the code are modelled as written:

- `removeCard` swallows a failed delete unless the error is
  `permission-denied`, and still renumbers the list.
- `moveCardToAnotherList` with the same source and destination list overwrites
  the card and then deletes it, so the card disappears
  (`BoardStore.MoveCardWithinOneListDropsIt`).

## Model

| member | source | states |
|---|---|---|
| FirestoreArrays.ArrayUnion | src/app/core/taskboard.service.ts:124-126 | the result holds exactly the old elements and the value; it is the old array when the value was there and the old array with the value appended otherwise; it keeps an array free of duplicates |
| FirestoreArrays.ArrayRemove | src/app/core/taskboard.service.ts:133-135 | the value no longer occurs; every other element keeps its number of occurrences; an array without the value is unchanged |
| FirestoreArrays.ArrayUnionIdempotent | src/app/core/taskboard.service.ts:208-214 | adding the same member or favourite twice is adding it once |
| FirestoreArrays.ArrayRemoveIdempotent | src/app/core/taskboard.service.ts:216-222 | removing the same member or favourite twice is removing it once |
| FirestoreArrays.ArrayRemoveUndoesUnion | src/app/core/taskboard.service.ts:111-136 | removing a value after adding it restores an array that lacked it, and in general equals removing it alone |
| FirestoreArrays.ArrayRemoveAppend | src/app/core/taskboard.service.ts:133-135 | removing a value from a concatenation removes it from each part |
| BoardStore.LowestPositionExists | src/app/core/taskboard.service.ts:371-374 | every non-empty set of cards has a card positioned no higher than any other, so ordering by position is always possible |
| BoardStore.SelectionStep | src/app/core/taskboard.service.ts:371-374 | appending a lowest-positioned remaining card keeps a partial listing in position order |
| BoardStore.SelectionDone | src/app/core/taskboard.service.ts:371-374 | a listing that has taken every card is a position order: each card once, positions non-decreasing |
| BoardStore.EnumerationLength | src/app/core/taskboard.service.ts:375-377 | a sequence listing every card once is as long as the list has cards, so renumbering yields exactly 1..n |
| BoardStore.Renumbered | src/app/core/taskboard.service.ts:362-379 | the batch that writes position i+1 to the i-th named card neither adds nor removes cards |
| BoardStore.RenumberedOnlyMovesPositions | src/app/core/taskboard.service.ts:364-369 | renumbering changes no field of any card except `positionNumber` |
| BoardStore.RenumberedUntouched | src/app/core/taskboard.service.ts:364-369 | a card the batch does not name keeps its document unchanged |
| BoardStore.RenumberedLastWriteWins | src/app/core/taskboard.service.ts:364-369 | a card named more than once ends at one plus the index of its last occurrence |
| BoardStore.RenumberedAt | src/app/core/taskboard.service.ts:364-369 | with no card named twice, the card at index i gets position i+1 and keeps every other field |
| BoardStore.RenumberedIsDense | src/app/core/taskboard.service.ts:358-380 | renumbering by a listing of every card gives the i-th card position i+1 and keeps its other fields; positions strictly increase along the listing, which is a position order of the result |
| BoardStore.RenumberedPositionsAreOneToN | src/app/core/taskboard.service.ts:358-380 | after renumbering a list of n cards, every position is a whole number in 1..n and no two cards share one |
| BoardStore.NumberedByIndex | src/app/core/taskboard.service.ts:375-377 | cards numbered by their index are in position order, on distinct whole numbers in 1..n |
| BoardStore.PositionOrderIndexes | src/app/core/taskboard.service.ts:371-374 | in a position order, a card positioned strictly lower comes earlier |
| BoardStore.RenumberedKeepsOrder | src/app/core/taskboard.service.ts:370-378 | renumbering from the store keeps every strict order between two cards' positions |
| BoardStore.RenumberedIdempotent | src/app/core/taskboard.service.ts:358-380 | renumbering a renumbered list again in the same order changes nothing |
| BoardStore.AllCreatedBy | src/app/core/taskboard.service.ts:431-436 | the `every` check over a list's cards: true for an empty list, false exactly when some card has a creator other than the user |
| BoardStore.RenumberedBy | src/app/core/taskboard.service.ts:362-379 | the committed batch replaces only the renumbered list's cards, and an empty batch writes nothing |
| BoardStore.RenumberedIf | src/app/core/taskboard.service.ts:408-413 | the conditional renumbering after a move keeps the list's card ids and leaves every other list unchanged |
| BoardStore.LandingPosition | src/app/core/taskboard.service.ts:397-399 | a card that goes last lands exactly half a step below `newCardPosition`; any other card lands at `newCardPosition` itself; never above it |
| BoardStore.Transfer | src/app/core/taskboard.service.ts:400-407 | copying the card to the destination and deleting it from the source touches no other list |
| BoardStore.IsMoveResult | src/app/core/taskboard.service.ts:382-415 | the store after a move: the card copied with its landing position, deleted from the source, each list renumbered unless the card is last there; the source then holds exactly its other cards, and no third list changes |
| BoardStore.MoveCardLandsInDestination | src/app/core/taskboard.service.ts:382-415 | after a move between two lists, the card is in the destination and gone from the source, with every field except position unchanged. It sits at `newCardPosition - 0.5` when last in the destination. Otherwise it sits, after renumbering, above every card that was below `newCardPosition` and below every card that was above it. No other list changes. |
| BoardStore.MoveCardWithinOneListDropsIt | src/app/core/taskboard.service.ts:400-407 | a move whose source and destination are the same list removes the card from that list |
| Taskboard.FirstUserIdWithUsername | src/app/core/taskboard.service.ts:114-123 | `None` exactly when no user has the username; otherwise the id of the first user in query order who has it |
| Taskboard.GetDocDataWithId | src/app/core/taskboard.service.ts:443-448 | the document's fields plus `id`; a missing document gives `id` alone, and a field named `id` in the data overrides it |
| Taskboard.NewBoardTags | src/app/core/taskboard.service.ts:98-103 | exactly one tag per board colour, the i-th with the i-th colour and an empty name |
| Taskboard.RemoveThenRenumberIsDense | src/app/core/taskboard.service.ts:340-355 | after deleting a card and renumbering the rest in position order, the list holds exactly the other cards, numbered 1..n in that order with their other fields unchanged, and no other list changed |
| Taskboard.Batch | src/app/core/taskboard.service.ts:362-369 | the loop builds the batch: it reports whether every named card exists and, if so, yields the cards renumbered by the named order |
| Taskboard.TaskboardService.constructor | src/app/core/taskboard.service.ts:33-42 | the service starts with the signed-in user, the current board and the given store |
| Taskboard.TaskboardService.SetCurrBoardDoc | src/app/core/taskboard.service.ts:46-48 | the current board becomes the given board |
| Taskboard.TaskboardService.CreateBoard | src/app/core/taskboard.service.ts:84-105 | the new board's admin is the current user, its members are exactly that user, its favourites are empty, and its tags are one unnamed tag per board colour; nothing else changes |
| Taskboard.TaskboardService.UpdateBoardData | src/app/core/taskboard.service.ts:107-109 | an update of the current board applies to it when it exists and otherwise rejects with `NotFound`, changing nothing |
| Taskboard.TaskboardService.AddMemberToBoard | src/app/core/taskboard.service.ts:111-127 | an unknown username rejects with the message naming it and changes nothing; otherwise the first match's id is added to the members by `arrayUnion` |
| Taskboard.TaskboardService.RemoveMemberFromBoard | src/app/core/taskboard.service.ts:129-136 | every occurrence of the member is removed from the current board's members |
| Taskboard.TaskboardService.AddBoardToFavorites | src/app/core/taskboard.service.ts:208-214 | the current user is added to the board's favourites without a duplicate |
| Taskboard.TaskboardService.RemoveBoardFromFavorites | src/app/core/taskboard.service.ts:216-222 | every occurrence of the current user is removed from the board's favourites |
| Taskboard.TaskboardService.UpdateBoardTagName | src/app/core/taskboard.service.ts:165-172 | only the tag's name changes; a missing tag rejects with `NotFound` and changes nothing |
| Taskboard.TaskboardService.RemoveBoard | src/app/core/taskboard.service.ts:174-178 | the board document is deleted exactly when the board has no lists; otherwise it rejects with the list-deletion message; lists are never deleted |
| Taskboard.TaskboardService.CreateList | src/app/core/taskboard.service.ts:190-196 | the new list has the given title and the current user as creator |
| Taskboard.TaskboardService.RemoveList | src/app/core/taskboard.service.ts:224-240 | it rejects without change when the creator is not the current user or when another user created one of the cards, each with its own message; otherwise only the list document is deleted |
| Taskboard.TaskboardService.RemoveAllBoardLists | src/app/core/taskboard.service.ts:417-424 | it resolves exactly when the board has no lists, rejects with the list-deletion message otherwise, and deletes nothing |
| Taskboard.TaskboardService.RemoveAllListCards | src/app/core/taskboard.service.ts:426-441 | it resolves exactly when the current user created every card of the list, and it changes nothing |
| Taskboard.TaskboardService.CreateCard | src/app/core/taskboard.service.ts:303-322 | the new card has the given title and position and the current user as creator; its description, members, votes, tags, attachments and wallpaper are empty; no other card changes |
| Taskboard.TaskboardService.GetCardsOrderedByPosition | src/app/core/taskboard.service.ts:371-374 | the ids of the list's cards, each once, by non-decreasing position |
| Taskboard.TaskboardService.UpdateCardsPositionNumber | src/app/core/taskboard.service.ts:358-380 | it writes position i+1 to the i-th card, of `modifiedCards` or of the list in position order; a batch naming a missing card rejects with `NotFound` and writes nothing |
| Taskboard.TaskboardService.RemoveCard | src/app/core/taskboard.service.ts:335-356 | a permission-denied delete rejects with the fixed message and changes nothing; otherwise the card is deleted (unless the delete failed), and the list is renumbered in position order exactly when the card was not last |
| Taskboard.TaskboardService.MoveCardToAnotherList | src/app/core/taskboard.service.ts:382-415 | a card missing from the source rejects with no change; otherwise the store after is the move result: copied at its landing position, deleted from the source, and the source and destination renumbered exactly when the card is not last there |
| JsStrings.IsWhitespace | src/app/user-profile/user-profile.component.ts:104 | the characters `trim` removes; among ASCII characters they are exactly tab, line feed, vertical tab, form feed, carriage return and space |
| JsStrings.LeadingEnd | src/app/user-profile/user-profile.component.ts:104 | the index where the leading white space ends |
| JsStrings.TrailingStart | src/app/user-profile/user-profile.component.ts:104 | the index where the trailing white space starts |
| JsStrings.Trim | src/app/user-profile/user-profile.component.ts:104 | the trim of a string neither starts nor ends with white space |
| JsStrings.TrimIsSlice | src/app/user-profile/user-profile.component.ts:104 | the trim is a contiguous slice of the string, and what is cut off on either side is white space |
| JsStrings.TrimKeepsTrimmed | src/app/user-profile/user-profile.component.ts:104 | a value with no leading or trailing white space is its own trim |
| JsStrings.TrimIdempotent | src/app/user-profile/user-profile.component.ts:104 | trimming twice equals trimming once |
| JsStrings.TrimOfWhitespaceOnly | src/app/user-profile/user-profile.component.ts:104 | a value made only of white space trims to the empty string |
| UserProfile.AvatarActionFor | src/app/user-profile/user-profile.component.ts:110-124 | an undefined response selects nothing; `'upload'` selects the upload path with the response's image, `'remove'` the remove path, `'not-image'` the warning, each exactly for its type |
| UserProfile.UnknownResponseIgnored | src/app/user-profile/user-profile.component.ts:114-123 | a response of any other type is ignored like an undefined one |
| UserProfile.MapValuesFixed | src/app/user-profile/user-profile.component.ts:103-105 | overwriting each value with an image it already equals leaves the object unchanged |
| UserProfile.TrimmedFields | src/app/user-profile/user-profile.component.ts:102-107 | the cleared form data has the same keys, and no value is longer than before |
| UserProfile.TrimmedFieldsAreTrimmed | src/app/user-profile/user-profile.component.ts:102-107 | clearing keeps exactly the keys and leaves every value trimmed |
| UserProfile.TrimmedFieldsKeepsClean | src/app/user-profile/user-profile.component.ts:103-105 | values without outer white space are left unchanged |
| UserProfile.TrimmedFieldsIdempotent | src/app/user-profile/user-profile.component.ts:102-107 | clearing twice equals clearing once |
| UserProfile.UserProfileComponent.constructor | src/app/user-profile/user-profile.component.ts:24 | the flag starts lowered |
| UserProfile.UserProfileComponent.OnAvatarImageUpload | src/app/user-profile/user-profile.component.ts:63-71 | the flag is raised and the upload requested; only a fulfilled upload lowers the flag and shows the success message, so a failed or pending upload leaves it raised |
| UserProfile.UserProfileComponent.OnAvatarImageRemove | src/app/user-profile/user-profile.component.ts:73-86 | the flag is raised and the default avatar requested; once the request settles, either way, the flag is lowered and the success or failure message is shown |
| UserProfile.UserProfileComponent.HandleProfileAvatarActionsResponse | src/app/user-profile/user-profile.component.ts:110-124 | an undefined or unknown response changes nothing; `'upload'` requests the upload, leaves the flag raised unless it is fulfilled and then shows the success message; `'remove'` requests the default avatar, lowers the flag once that settles and shows the success or failure message; `'not-image'` only adds the warning and leaves the flag |
| UserProfile.UserProfileComponent.ClearFormDataValues | src/app/user-profile/user-profile.component.ts:102-107 | the same object is returned, with the same keys, each value overwritten in place by its trim |
| UserProfile.UserProfileComponent.OnSaveForm | src/app/user-profile/user-profile.component.ts:88-96 | the form value is cleared in place, the cleared data is sent to the profile service, and a fulfilled save shows the success message |

## Left out

- Live queries and Observables (`getPersonalBoards`, `getFavoriteBoards`, `getBoardData`, `getBoardTags`, `getBoardLists`, `getCardData`, `getListCards`) are rxjs pipelines over live database queries and are not modelled. `getCardData` resolves a card's `tagsIds` and `membersIds` to documents in their order.
- `updateListData` and `updateCardData` are plain pass-through updates and are not modelled.
- `createdAt` timestamps from `Timestamp.now()` are not modelled. The document types have no `createdAt` field.
- Router navigation in `removeMemberFromBoard` and `removeBoard` is not modelled.
- The authentication subscription is not modelled. The model starts after it has delivered a user, so `currUserId` is always a real id. Before that the source's `currUserId` is `undefined`.
- The service before `setCurrBoardDoc` has been called is not modelled. The current board is given to the constructor.
- The database's security rules are not modelled. They appear only as the `deleteError` parameter of `RemoveCard`.
- Concurrency is not modelled. The renumberings `moveCardToAnotherList` starts without awaiting them, and the `forEach` of tag adds in `createBoard`, run sequentially to completion. The tags are written in one step.
- Taskboard.TaskboardService.MoveCardToAnotherList: the model covers the case where the copy and the delete both succeed. In the source their failures are only logged, so a failed copy can be followed by a delete.
- Taskboard.TaskboardService.GetCardsOrderedByPosition: Firestore orders cards with equal positions by document id. The model allows any order among them.
- Taskboard.FirstUserIdWithUsername: the `users` field lists the users in the order the query returns them. The query engine is not modelled.
- The `BoardBackColor` enumeration file is not part of this model. Its values are the `boardBackColors` constant given to the constructor.
- `UserProfileService` and `AuthService` are not part of this model. Their calls are recorded in `profileServiceCalls`, and how they end is a `Settlement` parameter.
- The snack bar and bottom sheet are not modelled, nor their durations and action labels. Opened messages are recorded in order in `snackBarMessages`.
- `ngOnInit`, `resetForm`, `openAvatarActions` and the form validators are UI wiring and are not modelled.
- `ProfileAvatarActionsResponse` names its discriminant `kind`, because `type` is a Dafny keyword.
- UserProfile.UserProfileComponent.ClearFormDataValues: form values are strings. The source would throw on a non-string value, since it calls `trim` on it.
- File contents are opaque bytes.
