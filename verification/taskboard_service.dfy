/**
 * The task-board service: it creates and removes boards, lists and cards in
 * the Firestore store, manages a board's members, favourites and tag names,
 * and keeps every list's cards numbered 1..n by `positionNumber`.
 *
 * The service's state is the store itself, held as one map per collection
 * kind, plus the signed-in user and the current board. Each asynchronous
 * operation runs to its end in one step; where the outcome depends on the
 * database (a rejected delete, a fresh document id), that input is a
 * parameter.
 */
module Taskboard {
  import opened Wrappers
  import opened BoardStore
  import opened FirestoreArrays

  /** The codes of a Firestore error the service looks at. */
  datatype ErrorCode = PermissionDenied | NotFound | OtherCode

  /** Why a promise of the service rejects. */
  datatype Rejection =
    | Message(text: string)           // `Promise.reject('…')` with a user-facing text
    | DbError(code: ErrorCode)        // a Firestore write that failed
    | TypeErrorOnUndefined            // a property set on the `undefined` data of a missing document
    | NoReason                        // `Promise.reject()`

  /** How an operation of the service settles. */
  datatype Outcome = Resolved | Rejected(reason: Rejection)

  const LIST_DELETE_DENIED := "Yalnızca yönetici veya yaratıcının bu süreçleri silme izni vardır."
  const LIST_HAS_OTHERS_CARDS := "Süreçlerde başka üye kartları olduğu için süreç silinemiyor."
  const CARD_DELETE_DENIED := "Yalnızca yönetici veya oluşturucunun bu kartı silme izni vardır."

  function UserNotFoundMessage(username: string): string {
    "(" + username + ")Bu Kullanıcı Bulunamadı"
  }

  /** A document of the `users` collection, as far as the service reads it. */
  datatype UserDoc = UserDoc(id: Id, username: string)

  /**
   * The id of the first user, in the order the query returns them, whose
   * username is `username`; `None` when the query is empty.
   */
  function FirstUserIdWithUsername(users: seq<UserDoc>, username: string): (r: Option<Id>)
    ensures r.None? <==> forall i | 0 <= i < |users| :: users[i].username != username
    ensures r.Some? ==> exists i | 0 <= i < |users| ::
      && users[i] == UserDoc(r.value, username)
      && forall j | 0 <= j < i :: users[j].username != username
  {
    if users == [] then None
    else if users[0].username == username then Some(users[0].id)
    else
      var r := FirstUserIdWithUsername(users[1..], username);
      assert r.Some? ==> exists i | 0 <= i < |users[1..]| ::
        users[1..][i] == UserDoc(r.value, username) && forall j | 0 <= j < i :: users[1..][j].username != username;
      r
  }

  /** The value of one field of a Firestore document. */
  datatype FieldValue =
    | StringValue(s: string)
    | NumberValue(n: real)
    | BooleanValue(b: bool)
    | ArrayValue(items: seq<FieldValue>)
    | TimestampValue(seconds: int, nanoseconds: int)
    | NullValue

  /** A snapshot of one document: its id and its data, `None` when the document does not exist. */
  datatype DocumentSnapshot = DocumentSnapshot(id: Id, data: Option<map<string, FieldValue>>)

  /**
   * `{ id, ...data }`: the snapshot's fields with an `id` field added. A
   * missing document gives the `id` field alone; a document that has its
   * own `id` field keeps that value, since the spread comes last.
   */
  function GetDocDataWithId(payload: DocumentSnapshot): (r: map<string, FieldValue>)
    ensures payload.data.None? ==> r == map["id" := StringValue(payload.id)]
    ensures payload.data.Some? ==> r.Keys == payload.data.value.Keys + {"id"}
    ensures payload.data.Some? ==> forall k | k in payload.data.value :: r[k] == payload.data.value[k]
    ensures payload.data.Some? && "id" !in payload.data.value ==> r["id"] == StringValue(payload.id)
  {
    var withId := map["id" := StringValue(payload.id)];
    match payload.data
    case None => withId
    case Some(data) => withId + data
  }

  /**
   * The tags `createBoard` adds, one per board colour in the colours' order:
   * the tag `tagIds[i]` gets colour `colors[i]` and an empty name.
   */
  function NewBoardTags(tagIds: seq<Id>, colors: seq<string>): (r: map<Id, Tag>)
    requires |tagIds| == |colors|
    requires forall i, j | 0 <= i < j < |tagIds| :: tagIds[i] != tagIds[j]
    ensures forall t :: t in r <==> t in tagIds
    ensures forall i | 0 <= i < |tagIds| :: r[tagIds[i]] == Tag(colors[i], "")
    decreases |tagIds|
  {
    if tagIds == [] then map[]
    else
      var n := |tagIds| - 1;
      NewBoardTags(tagIds[..n], colors[..n])[tagIds[n] := Tag(colors[n], "")]
  }

  /**
   * Deleting a card and then renumbering what is left in position order
   * leaves exactly the other cards, numbered 1..n in that order with their
   * other fields unchanged, and no other list touched.
   */
  lemma RemoveThenRenumberIsDense(store: CardStore, path: ListPath, cardId: Id, order: seq<Id>)
    requires IsPositionOrder(CardsAt(store, path) - {cardId}, order)
    ensures var after := RenumberedBy(store[path := CardsAt(store, path) - {cardId}], path, order);
      && CardsAt(after, path).Keys == CardsAt(store, path).Keys - {cardId}
      && (forall i | 0 <= i < |order| ::
            CardsAt(after, path)[order[i]] == CardsAt(store, path)[order[i]].(positionNumber := (i + 1) as real))
      && (forall p | p != path :: CardsAt(after, p) == CardsAt(store, p))
  {
    var deleted := store[path := CardsAt(store, path) - {cardId}];
    assert CardsAt(deleted, path) == CardsAt(store, path) - {cardId};
    RenumberedIsDense(CardsAt(deleted, path), order);
  }

  /**
   * Builds the renumbering batch over a snapshot of a list's cards: the
   * cards as they are once `positionNumber: i + 1` is written to `ids[i]`
   * for every i, and whether every card the batch names exists.
   */
  method Batch(current: map<Id, Card>, ids: seq<Id>) returns (allExist: bool, batch: map<Id, Card>)
    ensures allExist <==> forall i | 0 <= i < |ids| :: ids[i] in current
    ensures allExist ==> batch == Renumbered(current, ids)
  {
    batch := current;
    allExist := true;
    for index := 0 to |ids|
      invariant allExist <==> forall i | 0 <= i < index :: ids[i] in current
      invariant allExist ==> batch == Renumbered(current, ids[..index])
    {
      if allExist && ids[index] in batch {
        assert ids[..index + 1][..index] == ids[..index];
        batch := batch[ids[index] := batch[ids[index]].(positionNumber := (index + 1) as real)];
      } else {
        allExist := false;
      }
    }
    assert ids[..|ids|] == ids;
  }

  class TaskboardService {
    /** The signed-in user, as the authentication subscription sets it. */
    var currUserId: Id
    /** The board `currBoardDoc` points at. */
    var currBoardId: Id
    /** The values of the `BoardBackColor` enumeration, in declaration order. */
    const boardBackColors: seq<string>
    /** The `users` collection, in the order a query over it returns documents. */
    var users: seq<UserDoc>
    /** The `boards` collection. */
    var boards: map<Id, BoardDoc>
    /** Each board's `tags` collection, by board id. */
    var tags: map<Id, map<Id, Tag>>
    /** Each board's `lists` collection, by board id. */
    var lists: map<Id, map<Id, ListDoc>>
    /** Each list's `cards` collection, by path. */
    var cards: CardStore

    constructor (
      currUserId: Id, currBoardId: Id, boardBackColors: seq<string>, users: seq<UserDoc>,
      boards: map<Id, BoardDoc>, tags: map<Id, map<Id, Tag>>, lists: map<Id, map<Id, ListDoc>>, cards: CardStore)
      ensures this.currUserId == currUserId && this.currBoardId == currBoardId
      ensures this.boardBackColors == boardBackColors && this.users == users
      ensures this.boards == boards && this.tags == tags && this.lists == lists && this.cards == cards
    {
      this.currUserId := currUserId;
      this.currBoardId := currBoardId;
      this.boardBackColors := boardBackColors;
      this.users := users;
      this.boards := boards;
      this.tags := tags;
      this.lists := lists;
      this.cards := cards;
    }

    function TagsOf(boardId: Id): map<Id, Tag>
      reads this
    {
      if boardId in tags then tags[boardId] else map[]
    }

    function ListsOf(boardId: Id): map<Id, ListDoc>
      reads this
    {
      if boardId in lists then lists[boardId] else map[]
    }

    /** The `cards` collection of the current board's list `listId`. */
    function CurrCards(listId: Id): map<Id, Card>
      reads this
    {
      CardsAt(cards, ListPath(currBoardId, listId))
    }

    // -------------------------------------------------------------------
    // Boards
    // -------------------------------------------------------------------

    method SetCurrBoardDoc(boardId: Id)
      modifies this`currBoardId
      ensures currBoardId == boardId
    {
      currBoardId := boardId;
    }

    /**
     * Adds a board whose admin and only member is the current user and which
     * is nobody's favourite, then adds one unnamed tag per board colour.
     * `boardId` and `tagIds` are the fresh ids the store assigns.
     */
    method CreateBoard(title: string, backgroundColor: string, boardId: Id, tagIds: seq<Id>) returns (boardDoc: Id)
      requires boardId !in boards && boardId !in tags
      requires |tagIds| == |boardBackColors|
      requires forall i, j | 0 <= i < j < |tagIds| :: tagIds[i] != tagIds[j]
      modifies this`boards, this`tags
      ensures boardDoc == boardId
      ensures boards == old(boards)[boardId := BoardDoc(title, backgroundColor, currUserId, [currUserId], [])]
      ensures tags == old(tags)[boardId := NewBoardTags(tagIds, boardBackColors)]
    {
      boards := boards[boardId := BoardDoc(title, backgroundColor, currUserId, [currUserId], [])];
      // The adds are not awaited: the tags are collected and written together.
      var boardTags: map<Id, Tag> := map[];
      for i := 0 to |boardBackColors|
        invariant boardTags == NewBoardTags(tagIds[..i], boardBackColors[..i])
      {
        assert tagIds[..i + 1][..i] == tagIds[..i];
        assert boardBackColors[..i + 1][..i] == boardBackColors[..i];
        boardTags := boardTags[tagIds[i] := Tag(boardBackColors[i], "")];
      }
      assert tagIds[..|tagIds|] == tagIds;
      assert boardBackColors[..|boardBackColors|] == boardBackColors;
      tags := tags[boardId := boardTags];
      boardDoc := boardId;
    }

    /** `currBoardDoc.update(…)`: applies `update` to the current board, which must exist. */
    method UpdateBoardData(update: BoardDoc -> BoardDoc) returns (outcome: Outcome)
      modifies this`boards
      ensures currBoardId in old(boards) ==> outcome == Resolved && boards == old(boards)[currBoardId := update(old(boards)[currBoardId])]
      ensures currBoardId !in old(boards) ==> outcome == Rejected(DbError(NotFound)) && boards == old(boards)
    {
      if currBoardId !in boards {
        return Rejected(DbError(NotFound));
      }
      boards := boards[currBoardId := update(boards[currBoardId])];
      outcome := Resolved;
    }

    /**
     * Looks the user up by username and adds their id to the current board's
     * members unless it is there already; an unknown username rejects with
     * a message naming it and changes nothing.
     */
    method AddMemberToBoard(newMemberUsername: string) returns (outcome: Outcome)
      modifies this`boards
      ensures FirstUserIdWithUsername(users, newMemberUsername).None? ==>
        outcome == Rejected(Message(UserNotFoundMessage(newMemberUsername))) && boards == old(boards)
      ensures FirstUserIdWithUsername(users, newMemberUsername).Some? ==>
        var newMemberId := FirstUserIdWithUsername(users, newMemberUsername).value;
        if currBoardId in old(boards) then
          && outcome == Resolved
          && boards == old(boards)[currBoardId := old(boards)[currBoardId].(membersIds := ArrayUnion(old(boards)[currBoardId].membersIds, newMemberId))]
        else outcome == Rejected(DbError(NotFound)) && boards == old(boards)
    {
      var found := FirstUserIdWithUsername(users, newMemberUsername);
      if found.None? {
        return Rejected(Message(UserNotFoundMessage(newMemberUsername)));
      }
      var newMemberId := found.value;
      outcome := UpdateBoardData((board: BoardDoc) => board.(membersIds := ArrayUnion(board.membersIds, newMemberId)));
    }

    /** Removes every occurrence of `memberId` from the current board's members. */
    method RemoveMemberFromBoard(memberId: Id) returns (outcome: Outcome)
      modifies this`boards
      ensures currBoardId in old(boards) ==>
        && outcome == Resolved
        && boards == old(boards)[currBoardId := old(boards)[currBoardId].(membersIds := ArrayRemove(old(boards)[currBoardId].membersIds, memberId))]
      ensures currBoardId !in old(boards) ==> outcome == Rejected(DbError(NotFound)) && boards == old(boards)
    {
      outcome := UpdateBoardData((board: BoardDoc) => board.(membersIds := ArrayRemove(board.membersIds, memberId)));
    }

    /** Adds the current user to the users whose favourite the current board is. */
    method AddBoardToFavorites() returns (outcome: Outcome)
      modifies this`boards
      ensures currBoardId in old(boards) ==>
        && outcome == Resolved
        && boards == old(boards)[currBoardId := old(boards)[currBoardId].(usersIdsWhoseBoardIsFavorite :=
             ArrayUnion(old(boards)[currBoardId].usersIdsWhoseBoardIsFavorite, currUserId))]
      ensures currBoardId !in old(boards) ==> outcome == Rejected(DbError(NotFound)) && boards == old(boards)
    {
      var userId := currUserId;
      outcome := UpdateBoardData((board: BoardDoc) => board.(usersIdsWhoseBoardIsFavorite := ArrayUnion(board.usersIdsWhoseBoardIsFavorite, userId)));
    }

    /** Removes the current user from the users whose favourite the current board is. */
    method RemoveBoardFromFavorites() returns (outcome: Outcome)
      modifies this`boards
      ensures currBoardId in old(boards) ==>
        && outcome == Resolved
        && boards == old(boards)[currBoardId := old(boards)[currBoardId].(usersIdsWhoseBoardIsFavorite :=
             ArrayRemove(old(boards)[currBoardId].usersIdsWhoseBoardIsFavorite, currUserId))]
      ensures currBoardId !in old(boards) ==> outcome == Rejected(DbError(NotFound)) && boards == old(boards)
    {
      var userId := currUserId;
      outcome := UpdateBoardData((board: BoardDoc) => board.(usersIdsWhoseBoardIsFavorite := ArrayRemove(board.usersIdsWhoseBoardIsFavorite, userId)));
    }

    /** Renames one tag of the current board; a missing tag rejects and changes nothing. */
    method UpdateBoardTagName(tagId: Id, newTagName: string) returns (outcome: Outcome)
      modifies this`tags
      ensures tagId in old(TagsOf(currBoardId)) ==>
        && outcome == Resolved
        && tags == old(tags)[currBoardId := old(TagsOf(currBoardId))[tagId := old(TagsOf(currBoardId))[tagId].(name := newTagName)]]
      ensures tagId !in old(TagsOf(currBoardId)) ==> outcome == Rejected(DbError(NotFound)) && tags == old(tags)
    {
      var boardTags := TagsOf(currBoardId);
      if tagId !in boardTags {
        return Rejected(DbError(NotFound));
      }
      tags := tags[currBoardId := boardTags[tagId := boardTags[tagId].(name := newTagName)]];
      outcome := Resolved;
    }

    /**
     * Removes every list of the current board, then deletes the board
     * document. Since each list is removed without its creator id, any list
     * makes the removal reject before anything is deleted: only a board
     * without lists is deleted.
     */
    method RemoveBoard() returns (outcome: Outcome)
      modifies this`lists, this`boards
      ensures lists == old(lists)
      ensures ListsOf(currBoardId) == map[] ==> outcome == Resolved && boards == old(boards) - {currBoardId}
      ensures ListsOf(currBoardId) != map[] ==> outcome == Rejected(Message(LIST_DELETE_DENIED)) && boards == old(boards)
    {
      outcome := RemoveAllBoardLists();
      if outcome.Rejected? {
        return;
      }
      boards := boards - {currBoardId};
    }

    // -------------------------------------------------------------------
    // Lists
    // -------------------------------------------------------------------

    /** Adds a list created by the current user; `listId` is the fresh id the store assigns. */
    method CreateList(listTitle: string, listId: Id) returns (listDoc: Id)
      requires listId !in ListsOf(currBoardId)
      modifies this`lists
      ensures listDoc == listId
      ensures lists == old(lists)[currBoardId := old(ListsOf(currBoardId))[listId := ListDoc(listTitle, currUserId)]]
    {
      lists := lists[currBoardId := ListsOf(currBoardId)[listId := ListDoc(listTitle, currUserId)]];
      listDoc := listId;
    }

    /**
     * Removes a list whose creator is the current user and all of whose cards
     * the current user created. Only the list document is deleted: its
     * cards stay in their collection.
     */
    method RemoveList(listId: Id, listCreatorId: Option<Id>) returns (outcome: Outcome)
      modifies this`lists
      ensures listCreatorId != Some(currUserId) ==>
        outcome == Rejected(Message(LIST_DELETE_DENIED)) && lists == old(lists)
      ensures listCreatorId == Some(currUserId) && !AllCreatedBy(CurrCards(listId), currUserId) ==>
        outcome == Rejected(Message(LIST_HAS_OTHERS_CARDS)) && lists == old(lists)
      ensures listCreatorId == Some(currUserId) && AllCreatedBy(CurrCards(listId), currUserId) ==>
        outcome == Resolved && lists == old(lists)[currBoardId := old(ListsOf(currBoardId)) - {listId}]
    {
      if listCreatorId != Some(currUserId) {
        return Rejected(Message(LIST_DELETE_DENIED));
      }
      var removal := RemoveAllListCards(listId);
      if removal.Rejected? {
        return Rejected(Message(LIST_HAS_OTHERS_CARDS));
      }
      lists := lists[currBoardId := ListsOf(currBoardId) - {listId}];
      outcome := Resolved;
    }

    /**
     * Removes each list of the current board in turn, without a creator id,
     * and stops at the first rejection: it resolves only when the board has
     * no lists, and it deletes nothing.
     */
    method RemoveAllBoardLists() returns (outcome: Outcome)
      modifies this`lists
      ensures lists == old(lists)
      ensures ListsOf(currBoardId) == map[] ==> outcome == Resolved
      ensures ListsOf(currBoardId) != map[] ==> outcome == Rejected(Message(LIST_DELETE_DENIED))
    {
      var listsQuerySnapshot := ListsOf(currBoardId).Keys;
      outcome := Resolved;
      while listsQuerySnapshot != {} && outcome == Resolved
        invariant lists == old(lists)
        invariant outcome == Resolved ==> listsQuerySnapshot == ListsOf(currBoardId).Keys
        invariant outcome != Resolved ==> outcome == Rejected(Message(LIST_DELETE_DENIED)) && ListsOf(currBoardId).Keys != {}
        decreases listsQuerySnapshot
      {
        var listId :| listId in listsQuerySnapshot;
        outcome := RemoveList(listId, None);
        listsQuerySnapshot := listsQuerySnapshot - {listId};
      }
      if outcome == Resolved {
        assert ListsOf(currBoardId).Keys == {};
        assert ListsOf(currBoardId) == map[];
      }
    }

    /**
     * Resolves when the current user created every card of the list and
     * rejects otherwise. It reads each card but deletes none.
     */
    method RemoveAllListCards(listId: Id) returns (outcome: Outcome)
      ensures outcome == (if AllCreatedBy(CurrCards(listId), currUserId) then Resolved else Rejected(NoReason))
    {
      var docs := CurrCards(listId);
      var hasPermissionToDelete := forall c | c in docs :: docs[c].creatorId == currUserId;
      if !hasPermissionToDelete {
        return Rejected(NoReason);
      }
      var unread := docs.Keys;
      while unread != {}
        invariant unread <= docs.Keys
        decreases unread
      {
        var cardDocSnapshot :| cardDocSnapshot in unread;
        var cardToDeleteData := docs[cardDocSnapshot];
        unread := unread - {cardDocSnapshot};
      }
      outcome := Resolved;
    }

    // -------------------------------------------------------------------
    // Cards
    // -------------------------------------------------------------------

    /**
     * Adds a card created by the current user at `positionNumber`, with an
     * empty description, no members, votes, tags or attachments and no
     * wallpaper; `cardId` is the fresh id the store assigns.
     */
    method CreateCard(listId: Id, title: string, positionNumber: real, cardId: Id) returns (cardDoc: Id)
      requires cardId !in CurrCards(listId)
      modifies this`cards
      ensures cardDoc == cardId
      ensures CurrCards(listId).Keys == old(CurrCards(listId)).Keys + {cardId}
      ensures forall c | c in old(CurrCards(listId)) :: CurrCards(listId)[c] == old(CurrCards(listId))[c]
      ensures var card := CurrCards(listId)[cardId];
        && card.title == title && card.positionNumber == positionNumber && card.creatorId == currUserId
        && card.description == "" && card.wallpaperURL == ""
        && card.membersIds == [] && card.usersIdsWhoVoted == [] && card.tagsIds == [] && card.attachments == []
      ensures forall p | p != ListPath(currBoardId, listId) :: CardsAt(cards, p) == CardsAt(old(cards), p)
    {
      var newCard := Card(title, positionNumber, "", currUserId, [], [], [], [], "");
      cards := cards[ListPath(currBoardId, listId) := CurrCards(listId)[cardId := newCard]];
      cardDoc := cardId;
    }

    /** `orderBy('positionNumber').get()`: the list's card ids by non-decreasing position. */
    method GetCardsOrderedByPosition(listId: Id) returns (docs: seq<Id>)
      ensures IsPositionOrder(CurrCards(listId), docs)
    {
      var snapshot := CurrCards(listId);
      var rest := snapshot.Keys;
      docs := [];
      while rest != {}
        invariant SelectionSoFar(snapshot, docs, rest)
        decreases rest
      {
        LowestPositionExists(snapshot, rest);
        var next :| next in rest && forall d | d in rest :: snapshot[next].positionNumber <= snapshot[d].positionNumber;
        SelectionStep(snapshot, docs, rest, next);
        docs := docs + [next];
        rest := rest - {next};
      }
      SelectionDone(snapshot, docs);
    }

    /**
     * Writes `positionNumber: i + 1` to the i-th card of `modifiedCards`, or,
     * when none are given, of the list's cards in position order, in one
     * batch. The batch is atomic: when a named card does not exist, it
     * rejects and writes nothing. `order` is the sequence the batch follows.
     */
    method UpdateCardsPositionNumber(listId: Id, modifiedCards: Option<seq<Id>>) returns (outcome: Outcome, ghost order: seq<Id>)
      modifies this`cards
      ensures modifiedCards.Some? ==> order == modifiedCards.value
      ensures modifiedCards.None? ==> IsPositionOrder(old(CurrCards(listId)), order)
      ensures (forall i | 0 <= i < |order| :: order[i] in old(CurrCards(listId))) ==>
        outcome == Resolved && cards == RenumberedBy(old(cards), ListPath(currBoardId, listId), order)
      ensures !(forall i | 0 <= i < |order| :: order[i] in old(CurrCards(listId))) ==>
        outcome == Rejected(DbError(NotFound)) && cards == old(cards)
    {
      var path := ListPath(currBoardId, listId);
      var current := CardsAt(cards, path);
      var ids: seq<Id>;
      if modifiedCards.Some? {
        ids := modifiedCards.value;
      } else {
        ids := GetCardsOrderedByPosition(listId);
      }
      order := ids;
      var allExist, batch := Batch(current, ids);
      if !allExist {
        return Rejected(DbError(NotFound)), order;
      }
      if ids != [] {
        cards := cards[path := batch];
      }
      outcome := Resolved;
    }

    /**
     * Deletes a card and, unless it was the last of its list, renumbers the
     * list in position order. A permission-denied delete rejects with a
     * message and changes nothing; any other failed delete is swallowed and
     * the list is still renumbered. `deleteError` is how the delete fails,
     * if it does.
     */
    method RemoveCard(listId: Id, cardId: Id, isLastInList: bool, deleteError: Option<ErrorCode>)
      returns (outcome: Outcome, ghost order: seq<Id>)
      modifies this`cards
      ensures deleteError == Some(PermissionDenied) ==>
        outcome == Rejected(Message(CARD_DELETE_DENIED)) && cards == old(cards)
      ensures deleteError != Some(PermissionDenied) ==>
        var path := ListPath(currBoardId, listId);
        var afterDelete := if deleteError.None? then old(cards)[path := old(CurrCards(listId)) - {cardId}] else old(cards);
        && outcome == Resolved
        && (!isLastInList ==> IsPositionOrder(CardsAt(afterDelete, path), order))
        && cards == RenumberedIf(afterDelete, path, !isLastInList, order)
    {
      order := [];
      if deleteError == Some(PermissionDenied) {
        return Rejected(Message(CARD_DELETE_DENIED)), order;
      }
      if deleteError.None? {
        cards := cards[ListPath(currBoardId, listId) := CurrCards(listId) - {cardId}];
      }
      outcome := Resolved;
      if !isLastInList {
        outcome, order := UpdateCardsPositionNumber(listId, None);
      }
    }

    /**
     * Copies a card into the destination list, at `newCardPosition - 0.5`
     * when it is to be last there and at `newCardPosition` otherwise, deletes
     * it from the source list, and then renumbers the source unless the card
     * was last in it and the destination unless the card is last in it. A
     * card missing from the source list rejects before anything is written.
     */
    method MoveCardToAnotherList(
      srcListId: Id, destListId: Id, cardId: Id, newCardPosition: real,
      isLastInSrcList: bool, isLastInDestList: bool)
      returns (outcome: Outcome, ghost srcOrder: seq<Id>, ghost destOrder: seq<Id>)
      modifies this`cards
      ensures cardId !in old(CurrCards(srcListId)) ==>
        outcome == Rejected(TypeErrorOnUndefined) && cards == old(cards)
      ensures cardId in old(CurrCards(srcListId)) ==>
        && outcome == Resolved
        && IsMoveResult(old(cards), ListPath(currBoardId, srcListId), ListPath(currBoardId, destListId), cardId,
             newCardPosition, isLastInSrcList, isLastInDestList, srcOrder, destOrder, cards)
    {
      srcOrder, destOrder := [], [];
      var srcList := ListPath(currBoardId, srcListId);
      var destList := ListPath(currBoardId, destListId);
      if cardId !in CardsAt(cards, srcList) {
        return Rejected(TypeErrorOnUndefined), srcOrder, destOrder;
      }
      var cardData := CardsAt(cards, srcList)[cardId];
      cardData := cardData.(positionNumber := if isLastInDestList then newCardPosition - 0.5 else newCardPosition);
      cards := cards[destList := CardsAt(cards, destList)[cardId := cardData]];
      cards := cards[srcList := CardsAt(cards, srcList) - {cardId}];
      var renumbered: Outcome;
      if !isLastInSrcList {
        renumbered, srcOrder := UpdateCardsPositionNumber(srcListId, None);
      }
      if !isLastInDestList {
        renumbered, destOrder := UpdateCardsPositionNumber(destListId, None);
      }
      outcome := Resolved;
    }
  }
}
