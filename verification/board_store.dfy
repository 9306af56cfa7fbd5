/**
 * The documents of the task board as Firestore holds them, and the card
 * ordering rules layered on them: a list's cards carry a `positionNumber`,
 * and the service renumbers a list densely to 1..n in a given order.
 *
 * Firestore keeps a sub-collection independently of its parent document, so
 * the cards of a list are addressed by the path of their collection
 * (`boards/{boardId}/lists/{listId}/cards`), whether or not the list
 * document itself exists.
 */
module BoardStore {

  /** Firestore document ids and user ids. */
  type Id = string

  /** A document of the `boards` collection. */
  datatype BoardDoc = BoardDoc(
    title: string,
    backgroundColor: string,
    adminId: Id,
    membersIds: seq<Id>,
    usersIdsWhoseBoardIsFavorite: seq<Id>)

  /** A document of `boards/{boardId}/tags`. */
  datatype Tag = Tag(color: string, name: string)

  /** A document of `boards/{boardId}/lists`. */
  datatype ListDoc = ListDoc(title: string, creatorId: Id)

  /** A document of `boards/{boardId}/lists/{listId}/cards`. */
  datatype Card = Card(
    title: string,
    positionNumber: real,
    description: string,
    creatorId: Id,
    membersIds: seq<Id>,
    usersIdsWhoVoted: seq<Id>,
    tagsIds: seq<Id>,
    attachments: seq<string>,
    wallpaperURL: string)

  /**
   * Every card of the collection was created by `userId`. It holds for an
   * empty collection, and it fails exactly when some card has another
   * creator.
   */
  predicate AllCreatedBy(cards: map<Id, Card>, userId: Id): (r: bool)
    ensures cards == map[] ==> r
    ensures !r <==> exists c | c in cards :: cards[c].creatorId != userId
  {
    forall c | c in cards :: cards[c].creatorId == userId
  }

  /** The path of a list's `cards` collection. */
  datatype ListPath = ListPath(boardId: Id, listId: Id)

  /** Every `cards` collection of the store, by path; a missing path is an empty collection. */
  type CardStore = map<ListPath, map<Id, Card>>

  function CardsAt(store: CardStore, path: ListPath): map<Id, Card> {
    if path in store then store[path] else map[]
  }

  // ---------------------------------------------------------------------
  // Position order: what `orderBy('positionNumber').get()` returns
  // ---------------------------------------------------------------------

  /** `ids` lists every card of `cards` exactly once. */
  predicate Enumerates(cards: map<Id, Card>, ids: seq<Id>) {
    && (forall c | c in cards :: c in ids)
    && (forall i | 0 <= i < |ids| :: ids[i] in cards)
    && (forall i, j | 0 <= i < j < |ids| :: ids[i] != ids[j])
  }

  /**
   * `ids` lists every card exactly once, by non-decreasing `positionNumber`.
   * Cards with equal positions may come in either order.
   */
  predicate IsPositionOrder(cards: map<Id, Card>, ids: seq<Id>) {
    && Enumerates(cards, ids)
    && (forall i, j | 0 <= i < j < |ids| ::
          ids[i] in cards && ids[j] in cards && cards[ids[i]].positionNumber <= cards[ids[j]].positionNumber)
  }

  /** Every non-empty set of cards has one whose position is not above any other's. */
  lemma {:induction false} LowestPositionExists(cards: map<Id, Card>, among: set<Id>)
    requires among != {} && among <= cards.Keys
    ensures exists c :: c in among && forall d | d in among :: cards[c].positionNumber <= cards[d].positionNumber
    decreases among
  {
    var x :| x in among;
    if among != {x} {
      LowestPositionExists(cards, among - {x});
      var c :| c in among - {x} && forall d | d in among - {x} :: cards[c].positionNumber <= cards[d].positionNumber;
      if cards[x].positionNumber < cards[c].positionNumber {
        assert forall d | d in among :: cards[x].positionNumber <= cards[d].positionNumber;
      } else {
        assert forall d | d in among :: cards[c].positionNumber <= cards[d].positionNumber;
      }
    }
  }

  /**
   * Part way through selecting the cards by position: `docs` lists, in
   * position order, the cards not in `rest`, and none of them is positioned
   * above a card still in `rest`.
   */
  ghost predicate SelectionSoFar(cards: map<Id, Card>, docs: seq<Id>, rest: set<Id>) {
    && rest <= cards.Keys
    && (forall c | c in cards && c !in rest :: c in docs)
    && (forall i | 0 <= i < |docs| :: docs[i] in cards && docs[i] !in rest)
    && (forall i, j | 0 <= i < j < |docs| :: docs[i] != docs[j])
    && (forall i, j | 0 <= i < j < |docs| :: cards[docs[i]].positionNumber <= cards[docs[j]].positionNumber)
    && (forall i, d | 0 <= i < |docs| && d in rest :: cards[docs[i]].positionNumber <= cards[d].positionNumber)
  }

  /** Selecting a lowest-positioned remaining card keeps the selection in position order. */
  lemma SelectionStep(cards: map<Id, Card>, docs: seq<Id>, rest: set<Id>, next: Id)
    requires SelectionSoFar(cards, docs, rest)
    requires next in rest && forall d | d in rest :: cards[next].positionNumber <= cards[d].positionNumber
    ensures SelectionSoFar(cards, docs + [next], rest - {next})
  {
    var docs' := docs + [next];
    assert forall i | 0 <= i < |docs| :: docs'[i] == docs[i];
  }

  /** A finished selection is a position order of all the cards. */
  lemma SelectionDone(cards: map<Id, Card>, docs: seq<Id>)
    requires SelectionSoFar(cards, docs, {})
    ensures IsPositionOrder(cards, docs)
  {
  }

  /** A sequence listing a set of cards exactly once is as long as the set is large. */
  lemma {:induction false} EnumerationLength(cards: map<Id, Card>, ids: seq<Id>)
    requires Enumerates(cards, ids)
    ensures |ids| == |cards|
    decreases |ids|
  {
    if ids == [] {
      assert cards.Keys == {};
    } else {
      var first := ids[0];
      var rest := cards - {first};
      var tail := ids[1..];
      forall c | c in rest
        ensures c in tail
      {
        var i :| 0 <= i < |ids| && ids[i] == c;
        assert tail[i - 1] == c;
      }
      forall i | 0 <= i < |tail|
        ensures tail[i] in rest
      {
        assert tail[i] == ids[i + 1] != ids[0];
      }
      assert Enumerates(rest, tail);
      EnumerationLength(rest, tail);
      assert cards.Keys == rest.Keys + {first} && first !in rest.Keys;
    }
  }

  // ---------------------------------------------------------------------
  // Dense renumbering: `batch.update(card, { positionNumber: index + 1 })`
  // ---------------------------------------------------------------------

  /**
   * The cards after the batch that writes `positionNumber: i + 1` to the
   * card `ids[i]`, for every i in order (a later write to the same card wins).
   */
  function Renumbered(cards: map<Id, Card>, ids: seq<Id>): (r: map<Id, Card>)
    requires forall i | 0 <= i < |ids| :: ids[i] in cards
    ensures r.Keys == cards.Keys
    decreases |ids|
  {
    if ids == [] then cards
    else
      var prev := Renumbered(cards, ids[..|ids| - 1]);
      var last := ids[|ids| - 1];
      prev[last := prev[last].(positionNumber := |ids| as real)]
  }

  /** Renumbering changes no field of any card but `positionNumber`. */
  lemma {:induction false} RenumberedOnlyMovesPositions(cards: map<Id, Card>, ids: seq<Id>, c: Id)
    requires forall i | 0 <= i < |ids| :: ids[i] in cards
    requires c in cards
    ensures Renumbered(cards, ids)[c] == cards[c].(positionNumber := Renumbered(cards, ids)[c].positionNumber)
    decreases |ids|
  {
    if ids != [] {
      RenumberedOnlyMovesPositions(cards, ids[..|ids| - 1], c);
    }
  }

  /** A card the batch does not name keeps its document unchanged. */
  lemma {:induction false} RenumberedUntouched(cards: map<Id, Card>, ids: seq<Id>, c: Id)
    requires forall i | 0 <= i < |ids| :: ids[i] in cards
    requires c in cards && c !in ids
    ensures Renumbered(cards, ids)[c] == cards[c]
    decreases |ids|
  {
    if ids != [] {
      assert c != ids[|ids| - 1];
      assert c !in ids[..|ids| - 1];
      RenumberedUntouched(cards, ids[..|ids| - 1], c);
    }
  }

  /** The last write to a card decides its position: i + 1 for its last index i. */
  lemma {:induction false} RenumberedLastWriteWins(cards: map<Id, Card>, ids: seq<Id>, i: nat)
    requires forall k | 0 <= k < |ids| :: ids[k] in cards
    requires i < |ids|
    requires forall j | i < j < |ids| :: ids[j] != ids[i]
    ensures Renumbered(cards, ids)[ids[i]].positionNumber == (i + 1) as real
    decreases |ids|
  {
    if i < |ids| - 1 {
      var front := ids[..|ids| - 1];
      assert front[i] == ids[i];
      RenumberedLastWriteWins(cards, front, i);
    }
  }

  /** With no card named twice, the card at index i of the batch gets position i + 1. */
  lemma RenumberedAt(cards: map<Id, Card>, ids: seq<Id>, i: nat)
    requires forall k | 0 <= k < |ids| :: ids[k] in cards
    requires forall k, l | 0 <= k < l < |ids| :: ids[k] != ids[l]
    requires i < |ids|
    ensures Renumbered(cards, ids)[ids[i]] == cards[ids[i]].(positionNumber := (i + 1) as real)
  {
    RenumberedLastWriteWins(cards, ids, i);
    RenumberedOnlyMovesPositions(cards, ids, ids[i]);
  }

  /**
   * Renumbering by a sequence that lists every card once gives the i-th card
   * of the sequence position i + 1, so the positions strictly increase along
   * the sequence, which is a position order of the result.
   */
  lemma RenumberedIsDense(cards: map<Id, Card>, ids: seq<Id>)
    requires Enumerates(cards, ids)
    ensures forall i | 0 <= i < |ids| :: Renumbered(cards, ids)[ids[i]] == cards[ids[i]].(positionNumber := (i + 1) as real)
    ensures IsPositionOrder(Renumbered(cards, ids), ids)
    ensures forall i, j | 0 <= i < j < |ids| ::
      Renumbered(cards, ids)[ids[i]].positionNumber < Renumbered(cards, ids)[ids[j]].positionNumber
  {
    var r := Renumbered(cards, ids);
    forall i | 0 <= i < |ids|
      ensures r[ids[i]] == cards[ids[i]].(positionNumber := (i + 1) as real)
    {
      RenumberedAt(cards, ids, i);
    }
    assert Enumerates(r, ids);
    NumberedByIndex(r, ids);
  }

  /**
   * After renumbering a list of n cards by a sequence that lists each once,
   * every position is a whole number in 1..n and no two cards share one.
   */
  lemma RenumberedPositionsAreOneToN(cards: map<Id, Card>, ids: seq<Id>)
    requires Enumerates(cards, ids)
    ensures forall c | c in Renumbered(cards, ids) ::
      && Renumbered(cards, ids)[c].positionNumber.Floor as real == Renumbered(cards, ids)[c].positionNumber
      && 1.0 <= Renumbered(cards, ids)[c].positionNumber <= |cards| as real
    ensures forall a, b | a in Renumbered(cards, ids) && b in Renumbered(cards, ids) && a != b ::
      Renumbered(cards, ids)[a].positionNumber != Renumbered(cards, ids)[b].positionNumber
  {
    RenumberedIsDense(cards, ids);
    NumberedByIndex(Renumbered(cards, ids), ids);
    EnumerationLength(cards, ids);
  }

  /**
   * Cards numbered 1..n by their index in a sequence listing each once are
   * in position order, strictly increasing, on whole numbers in 1..n, and
   * no two of them share a position.
   */
  lemma NumberedByIndex(cards: map<Id, Card>, ids: seq<Id>)
    requires Enumerates(cards, ids)
    requires forall i | 0 <= i < |ids| :: cards[ids[i]].positionNumber == (i + 1) as real
    ensures IsPositionOrder(cards, ids)
    ensures forall i, j | 0 <= i < j < |ids| :: cards[ids[i]].positionNumber < cards[ids[j]].positionNumber
    ensures forall c | c in cards ::
      && cards[c].positionNumber.Floor as real == cards[c].positionNumber
      && 1.0 <= cards[c].positionNumber <= |ids| as real
    ensures forall a, b | a in cards && b in cards && a != b :: cards[a].positionNumber != cards[b].positionNumber
  {
    forall c | c in cards
      ensures cards[c].positionNumber.Floor as real == cards[c].positionNumber
      ensures 1.0 <= cards[c].positionNumber <= |ids| as real
    {
      var i :| 0 <= i < |ids| && ids[i] == c;
      assert cards[c].positionNumber == (i + 1) as real;
    }
    forall a, b | a in cards && b in cards && a != b
      ensures cards[a].positionNumber != cards[b].positionNumber
    {
      var i :| 0 <= i < |ids| && ids[i] == a;
      var j :| 0 <= j < |ids| && ids[j] == b;
      assert i != j;
    }
  }

  /** In a position order, a card positioned strictly below another comes before it. */
  lemma PositionOrderIndexes(cards: map<Id, Card>, ids: seq<Id>, i: nat, j: nat)
    requires IsPositionOrder(cards, ids)
    requires i < |ids| && j < |ids|
    requires cards[ids[i]].positionNumber < cards[ids[j]].positionNumber
    ensures i < j
  {
  }

  /** Renumbering keeps every strict order between two cards' positions. */
  lemma RenumberedKeepsOrder(cards: map<Id, Card>, ids: seq<Id>, a: Id, b: Id)
    requires IsPositionOrder(cards, ids)
    requires a in cards && b in cards
    requires cards[a].positionNumber < cards[b].positionNumber
    ensures Renumbered(cards, ids)[a].positionNumber < Renumbered(cards, ids)[b].positionNumber
  {
    var i :| 0 <= i < |ids| && ids[i] == a;
    var j :| 0 <= j < |ids| && ids[j] == b;
    PositionOrderIndexes(cards, ids, i, j);
    RenumberedAt(cards, ids, i);
    RenumberedAt(cards, ids, j);
  }

  /** Renumbering a densely renumbered list again in the same order changes nothing. */
  lemma RenumberedIdempotent(cards: map<Id, Card>, ids: seq<Id>)
    requires Enumerates(cards, ids)
    ensures Renumbered(Renumbered(cards, ids), ids) == Renumbered(cards, ids)
  {
    var r := Renumbered(cards, ids);
    assert Enumerates(r, ids) by {
      RenumberedIsDense(cards, ids);
    }
    forall c | c in r
      ensures Renumbered(r, ids)[c] == r[c]
    {
      var i :| 0 <= i < |ids| && ids[i] == c;
      RenumberedAt(cards, ids, i);
      RenumberedAt(r, ids, i);
    }
  }

  // ---------------------------------------------------------------------
  // Moving a card to another list
  // ---------------------------------------------------------------------

  /**
   * The position a moved card is written with in the destination list: a
   * card that goes last lands half a step below `newCardPosition`, any other
   * card at `newCardPosition` itself.
   */
  function LandingPosition(newCardPosition: real, isLastInDestList: bool): (r: real)
    ensures r <= newCardPosition
    ensures r == newCardPosition <==> !isLastInDestList
    ensures isLastInDestList ==> newCardPosition - r == 0.5
  {
    if isLastInDestList then newCardPosition - 0.5 else newCardPosition
  }

  /**
   * `set` of the card into the destination collection, then `delete` of it
   * from the source collection.
   */
  function Transfer(store: CardStore, src: ListPath, dest: ListPath, cardId: Id, landed: Card): (r: CardStore)
    ensures forall p | p != src && p != dest :: CardsAt(r, p) == CardsAt(store, p)
  {
    var copied := store[dest := CardsAt(store, dest)[cardId := landed]];
    copied[src := CardsAt(copied, src) - {cardId}]
  }

  /**
   * The store after the batch that renumbers the collection at `path` by
   * `ids`; an empty batch writes nothing.
   */
  function RenumberedBy(store: CardStore, path: ListPath, ids: seq<Id>): (r: CardStore)
    requires forall i | 0 <= i < |ids| :: ids[i] in CardsAt(store, path)
    ensures CardsAt(r, path) == Renumbered(CardsAt(store, path), ids)
    ensures forall p | p != path :: CardsAt(r, p) == CardsAt(store, p)
  {
    if ids == [] then store else store[path := Renumbered(CardsAt(store, path), ids)]
  }

  /** The store after renumbering the collection at `path` in `order`, when `renumber` holds. */
  function RenumberedIf(store: CardStore, path: ListPath, renumber: bool, order: seq<Id>): (r: CardStore)
    requires renumber ==> IsPositionOrder(CardsAt(store, path), order)
    ensures CardsAt(r, path).Keys == CardsAt(store, path).Keys
    ensures forall p | p != path :: CardsAt(r, p) == CardsAt(store, p)
  {
    if renumber then RenumberedBy(store, path, order) else store
  }

  /**
   * `after` is the store `before` once `moveCardToAnotherList` has copied the
   * card to the destination with its landing position, deleted it from the
   * source, renumbered the source unless the card was last in it (in
   * `srcOrder`) and then renumbered the destination unless the card is last
   * in it (in `destOrder`). The two orders are what the position queries
   * return at those points.
   */
  ghost predicate IsMoveResult(
    before: CardStore, src: ListPath, dest: ListPath, cardId: Id, newCardPosition: real,
    isLastInSrcList: bool, isLastInDestList: bool, srcOrder: seq<Id>, destOrder: seq<Id>, after: CardStore): (r: bool)
    requires cardId in CardsAt(before, src)
    ensures r ==> CardsAt(after, src).Keys == CardsAt(before, src).Keys - {cardId}
    ensures r ==> forall p | p != src && p != dest :: CardsAt(after, p) == CardsAt(before, p)
  {
    var landed := CardsAt(before, src)[cardId].(positionNumber := LandingPosition(newCardPosition, isLastInDestList));
    var moved := Transfer(before, src, dest, cardId, landed);
    && (!isLastInSrcList ==> IsPositionOrder(CardsAt(moved, src), srcOrder))
    && var srcDone := RenumberedIf(moved, src, !isLastInSrcList, srcOrder);
    && (!isLastInDestList ==> IsPositionOrder(CardsAt(srcDone, dest), destOrder))
    && after == RenumberedIf(srcDone, dest, !isLastInDestList, destOrder)
  }

  /**
   * Moving a card between two different lists: afterwards the card, with all
   * its fields but the position unchanged, is in the destination and not in
   * the source. It keeps its landing position `newCardPosition - 0.5` when it
   * is last in the destination; otherwise the destination is renumbered
   * densely and the card sits after every card that was positioned below
   * `newCardPosition` and before every card positioned above it. No other
   * list changes, and the source loses exactly that card.
   */
  lemma MoveCardLandsInDestination(
    before: CardStore, src: ListPath, dest: ListPath, cardId: Id, newCardPosition: real,
    isLastInSrcList: bool, isLastInDestList: bool, srcOrder: seq<Id>, destOrder: seq<Id>, after: CardStore)
    requires src != dest
    requires cardId in CardsAt(before, src)
    requires IsMoveResult(before, src, dest, cardId, newCardPosition, isLastInSrcList, isLastInDestList, srcOrder, destOrder, after)
    ensures cardId !in CardsAt(after, src)
    ensures CardsAt(after, src).Keys == CardsAt(before, src).Keys - {cardId}
    ensures CardsAt(after, dest).Keys == CardsAt(before, dest).Keys + {cardId}
    ensures CardsAt(after, dest)[cardId]
         == CardsAt(before, src)[cardId].(positionNumber := CardsAt(after, dest)[cardId].positionNumber)
    ensures isLastInDestList ==> CardsAt(after, dest)[cardId].positionNumber == newCardPosition - 0.5
    ensures !isLastInDestList ==> forall d | d in CardsAt(before, dest) && d != cardId ::
      (CardsAt(before, dest)[d].positionNumber < newCardPosition ==>
         CardsAt(after, dest)[d].positionNumber < CardsAt(after, dest)[cardId].positionNumber)
      && (newCardPosition < CardsAt(before, dest)[d].positionNumber ==>
         CardsAt(after, dest)[cardId].positionNumber < CardsAt(after, dest)[d].positionNumber)
    ensures forall p | p != src && p != dest :: CardsAt(after, p) == CardsAt(before, p)
  {
    var card := CardsAt(before, src)[cardId];
    var landed := card.(positionNumber := LandingPosition(newCardPosition, isLastInDestList));
    var moved := Transfer(before, src, dest, cardId, landed);
    assert CardsAt(moved, dest) == CardsAt(before, dest)[cardId := landed];
    assert CardsAt(moved, src) == CardsAt(before, src) - {cardId};
    var srcDone := RenumberedIf(moved, src, !isLastInSrcList, srcOrder);
    assert CardsAt(srcDone, dest) == CardsAt(moved, dest);
    var destCards := CardsAt(moved, dest);
    if !isLastInDestList {
      RenumberedOnlyMovesPositions(destCards, destOrder, cardId);
      forall d | d in CardsAt(before, dest) && d != cardId
        ensures CardsAt(before, dest)[d].positionNumber < newCardPosition ==>
          CardsAt(after, dest)[d].positionNumber < CardsAt(after, dest)[cardId].positionNumber
        ensures newCardPosition < CardsAt(before, dest)[d].positionNumber ==>
          CardsAt(after, dest)[cardId].positionNumber < CardsAt(after, dest)[d].positionNumber
      {
        assert destCards[d] == CardsAt(before, dest)[d];
        if CardsAt(before, dest)[d].positionNumber < newCardPosition {
          RenumberedKeepsOrder(destCards, destOrder, d, cardId);
        }
        if newCardPosition < CardsAt(before, dest)[d].positionNumber {
          RenumberedKeepsOrder(destCards, destOrder, cardId, d);
        }
      }
    }
  }

  /**
   * When the source and destination are the same list, the copy lands on
   * the card's own document and the following delete removes it: the card
   * is no longer in the list.
   */
  lemma MoveCardWithinOneListDropsIt(
    before: CardStore, list: ListPath, cardId: Id, newCardPosition: real,
    isLastInSrcList: bool, isLastInDestList: bool, srcOrder: seq<Id>, destOrder: seq<Id>, after: CardStore)
    requires cardId in CardsAt(before, list)
    requires IsMoveResult(before, list, list, cardId, newCardPosition, isLastInSrcList, isLastInDestList, srcOrder, destOrder, after)
    ensures CardsAt(after, list).Keys == CardsAt(before, list).Keys - {cardId}
  {
  }
}
