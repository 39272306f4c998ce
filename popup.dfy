/**
 * The card button's popup: every card of the user's project boards becomes an
 * item that, when chosen, assigns the current card to that project card.
 */
module Popup {
  import opened Common
  import opened Records
  import opened Http

  /** A card as the board-cards listing returns it (the fields the client reads). */
  datatype TrelloCard = TrelloCard(id: string, name: string, url: string)

  /** One popup item as handed to the host. */
  datatype PopupItem = PopupItem(text: string, url: string, callback: Callback)

  /** The total number of cards over all boards. */
  function TotalCards(boards: seq<seq<TrelloCard>>): nat
  {
    if boards == [] then 0 else |boards[0]| + TotalCards(boards[1..])
  }

  /** `[].concat.apply([], data)`: the per-board lists joined in board order. */
  function Flatten(boards: seq<seq<TrelloCard>>): (r: seq<TrelloCard>)
    ensures |r| == TotalCards(boards)
  {
    if boards == [] then [] else boards[0] + Flatten(boards[1..])
  }

  lemma {:induction false} FlattenAppend(a: seq<seq<TrelloCard>>, b: seq<seq<TrelloCard>>)
    ensures Flatten(a + b) == Flatten(a) + Flatten(b)
  {
    if a == [] {
      assert a + b == b;
    } else {
      assert (a + b)[1..] == a[1..] + b;
      FlattenAppend(a[1..], b);
    }
  }

  /**
   * Card `j` of board `b` sits in the joined list right after the cards of
   * the boards before `b`.
   */
  lemma FlattenAt(boards: seq<seq<TrelloCard>>, b: nat, j: nat)
    requires b < |boards| && j < |boards[b]|
    ensures TotalCards(boards[..b]) + j < |Flatten(boards)|
    ensures Flatten(boards)[TotalCards(boards[..b]) + j] == boards[b][j]
  {
    assert boards == boards[..b] + boards[b..];
    FlattenAppend(boards[..b], boards[b..]);
    assert boards[b..][1..] == boards[b + 1..];
  }

  /** The record posted when the popup item for `card` is chosen. */
  function AssignmentFor(cardId: string, cardUrl: string, boardId: string, card: TrelloCard): (r: Assignment)
    ensures r.taskId == cardId && r.taskUrl == cardUrl && r.boardId == boardId
    ensures r.projectId == card.id && r.projectUrl == card.url && r.projectName == card.name
  {
    Assignment(cardId, cardUrl, card.id, card.url, card.name, boardId)
  }

  /** The item for each card, in card order. */
  function Items(cardId: string, cardUrl: string, boardId: string, cards: seq<TrelloCard>): (r: seq<PopupItem>)
    ensures |r| == |cards|
    ensures forall i :: 0 <= i < |cards| ==>
      r[i].text == cards[i].name && r[i].url == cards[i].url &&
      r[i].callback == PostAssignment(AssignmentFor(cardId, cardUrl, boardId, cards[i]))
  {
    if cards == [] then []
    else
      [PopupItem(cards[0].name, cards[0].url, PostAssignment(AssignmentFor(cardId, cardUrl, boardId, cards[0])))]
      + Items(cardId, cardUrl, boardId, cards[1..])
  }

  /** The popup's items for the current card, from the per-board card lists. */
  function PopupItems(cardId: string, cardUrl: string, boardId: string, boards: seq<seq<TrelloCard>>): (r: seq<PopupItem>)
    ensures |r| == TotalCards(boards)
  {
    Items(cardId, cardUrl, boardId, Flatten(boards))
  }

  /** The request an item's callback sends when it is chosen. */
  function Choose(item: PopupItem): (r: Option<Request>)
    ensures r.Some? <==> item.callback.PostAssignment?
    ensures item.callback.PostAssignment? ==> r == Some(SetTaskRequest(item.callback.record))
  {
    match item.callback
    case PostAssignment(record) => Some(SetTaskRequest(record))
    case CardButtonCallback => None
  }

  /**
   * The item for card `j` of board `b` shows that card's name and URL, and
   * choosing it posts the six-field record binding the current card to it.
   */
  lemma PopupItemAt(cardId: string, cardUrl: string, boardId: string,
                    boards: seq<seq<TrelloCard>>, b: nat, j: nat)
    requires b < |boards| && j < |boards[b]|
    ensures var k := TotalCards(boards[..b]) + j;
      var items := PopupItems(cardId, cardUrl, boardId, boards);
      var card := boards[b][j];
      k < |items| &&
      items[k].text == card.name && items[k].url == card.url &&
      Choose(items[k]) == Some(Request(Post, AwsUrl + "/tasks", [("Content-type", "application/json")],
        Some(Assignment(cardId, cardUrl, card.id, card.url, card.name, boardId))))
  {
    FlattenAt(boards, b, j);
  }
}
