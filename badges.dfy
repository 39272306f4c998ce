/**
 * The card badge: the project a card is assigned to, looked up in the
 * task-assignment snapshot the client fetched at start-up.
 */
module Badges {
  import opened Common
  import opened Records

  /** A card badge as handed to the host. */
  datatype Badge = Badge(title: string, text: string, callback: Callback)

  const BadgeTitle: string := "Project"
  const NoProjectText: string := "None"

  /** No record among the first `n` of `data` is for card `cardId`. */
  predicate NoMatchBefore(data: seq<Assignment>, cardId: string, n: nat)
    requires n <= |data|
  {
    forall j :: 0 <= j < n ==> data[j].taskId != cardId
  }

  /** Index `i` holds the first record of `data` for card `cardId`. */
  predicate IsFirstMatch(data: seq<Assignment>, cardId: string, i: nat)
  {
    i < |data| && data[i].taskId == cardId && NoMatchBefore(data, cardId, i)
  }

  /** The position of the first record for `cardId`, scanning in array order. */
  function FirstMatch(data: seq<Assignment>, cardId: string): (r: Option<nat>)
    ensures r.Some? ==> IsFirstMatch(data, cardId, r.value)
    ensures r.None? ==> NoMatchBefore(data, cardId, |data|)
  {
    if data == [] then None
    else if data[0].taskId == cardId then Some(0)
    else
      match FirstMatch(data[1..], cardId)
      case None => None
      case Some(k) => Some(k + 1)
  }

  /** At most one index is a first match, so `FirstMatch` finds exactly it. */
  lemma FirstMatchUnique(data: seq<Assignment>, cardId: string, i: nat)
    requires IsFirstMatch(data, cardId, i)
    ensures FirstMatch(data, cardId) == Some(i)
  {
  }

  /** The badge list the host receives for card `cardId`. */
  function CardBadges(data: seq<Assignment>, cardId: string): (r: seq<Badge>)
    ensures |r| == 1
    ensures r[0].title == BadgeTitle && r[0].callback == CardButtonCallback
    ensures forall i: nat :: IsFirstMatch(data, cardId, i) ==> r[0].text == data[i].projectName
    ensures NoMatchBefore(data, cardId, |data|) ==> r[0].text == NoProjectText
  {
    var text :=
      match FirstMatch(data, cardId)
      case Some(i) => data[i].projectName
      case None => NoProjectText;
    forall i: nat | IsFirstMatch(data, cardId, i) ensures text == data[i].projectName {
      FirstMatchUnique(data, cardId, i);
    }
    [Badge(BadgeTitle, text, CardButtonCallback)]
  }

  /** `getBadges`: a scan of the snapshot that returns at the first record for the card. */
  method GetBadges(data: seq<Assignment>, cardId: string) returns (badges: seq<Badge>)
    ensures badges == CardBadges(data, cardId)
  {
    var i := 0;
    while i < |data|
      invariant 0 <= i <= |data|
      invariant NoMatchBefore(data, cardId, i)
    {
      if data[i].taskId == cardId {
        FirstMatchUnique(data, cardId, i);
        return [Badge(BadgeTitle, data[i].projectName, CardButtonCallback)];
      }
      i := i + 1;
    }
    return [Badge(BadgeTitle, NoProjectText, CardButtonCallback)];
  }

  /** The match decides only the text: title, callback and length never vary. */
  lemma BadgesDifferOnlyInText(data1: seq<Assignment>, card1: string,
                               data2: seq<Assignment>, card2: string)
    ensures |CardBadges(data1, card1)| == |CardBadges(data2, card2)|
    ensures CardBadges(data1, card1)[0].(text := "") == CardBadges(data2, card2)[0].(text := "")
  {
  }

  /** Records after the first match for the card never change its badge. */
  lemma {:induction false} LaterRecordsIrrelevant(data: seq<Assignment>, more: seq<Assignment>, cardId: string, i: nat)
    requires IsFirstMatch(data, cardId, i)
    ensures CardBadges(data + more, cardId) == CardBadges(data, cardId)
  {
    assert forall j :: 0 <= j <= i ==> (data + more)[j] == data[j];
    assert IsFirstMatch(data + more, cardId, i);
  }
}
