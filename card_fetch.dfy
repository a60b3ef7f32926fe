/**
 Loading the board: the list of stored cards becomes the id-keyed map that
 `SetCards` installs as the whole state.
 */
module CardFetch {
  import opened CardTypes
  import opened CardReducer

  /** The ids of the cards in a list. */
  function Ids(cards: seq<Card>): set<string> {
    set c | c in cards :: c.id
  }

  /**
   The map the loading loop builds: each card stored under its own id, a later card
   overwriting an earlier one with the same id.
   */
  function CardMap(cards: seq<Card>): (m: map<string, Card>)
    decreases |cards|
    ensures m.Keys == Ids(cards)
    ensures forall k :: k in m ==> m[k].id == k && m[k] in cards
  {
    if cards == [] then map[]
    else
      var init, last := cards[..|cards| - 1], cards[|cards| - 1];
      assert cards == init + [last];
      CardMap(init)[last.id := last]
  }

  /** The last card carrying an id is the one stored under it. */
  lemma {:induction false} CardMapLastWins(cards: seq<Card>, i: nat)
    requires i < |cards|
    requires forall j :: i < j < |cards| ==> cards[j].id != cards[i].id
    ensures cards[i].id in CardMap(cards) && CardMap(cards)[cards[i].id] == cards[i]
    decreases |cards|
  {
    if i < |cards| - 1 {
      var init := cards[..|cards| - 1];
      CardMapLastWins(init, i);
    }
  }

  /** `for (const card of cards) cardMap[card._id] = card;` */
  method FetchCards(cards: seq<Card>) returns (cardMap: map<string, Card>)
    ensures cardMap == CardMap(cards)
  {
    cardMap := map[];
    for i := 0 to |cards|
      invariant cardMap == CardMap(cards[..i])
    {
      assert cards[..i + 1][..i] == cards[..i];
      cardMap := cardMap[cards[i].id := cards[i]];
    }
    assert cards[..|cards|] == cards;
  }

  /**
   After loading, the state holds exactly the listed cards' ids, each under a full card
   carrying that id, and for each id the last listed card with it.
   */
  lemma LoadedState(state: CardsState, cards: seq<Card>, i: nat)
    requires i < |cards|
    requires forall j :: i < j < |cards| ==> cards[j].id != cards[i].id
    ensures var r := Apply(state, SetCards(CardMap(cards)));
      && r.Keys == Ids(cards)
      && (forall k :: k in r ==> r[k].Full? && r[k].card.id == k)
      && r[cards[i].id] == Full(cards[i])
  {
    var m := CardMap(cards);
    var r := Apply(state, SetCards(m));
    assert r == Replace(m);
    CardMapLastWins(cards, i);
    assert m[cards[i].id] == cards[i];
  }
}
