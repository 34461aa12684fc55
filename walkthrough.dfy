/**
  A client of the three views: one card goes through the whole board
  lifecycle (create, drag, edit, reopen, delete), and the column counts are
  checked at each step, from the views' contracts and the definitions of the
  status filter and the delete filter on one-card lists.
 */
module Walkthrough {
  import opened Cards
  import opened Editor
  import opened Board
  import opened Creator

  /** The create form, filled in with the title "Draft spec" and committed on an empty store. */
  method CreateDraft(store: CardStore, now: int) returns (card: Card)
    requires store.Cards() == []
    modifies store
    ensures store.Cards() == [card]
    ensures card.id == now && TextKey in card.fields && card.fields[TextKey] == "Draft spec"
    ensures HasStatus(card, NotStarted)
  {
    var create := new CreateCard();
    create.InputChange(TitleKey, "Draft spec");
    var nav := create.Create(store, now);
    assert nav == Navigate(BoardPath);
    card := NewCard(create.form, now);
  }

  /** The counts the board shows for its three columns. */
  predicate ShowsCounts(cs: seq<Card>, notStarted: nat, inProgress: nat, completed: nat) {
    View(cs)[0].count == notStarted && View(cs)[1].count == inProgress && View(cs)[2].count == completed
  }

  /** The board counts the card under "Not Started"; after the drop on "In Progress" it shows 0, 1 and 0. */
  method DragDraft(store: CardStore, card: Card) returns (moved: Card)
    requires store.Cards() == [card] && HasStatus(card, NotStarted)
    modifies store
    ensures store.Cards() == [moved]
    ensures moved.id == card.id && HasStatus(moved, InProgress)
    ensures ShowsCounts(store.Cards(), 0, 1, 0)
  {
    var home := new Home(store);
    assert ByStatus(home.cards, NotStarted) == [card];
    assert ByStatus(home.cards, InProgress) == [];
    assert ByStatus(home.cards, Completed) == [];
    assert ShowsCounts(home.cards, 1, 0, 0);

    home.Drop(store, card.id, InProgress);
    moved := SetField(card, StatusKey, InProgress);
    assert home.cards == [moved] && store.Cards() == [moved];
    assert ByStatus(home.cards, NotStarted) == [];
    assert ByStatus(home.cards, InProgress) == [moved];
    assert ByStatus(home.cards, Completed) == [];
  }

  /** The edit view opens the card and saves the description "v2". */
  method SaveDraft(store: CardStore, card: Card) returns (saved: Card)
    requires store.Cards() == [card] && HasStatus(card, InProgress)
    modifies store
    ensures store.Cards() == [saved]
    ensures saved.id == card.id && HasStatus(saved, InProgress)
    ensures DescriptionKey in saved.fields && saved.fields[DescriptionKey] == "v2"
    ensures ShowsCounts(store.Cards(), 0, 1, 0)
  {
    var page := new Page(card.id);
    var nav := page.Load(store);
    assert Contains(store.Cards(), card.id) by { assert store.Cards()[0].id == card.id; }
    assert page.buffer == Some(card);
    page.InputChange(DescriptionKey, "v2");
    nav := page.Save(store);
    assert nav == Navigate(BoardPath);
    saved := Merge(card, page.buffer.value);
    assert |store.Cards()| == 1 && store.Cards()[0] == saved;
    assert store.Cards() == [saved];
    assert [saved][1..] == [];
  }

  /**
    After a reload of the board, the edit view reopened on the card shows
    description "v2"; deleting it from there empties the store.
   */
  method ReopenAndDelete(store: CardStore, card: Card)
    requires store.Cards() == [card]
    requires DescriptionKey in card.fields && card.fields[DescriptionKey] == "v2"
    modifies store
    ensures store.Cards() == []
    ensures ShowsCounts(store.Cards(), 0, 0, 0)
  {
    var home := new Home(store);
    assert home.cards == [card];
    var page := new Page(card.id);
    var nav := page.Load(store);
    assert Contains(store.Cards(), card.id) by { assert store.Cards()[0].id == card.id; }
    assert page.buffer == Some(card);
    assert page.buffer.value.fields[DescriptionKey] == "v2";

    nav := page.Delete(store);
    assert nav == Navigate(BoardPath);
    assert [card][1..] == [];
    assert Remove([card], card.id) == [];
  }

  /** The whole lifecycle on an initially empty store. */
  method DraftSpec(now: int) returns (shown: seq<ColumnView>)
    ensures |shown| == 3
    ensures forall i :: 0 <= i < |shown| ==> shown[i].count == 0
  {
    var store := new CardStore(None);
    var card := CreateDraft(store, now);
    var moved := DragDraft(store, card);
    var saved := SaveDraft(store, moved);
    ReopenAndDelete(store, saved);
    var home := new Home(store);
    shown := View(home.cards);
  }
}
