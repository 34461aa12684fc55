/**
  The create view (`/create`): a form buffer of title, description and
  status, and the commit that appends a new card to the stored list.

  The new card is built as the form code writes it: the title goes under
  the key `text`, the description is not copied, and the id is the clock
  reading, with no check against the ids already stored.
 */
module Creator {
  import opened Cards

  /** The form's initial state. */
  const InitialForm: map<string, string> :=
    map[TitleKey := "", DescriptionKey := "", StatusKey := NotStarted]

  /** The form holds the keys the commit reads. */
  predicate FormReady(form: map<string, string>) {
    TitleKey in form && StatusKey in form
  }

  /** `{id: now, text: form.title, status: form.status}`. */
  function NewCard(form: map<string, string>, now: int): (c: Card)
    requires FormReady(form)
    ensures c.id == now
    ensures c.fields.Keys == {TextKey, StatusKey}
    ensures c.fields[TextKey] == form[TitleKey] && c.fields[StatusKey] == form[StatusKey]
    ensures TitleKey !in c.fields && DescriptionKey !in c.fields
  {
    Card(now, map[TextKey := form[TitleKey], StatusKey := form[StatusKey]])
  }

  /** `[...storedCards, newCard]`. */
  function AppendCard(cs: seq<Card>, c: Card): (r: seq<Card>)
    ensures |r| == |cs| + 1
    ensures r[..|cs|] == cs
    ensures r[|cs|] == c
  {
    cs + [c]
  }

  /** A form whose status is a column name appends a card whose status is one too. */
  lemma AppendKeepsBoard(cs: seq<Card>, form: map<string, string>, now: int)
    requires OnBoard(cs) && FormReady(form) && IsColumn(form[StatusKey])
    ensures OnBoard(AppendCard(cs, NewCard(form, now)))
  {
  }

  /**
    Ids stay unique after a create exactly when they were unique before and
    the clock reading is not already a stored id.
   */
  lemma AppendUniqueIds(cs: seq<Card>, c: Card)
    ensures UniqueIds(AppendCard(cs, c)) <==> UniqueIds(cs) && !Contains(cs, c.id)
  {
  }

  /** The create view; `form` is its `formState` state. */
  class CreateCard {
    var form: map<string, string>

    /** The form holds the keys the commit reads, and its status is a column name. */
    ghost predicate Valid()
      reads this
    {
      FormReady(form) && IsColumn(form[StatusKey])
    }

    constructor ()
      ensures form == InitialForm
      ensures Valid()
    {
      form := InitialForm;
    }

    /** `handleInputChange` for the input named `name`: the title or the description input. */
    method InputChange(name: string, value: string)
      requires Valid() && IsTextInput(name)
      modifies this
      ensures Valid()
      ensures form == Assign(old(form), name, value)
    {
      form := Assign(form, name, value);
    }

    /** `handleStatusChange`: the radio buttons set only `status`. */
    method StatusChange(status: Column)
      requires Valid()
      modifies this
      ensures Valid()
      ensures form == Assign(old(form), StatusKey, status)
    {
      form := Assign(form, StatusKey, status);
    }

    /**
      `handleCreateCard` with `now` the reading of `Date.now()`: append the
      new card to the stored list, persist it and go to the board.
     */
    method Create(store: CardStore, now: int) returns (nav: Nav)
      requires Valid()
      modifies store
      ensures store.entry == Some(AppendCard(old(store.Cards()), NewCard(form, now)))
      ensures UniqueIds(store.Cards()) <==> UniqueIds(old(store.Cards())) && !Contains(old(store.Cards()), now)
      ensures OnBoard(old(store.Cards())) ==> OnBoard(store.Cards())
      ensures nav == Navigate(BoardPath)
    {
      var stored := store.Cards();
      var card := NewCard(form, now);
      AppendUniqueIds(stored, card);
      if OnBoard(stored) {
        AppendKeepsBoard(stored, form, now);
      }
      store.Write(AppendCard(stored, card));
      nav := Navigate(BoardPath);
    }
  }
}
