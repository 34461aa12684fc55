/**
  The edit view (`/page/{id}`): it loads one card into an edit buffer, lets
  the user change the buffer, and then either merges the buffer into every
  stored card with the route's id or deletes every such card.
 */
module Editor {
  import opened Cards

  /** `i` is the index of the first card of `cs` whose id is `id`. */
  predicate IsFirstMatch(cs: seq<Card>, id: int, i: int) {
    0 <= i < |cs| && cs[i].id == id && forall j :: 0 <= j < i ==> cs[j].id != id
  }

  /** `storedCards.find(card => card.id === id)`. */
  function Find(cs: seq<Card>, id: int): (r: Option<Card>)
    ensures r.None? <==> !Contains(cs, id)
    ensures r.Some? ==> exists i :: IsFirstMatch(cs, id, i) && cs[i] == r.value
  {
    if cs == [] then None
    else if cs[0].id == id then
      assert IsFirstMatch(cs, id, 0);
      Some(cs[0])
    else
      FirstMatchOfTail(cs, id);
      Find(cs[1..], id)
  }

  lemma FirstMatchOfTail(cs: seq<Card>, id: int)
    requires cs != [] && cs[0].id != id
    ensures forall i :: IsFirstMatch(cs[1..], id, i) ==> IsFirstMatch(cs, id, i + 1)
    ensures Contains(cs, id) <==> Contains(cs[1..], id)
  {
  }

  /** `prev ? {...prev, [name]: value} : null` on the edit buffer. */
  function EditBuffer(buffer: Option<Card>, name: string, value: string): (r: Option<Card>)
    requires name != IdKey
    ensures r.None? <==> buffer.None?
    ensures r.Some? ==> r.value.id == buffer.value.id
    ensures r.Some? ==> r.value.fields == Assign(buffer.value.fields, name, value)
  {
    match buffer
    case None => None
    case Some(c) => Some(SetField(c, name, value))
  }

  /** `storedCards.map(card => card.id === id ? {...card, ...buffer} : card)`. */
  function SaveAll(cs: seq<Card>, id: int, buffer: Card): (r: seq<Card>)
    ensures |r| == |cs|
    ensures forall i :: 0 <= i < |cs| && cs[i].id != id ==> r[i] == cs[i]
    ensures forall i :: 0 <= i < |cs| && cs[i].id == id ==> r[i] == Merge(cs[i], buffer)
  {
    seq(|cs|, i requires 0 <= i < |cs| => if cs[i].id == id then Merge(cs[i], buffer) else cs[i])
  }

  /** Saving when no stored card has the id writes back the list as it was. */
  lemma SaveAbsent(cs: seq<Card>, id: int, buffer: Card)
    requires !Contains(cs, id)
    ensures SaveAll(cs, id, buffer) == cs
  {
  }

  /**
    Saving the same buffer twice equals saving it once. A merged card takes
    the buffer's id, so the second pass either merges it again, which adds
    nothing, or no longer matches it.
   */
  lemma SaveIdempotent(cs: seq<Card>, id: int, buffer: Card)
    ensures SaveAll(SaveAll(cs, id, buffer), id, buffer) == SaveAll(cs, id, buffer)
  {
    var once := SaveAll(cs, id, buffer);
    forall i | 0 <= i < |cs| && cs[i].id == id && buffer.id == id
      ensures Merge(once[i], buffer) == once[i]
    {
      SpreadIdempotent(cs[i].fields, buffer.fields);
    }
  }

  /** A buffer loaded for `id` keeps every stored id in place, so ids stay unique. */
  lemma SaveKeepsIds(cs: seq<Card>, id: int, buffer: Card)
    requires buffer.id == id
    ensures Ids(SaveAll(cs, id, buffer)) == Ids(cs)
    ensures UniqueIds(SaveAll(cs, id, buffer)) <==> UniqueIds(cs)
  {
  }

  /** A buffer whose status is a column name keeps every stored status a column name. */
  lemma SaveKeepsBoard(cs: seq<Card>, id: int, buffer: Card)
    requires OnBoard(cs) && OnColumn(buffer)
    ensures OnBoard(SaveAll(cs, id, buffer))
  {
  }

  /** `storedCards.filter(card => card.id !== id)`. */
  function Remove(cs: seq<Card>, id: int): (r: seq<Card>)
    ensures !Contains(r, id)
    ensures forall c :: c in r <==> c in cs && c.id != id
    ensures Subsequence(r, cs)
    ensures |r| <= |cs|
  {
    if cs == [] then []
    else if cs[0].id == id then Remove(cs[1..], id)
    else [cs[0]] + Remove(cs[1..], id)
  }

  /** Deleting an id that no card has leaves the list as it was. */
  lemma {:induction false} RemoveAbsent(cs: seq<Card>, id: int)
    requires !Contains(cs, id)
    ensures Remove(cs, id) == cs
  {
    if cs != [] {
      FirstMatchOfTail(cs, id);
      RemoveAbsent(cs[1..], id);
    }
  }

  /** Deleting twice equals deleting once. */
  lemma RemoveIdempotent(cs: seq<Card>, id: int)
    ensures Remove(Remove(cs, id), id) == Remove(cs, id)
  {
  }

  /** Deleting distributes over concatenation: a card's neighbours keep their relative order. */
  lemma {:induction false} RemoveAppend(a: seq<Card>, b: seq<Card>, id: int)
    ensures Remove(a + b, id) == Remove(a, id) + Remove(b, id)
  {
    if a == [] {
      assert a + b == b;
    } else {
      assert (a + b)[0] == a[0];
      assert (a + b)[1..] == a[1..] + b;
      RemoveAppend(a[1..], b, id);
      if a[0].id != id {
        assert [a[0]] + (Remove(a[1..], id) + Remove(b, id))
            == ([a[0]] + Remove(a[1..], id)) + Remove(b, id);
      }
    }
  }

  /** Deleting keeps the remaining ids unique. */
  lemma {:induction false} RemoveKeepsUnique(cs: seq<Card>, id: int)
    requires UniqueIds(cs)
    ensures UniqueIds(Remove(cs, id))
  {
    if cs != [] {
      RemoveKeepsUnique(cs[1..], id);
      if cs[0].id != id {
        var rest := Remove(cs[1..], id);
        forall j | 0 <= j < |rest|
          ensures rest[j].id != cs[0].id
        {
          assert rest[j] in cs[1..];
          var m :| 0 <= m < |cs[1..]| && cs[1..][m] == rest[j];
          assert cs[m + 1] == rest[j];
        }
        var r := [cs[0]] + rest;
        forall i, j | 0 <= i < j < |r|
          ensures r[i].id != r[j].id
        {
          if i > 0 { assert r[i] == rest[i - 1] && r[j] == rest[j - 1]; }
          else { assert r[j] == rest[j - 1]; }
        }
      }
    }
  }

  /** Deleting only drops cards, so every remaining status is still a column name. */
  lemma RemoveKeepsBoard(cs: seq<Card>, id: int)
    requires OnBoard(cs)
    ensures OnBoard(Remove(cs, id))
  {
    var r := Remove(cs, id);
    forall k | 0 <= k < |r|
      ensures OnColumn(r[k])
    {
      assert r[k] in cs;
    }
  }

  /** With unique ids, deleting a stored id removes exactly one card. */
  lemma {:induction false} RemoveUniqueLength(cs: seq<Card>, id: int)
    requires UniqueIds(cs) && Contains(cs, id)
    ensures |Remove(cs, id)| == |cs| - 1
  {
    if cs[0].id == id {
      forall k | 0 <= k < |cs[1..]|
        ensures cs[1..][k].id != id
      {
        assert cs[1..][k] == cs[k + 1];
      }
      RemoveAbsent(cs[1..], id);
    } else {
      FirstMatchOfTail(cs, id);
      assert UniqueIds(cs[1..]) by {
        forall i, j | 0 <= i < j < |cs[1..]|
          ensures cs[1..][i].id != cs[1..][j].id
        {
          assert cs[1..][i] == cs[i + 1] && cs[1..][j] == cs[j + 1];
        }
      }
      RemoveUniqueLength(cs[1..], id);
    }
  }

  /**
    The edit view. `routeId` is `Number(id)` of the route parameter;
    `buffer` is the `formState` state, None standing for `null`.
   */
  class Page {
    const routeId: int
    var buffer: Option<Card>

    /** A loaded buffer is the card of the route's id (edits never touch the id). */
    ghost predicate Valid()
      reads this
    {
      buffer.Some? ==> buffer.value.id == routeId
    }

    constructor (routeId: int)
      ensures this.routeId == routeId && buffer == None
      ensures Valid()
    {
      this.routeId := routeId;
      buffer := None;
    }

    /** The mount effect: load the first stored card with the route's id, or go back to the board. */
    method Load(store: CardStore) returns (nav: Nav)
      requires Valid()
      modifies this
      ensures Valid()
      ensures Contains(store.Cards(), routeId) ==> buffer == Find(store.Cards(), routeId) && nav == Stay
      ensures !Contains(store.Cards(), routeId) ==> buffer == old(buffer) && nav == Navigate(BoardPath)
      ensures OnBoard(store.Cards()) && Contains(store.Cards(), routeId) ==> OnColumn(buffer.value)
    {
      var found := Find(store.Cards(), routeId);
      if found.Some? {
        buffer := found;
        nav := Stay;
      } else {
        nav := Navigate(BoardPath);
      }
    }

    /** `handleInputChange` for the input named `name`: the title or the description input. */
    method InputChange(name: string, value: string)
      requires Valid() && IsTextInput(name)
      modifies this
      ensures Valid()
      ensures buffer == EditBuffer(old(buffer), name, value)
      ensures old(buffer).Some? && OnColumn(old(buffer).value) ==> OnColumn(buffer.value)
    {
      buffer := EditBuffer(buffer, name, value);
    }

    /** `handleStatusChange`: the radio buttons set only `status`. */
    method StatusChange(status: Column)
      requires Valid()
      modifies this
      ensures Valid()
      ensures buffer == EditBuffer(old(buffer), StatusKey, status)
      ensures buffer.Some? ==> OnColumn(buffer.value)
    {
      buffer := EditBuffer(buffer, StatusKey, status);
    }

    /** `handleSave`: merge the buffer into the stored cards of the route's id, then go to the board. */
    method Save(store: CardStore) returns (nav: Nav)
      requires Valid()
      modifies store
      ensures buffer.None? ==> store.entry == old(store.entry) && nav == Stay
      ensures buffer.Some? ==> store.Cards() == SaveAll(old(store.Cards()), routeId, buffer.value)
      ensures buffer.Some? ==> store.entry.Some? && nav == Navigate(BoardPath)
      ensures buffer.Some? ==> (UniqueIds(store.Cards()) <==> UniqueIds(old(store.Cards())))
      ensures buffer.Some? && OnColumn(buffer.value) && OnBoard(old(store.Cards())) ==> OnBoard(store.Cards())
    {
      if buffer.None? {
        return Stay;
      }
      var stored := store.Cards();
      var updated := SaveAll(stored, routeId, buffer.value);
      SaveKeepsIds(stored, routeId, buffer.value);
      if OnColumn(buffer.value) && OnBoard(stored) {
        SaveKeepsBoard(stored, routeId, buffer.value);
      }
      store.Write(updated);
      nav := Navigate(BoardPath);
    }

    /** `handleDelete`: drop every stored card of the route's id, then go to the board. */
    method Delete(store: CardStore) returns (nav: Nav)
      modifies store
      ensures store.entry == Some(Remove(old(store.Cards()), routeId))
      ensures !Contains(store.Cards(), routeId)
      ensures UniqueIds(old(store.Cards())) ==> UniqueIds(store.Cards())
      ensures OnBoard(old(store.Cards())) ==> OnBoard(store.Cards())
      ensures nav == Navigate(BoardPath)
    {
      var stored := store.Cards();
      if OnBoard(stored) {
        RemoveKeepsBoard(stored, routeId);
      }
      if UniqueIds(stored) {
        RemoveKeepsUnique(stored, routeId);
      }
      store.Write(Remove(stored, routeId));
      nav := Navigate(BoardPath);
    }
  }
}
