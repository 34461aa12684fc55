/**
  The board view (`/`): the in-memory card list, its three status columns,
  and the drag-and-drop move that rewrites one card's status and persists
  the whole list.
 */
module Board {
  import opened Cards

  /** `cards.map(card => card.id === id ? {...card, status} : card)`. */
  function MoveAll(cs: seq<Card>, id: int, status: string): (r: seq<Card>)
    ensures |r| == |cs|
    ensures forall i :: 0 <= i < |cs| && cs[i].id != id ==> r[i] == cs[i]
    ensures forall i :: 0 <= i < |cs| && cs[i].id == id ==> r[i] == SetField(cs[i], StatusKey, status)
  {
    seq(|cs|, i requires 0 <= i < |cs| =>
      if cs[i].id == id then SetField(cs[i], StatusKey, status) else cs[i])
  }

  /** Moving an id that no card has leaves the list as it was. */
  lemma MoveAbsent(cs: seq<Card>, id: int, status: string)
    requires !Contains(cs, id)
    ensures MoveAll(cs, id, status) == cs
  {
  }

  /** Moving twice to the same status equals moving once. */
  lemma MoveIdempotent(cs: seq<Card>, id: int, status: string)
    ensures MoveAll(MoveAll(cs, id, status), id, status) == MoveAll(cs, id, status)
  {
    forall i | 0 <= i < |cs| && cs[i].id == id
      ensures SetField(SetField(cs[i], StatusKey, status), StatusKey, status) == SetField(cs[i], StatusKey, status)
    {
      AssignIdempotent(cs[i].fields, StatusKey, status);
    }
  }

  /** Dropping a card on the column it is already in leaves the list value unchanged. */
  lemma MoveToCurrentStatus(cs: seq<Card>, id: int, status: string)
    requires forall i :: 0 <= i < |cs| && cs[i].id == id ==> HasStatus(cs[i], status)
    ensures MoveAll(cs, id, status) == cs
  {
    forall i | 0 <= i < |cs| && cs[i].id == id
      ensures SetField(cs[i], StatusKey, status) == cs[i]
    {
      AssignCurrent(cs[i].fields, StatusKey);
    }
  }

  /** A move rewrites statuses only, so every id stays where it was. */
  lemma MoveKeepsIds(cs: seq<Card>, id: int, status: string)
    ensures Ids(MoveAll(cs, id, status)) == Ids(cs)
    ensures UniqueIds(MoveAll(cs, id, status)) <==> UniqueIds(cs)
  {
  }

  /** A drop names a column, so a move to it keeps every status a column name. */
  lemma MoveKeepsBoard(cs: seq<Card>, id: int, status: Column)
    requires OnBoard(cs)
    ensures OnBoard(MoveAll(cs, id, status))
  {
  }

  /** `cards.filter(card => card.status === status)`. */
  function ByStatus(cs: seq<Card>, status: string): (r: seq<Card>)
    ensures forall k :: 0 <= k < |r| ==> HasStatus(r[k], status)
    ensures forall c :: c in r <==> c in cs && HasStatus(c, status)
    ensures Subsequence(r, cs)
    ensures |r| <= |cs|
  {
    if cs == [] then []
    else if HasStatus(cs[0], status) then [cs[0]] + ByStatus(cs[1..], status)
    else ByStatus(cs[1..], status)
  }

  /** The status filter distributes over concatenation: it keeps order and multiplicity. */
  lemma {:induction false} ByStatusAppend(a: seq<Card>, b: seq<Card>, status: string)
    ensures ByStatus(a + b, status) == ByStatus(a, status) + ByStatus(b, status)
  {
    if a == [] {
      assert a + b == b;
    } else {
      assert (a + b)[0] == a[0];
      assert (a + b)[1..] == a[1..] + b;
      ByStatusAppend(a[1..], b, status);
      if HasStatus(a[0], status) {
        assert [a[0]] + (ByStatus(a[1..], status) + ByStatus(b, status))
            == ([a[0]] + ByStatus(a[1..], status)) + ByStatus(b, status);
      }
    }
  }

  /** The filter keeps every card of the status as often as the list holds it, and no other card. */
  lemma {:induction false} ByStatusCount(cs: seq<Card>, status: string)
    ensures forall c :: multiset(ByStatus(cs, status))[c] == (if HasStatus(c, status) then multiset(cs)[c] else 0)
  {
    if cs != [] {
      ByStatusCount(cs[1..], status);
      ByStatusHead(cs, status);
      assert cs == [cs[0]] + cs[1..];
      assert multiset(cs) == multiset{cs[0]} + multiset(cs[1..]);
    }
  }

  /** One step of the filter: the head goes to the group of its own status only. */
  lemma ByStatusHead(cs: seq<Card>, status: string)
    requires cs != []
    ensures multiset(ByStatus(cs, status))
            == (if HasStatus(cs[0], status) then multiset{cs[0]} else multiset{}) + multiset(ByStatus(cs[1..], status))
  {
  }

  /** The three column groups together hold exactly the cards of the list, each as often as it occurs. */
  lemma {:induction false} ColumnsPartition(cs: seq<Card>)
    requires OnBoard(cs)
    ensures multiset(ByStatus(cs, NotStarted)) + multiset(ByStatus(cs, InProgress))
            + multiset(ByStatus(cs, Completed)) == multiset(cs)
    ensures |ByStatus(cs, NotStarted)| + |ByStatus(cs, InProgress)| + |ByStatus(cs, Completed)| == |cs|
  {
    if cs != [] {
      assert OnBoard(cs[1..]) by {
        forall k | 0 <= k < |cs[1..]|
          ensures OnColumn(cs[1..][k])
        {
          assert cs[1..][k] == cs[k + 1];
        }
      }
      ColumnsPartition(cs[1..]);
      ByStatusHead(cs, NotStarted);
      ByStatusHead(cs, InProgress);
      ByStatusHead(cs, Completed);
      assert cs == [cs[0]] + cs[1..];
      assert multiset(cs) == multiset{cs[0]} + multiset(cs[1..]);
      assert OnColumn(cs[0]);
    }
  }

  /** On a board, a card of the list lies in exactly one column, the one its status names. */
  lemma ExactlyOneColumn(cs: seq<Card>, c: Card)
    requires OnBoard(cs) && c in cs
    ensures c in ByStatus(cs, c.fields[StatusKey])
    ensures forall s :: s in Columns && s != c.fields[StatusKey] ==> c !in ByStatus(cs, s)
  {
  }

  /** One rendered column: its status header, the count beside it and its cards. */
  datatype ColumnView = ColumnView(status: Column, count: nat, cards: seq<Card>)

  /** The board's `["Not Started", "In Progress", "Completed"].map(status => ...)`. */
  function View(cs: seq<Card>): (r: seq<ColumnView>)
    ensures |r| == |Columns|
    ensures forall i :: 0 <= i < |r| ==> r[i].status == Columns[i]
    ensures forall i :: 0 <= i < |r| ==> r[i].cards == ByStatus(cs, Columns[i]) && r[i].count == |r[i].cards|
  {
    seq(|Columns|, i requires 0 <= i < |Columns| =>
      var group := ByStatus(cs, Columns[i]);
      ColumnView(Columns[i], |group|, group))
  }

  /** On a board, the counts shown on the three columns add up to the number of cards. */
  lemma ViewCountsSum(cs: seq<Card>)
    requires OnBoard(cs)
    ensures View(cs)[0].count + View(cs)[1].count + View(cs)[2].count == |cs|
  {
    ColumnsPartition(cs);
  }

  /** The board view; `cards` is its `cards` state. */
  class Home {
    var cards: seq<Card>

    /** The `useState` initialiser: the stored list, or empty when the key is absent. */
    constructor (store: CardStore)
      ensures cards == store.Cards()
    {
      cards := store.Cards();
    }

    /** The mount effect: reload the stored list. */
    method Mount(store: CardStore)
      modifies this
      ensures cards == store.Cards()
    {
      cards := store.Cards();
    }

    /** `getCardsByStatus`: the cards of that status, in board order. */
    function CardsByStatus(status: string): (r: seq<Card>)
      reads this
      ensures r == ByStatus(cards, status)
      ensures Subsequence(r, cards)
      ensures forall c :: c in r <==> c in cards && HasStatus(c, status)
      ensures forall c :: multiset(r)[c] == (if HasStatus(c, status) then multiset(cards)[c] else 0)
    {
      ByStatusCount(cards, status);
      ByStatus(cards, status)
    }

    /**
      `moveCard`: rewrite the status of the cards with the dragged id in the
      in-memory list and persist that list; storage is written from the
      in-memory list, not re-read.
     */
    method MoveCard(store: CardStore, draggedId: int, newStatus: string)
      modifies this, store
      ensures cards == MoveAll(old(cards), draggedId, newStatus)
      ensures store.entry == Some(cards)
      ensures UniqueIds(cards) <==> UniqueIds(old(cards))
    {
      var updated := MoveAll(cards, draggedId, newStatus);
      MoveKeepsIds(cards, draggedId, newStatus);
      store.Write(updated);
      cards := updated;
    }

    /** A drop on the zone of `column` moves the dragged card to that column's status. */
    method Drop(store: CardStore, draggedId: int, column: Column)
      modifies this, store
      ensures cards == MoveAll(old(cards), draggedId, column)
      ensures store.entry == Some(cards)
      ensures forall c :: c in cards && c.id == draggedId ==> HasStatus(c, column)
      ensures OnBoard(old(cards)) ==> OnBoard(cards)
    {
      if OnBoard(cards) {
        MoveKeepsBoard(cards, draggedId, column);
      }
      MoveCard(store, draggedId, column);
    }
  }
}
