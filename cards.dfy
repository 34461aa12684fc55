/**
  The card record shared by the three views of the kanban board, the two
  object-spread operations the views build their updates from, and the
  `"cards"` entry of the browser's local storage.

  A card is a JavaScript object: a numeric `id` plus string-valued keys
  (`title`, `description`, `status`, and `text` on cards made by the create
  form). The id is kept apart; every other key lives in `fields`, so that
  `{...a, ...b}` is the right-biased map union `a + b` and
  `{...prev, [name]: value}` is the map update `prev[name := value]`.
 */
module Cards {

  datatype Option<+T> = None | Some(value: T)

  /** What a handler asks of the router afterwards. */
  datatype Nav = Stay | Navigate(path: string)

  /** The board view's route. */
  const BoardPath := "/"

  const IdKey := "id"
  const TitleKey := "title"
  const DescriptionKey := "description"
  const StatusKey := "status"
  const TextKey := "text"

  const NotStarted := "Not Started"
  const InProgress := "In Progress"
  const Completed := "Completed"

  predicate IsColumn(s: string) {
    s == NotStarted || s == InProgress || s == Completed
  }

  /** The status union type `"Not Started" | "In Progress" | "Completed"`. */
  type Column = s: string | IsColumn(s) witness "Not Started"

  /** The three columns, in the order the board and the forms list them. */
  const Columns: seq<Column> := [NotStarted, InProgress, Completed]

  datatype Card = Card(id: int, fields: map<string, string>)

  /** The card's status is one of the three column names. */
  predicate OnColumn(c: Card) {
    StatusKey in c.fields && IsColumn(c.fields[StatusKey])
  }

  /** Every card's status is one of the three column names. */
  predicate OnBoard(cs: seq<Card>) {
    forall k :: 0 <= k < |cs| ==> OnColumn(cs[k])
  }

  /** The names of the two text inputs of the create and edit forms. */
  predicate IsTextInput(name: string) {
    name == TitleKey || name == DescriptionKey
  }

  /** `card.status === s`; a card without a status key matches no string. */
  predicate HasStatus(c: Card, s: string) {
    StatusKey in c.fields && c.fields[StatusKey] == s
  }

  /** The object spread `{...m, [name]: value}`. */
  function Assign(m: map<string, string>, name: string, value: string): (r: map<string, string>)
    ensures r.Keys == m.Keys + {name}
    ensures r[name] == value
    ensures forall k :: k in m && k != name ==> r[k] == m[k]
  {
    m[name := value]
  }

  /** The object spread `{...a, ...b}`: every key of either, `b` winning on shared keys. */
  function Spread(a: map<string, string>, b: map<string, string>): (r: map<string, string>)
    ensures r.Keys == a.Keys + b.Keys
    ensures forall k :: k in b ==> r[k] == b[k]
    ensures forall k :: k in a && k !in b ==> r[k] == a[k]
  {
    a + b
  }

  /** `{...c, [name]: value}` on a card, for a key other than its id. */
  function SetField(c: Card, name: string, value: string): (r: Card)
    requires name != IdKey
    ensures r.id == c.id
    ensures r.fields.Keys == c.fields.Keys + {name}
    ensures r.fields[name] == value
    ensures forall k :: k in c.fields && k != name ==> r.fields[k] == c.fields[k]
  {
    Card(c.id, Assign(c.fields, name, value))
  }

  /** `{...card, ...buffer}` where the buffer is itself a whole card: its id wins too. */
  function Merge(card: Card, buffer: Card): (r: Card)
    ensures r.id == buffer.id
    ensures r.fields.Keys == card.fields.Keys + buffer.fields.Keys
    ensures forall k :: k in buffer.fields ==> r.fields[k] == buffer.fields[k]
    ensures forall k :: k in card.fields && k !in buffer.fields ==> r.fields[k] == card.fields[k]
  {
    Card(buffer.id, Spread(card.fields, buffer.fields))
  }

  /** Spreading the same keys twice adds nothing. */
  lemma AssignIdempotent(m: map<string, string>, name: string, value: string)
    ensures Assign(Assign(m, name, value), name, value) == Assign(m, name, value)
  {
  }

  /** Re-assigning a key its current value leaves the object as it was. */
  lemma AssignCurrent(m: map<string, string>, name: string)
    requires name in m
    ensures Assign(m, name, m[name]) == m
  {
  }

  /** Spreading the same buffer a second time changes nothing. */
  lemma SpreadIdempotent(a: map<string, string>, b: map<string, string>)
    ensures Spread(Spread(a, b), b) == Spread(a, b)
  {
  }

  /** Some card of `cs` carries `id`. */
  predicate Contains(cs: seq<Card>, id: int) {
    exists k :: 0 <= k < |cs| && cs[k].id == id
  }

  function Ids(cs: seq<Card>): (r: seq<int>)
    ensures |r| == |cs|
    ensures forall k :: 0 <= k < |cs| ==> r[k] == cs[k].id
  {
    seq(|cs|, k requires 0 <= k < |cs| => cs[k].id)
  }

  /** No two cards share an id. */
  predicate UniqueIds(cs: seq<Card>) {
    forall i, j :: 0 <= i < j < |cs| ==> cs[i].id != cs[j].id
  }

  /** `r` is `s` with some elements left out and the rest in their original order. */
  ghost predicate Subsequence<T>(r: seq<T>, s: seq<T>)
    decreases |s|
  {
    if r == [] then true
    else if s == [] then false
    else (r[0] == s[0] && Subsequence(r[1..], s[1..])) || Subsequence(r, s[1..])
  }

  /**
    The `"cards"` entry of local storage. `entry` is None when the key is
    absent or holds the empty string: both read as `"[]"`.
   */
  class CardStore {
    var entry: Option<seq<Card>>

    constructor (entry: Option<seq<Card>>)
      ensures this.entry == entry
    {
      this.entry := entry;
    }

    /** `JSON.parse(localStorage.getItem("cards") || "[]")`. */
    function Cards(): (cs: seq<Card>)
      reads this
      ensures entry.None? ==> cs == []
      ensures entry.Some? ==> cs == entry.value
    {
      match entry
      case None => []
      case Some(stored) => stored
    }

    /** `localStorage.setItem("cards", JSON.stringify(cs))`. */
    method Write(cs: seq<Card>)
      modifies this
      ensures entry == Some(cs)
      ensures Cards() == cs
    {
      entry := Some(cs);
    }
  }
}
