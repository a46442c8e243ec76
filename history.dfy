/** The chat history hook (client/src/Hooks/UseHistory.ts): a list of saved
    conversations, newest first, with save, delete by id, clear and lookup.
    The clock readings `saveChat` takes with `Date.now()` are parameters. */
module History {
  import opened Common

  /** `{ role, content }`, the turns a saved conversation keeps. */
  datatype Turn = Turn(role: string, content: string)

  datatype HistoryItem = HistoryItem(id: string, title: string, timestamp: nat, messages: seq<Turn>)

  const TitleLength := 50
  const DefaultTitle := "New Chat"

  /** `messages.find((m) => m.role === 'user')`, as the index found. */
  function FindUser(ms: seq<Turn>): (r: Option<nat>)
    ensures r.Some? ==> r.value < |ms| && ms[r.value].role == "user"
                        && forall j | 0 <= j < r.value :: ms[j].role != "user"
    ensures r.None? ==> forall j | 0 <= j < |ms| :: ms[j].role != "user"
    decreases |ms|
  {
    if |ms| == 0 then None
    else if ms[0].role == "user" then Some(0)
    else match FindUser(ms[1..]) case None => None case Some(i) => Some(i + 1)
  }

  /** `s.substring(0, n)` for `n >= 0`. */
  function Prefix(s: string, n: nat): (r: string)
    ensures |r| <= n && StartsWith(s, r)
    ensures |s| <= n ==> r == s
  {
    if |s| <= n then s else s[..n]
  }

  /** The title `saveChat` gives a conversation. */
  function Title(ms: seq<Turn>): string {
    var first := match FindUser(ms) case None => "" case Some(i) => ms[i].content;
    Prefix(if first == "" then DefaultTitle else first, TitleLength)
  }

  function NewItem(ms: seq<Turn>, idClock: nat, stampClock: nat): HistoryItem {
    HistoryItem(ShowNat(idClock), Title(ms), stampClock, ms)
  }

  /** `items.filter((item) => item.id !== id)`. */
  function Without(items: seq<HistoryItem>, id: string): (r: seq<HistoryItem>)
    ensures |r| <= |items|
    ensures forall k | 0 <= k < |r| :: r[k].id != id && r[k] in items
    decreases |items|
  {
    if |items| == 0 then []
    else if items[0].id != id then [items[0]] + Without(items[1..], id)
    else Without(items[1..], id)
  }

  /** `items.find((item) => item.id === id)`. */
  function Find(items: seq<HistoryItem>, id: string): (r: Option<HistoryItem>)
    ensures r.Some? ==> exists i | 0 <= i < |items| :: items[i] == r.value
                                   && r.value.id == id
                                   && forall j | 0 <= j < i :: items[j].id != id
    ensures r.None? ==> forall i | 0 <= i < |items| :: items[i].id != id
    decreases |items|
  {
    if |items| == 0 then None
    else if items[0].id == id then Some(items[0])
    else
      var r := Find(items[1..], id);
      assert r.Some? ==> exists i | 0 <= i < |items| - 1 :: items[1..][i] == r.value
                                   && r.value.id == id
                                   && forall j | 0 <= j < i :: items[1..][j].id != id;
      assert r.Some? ==> exists i | 0 <= i < |items| :: items[i] == r.value
                                   && r.value.id == id
                                   && forall j | 0 <= j < i :: items[j].id != id by {
        if r.Some? {
          var i :| 0 <= i < |items| - 1 && items[1..][i] == r.value
                   && r.value.id == id && forall j | 0 <= j < i :: items[1..][j].id != id;
          assert items[i + 1] == r.value;
          assert forall j | 0 <= j < i + 1 :: items[j].id != id by {
            forall j | 0 <= j < i + 1 ensures items[j].id != id {
              if j > 0 { assert items[j] == items[1..][j - 1]; }
            }
          }
        }
      }
      r
  }

  /** The hook's `history` state. */
  class HistoryStore {
    var history: seq<HistoryItem>

    constructor()
      ensures history == []
    {
      history := [];
    }

    /** `saveChat(messages)`: nothing for an empty conversation; otherwise the
        new item goes first and its id is returned. */
    method SaveChat(messages: seq<Turn>, idClock: nat, stampClock: nat) returns (id: Option<string>)
      modifies this
      ensures |messages| == 0 ==> history == old(history) && id.None?
      ensures |messages| > 0 ==>
        history == [NewItem(messages, idClock, stampClock)] + old(history) && id == Some(ShowNat(idClock))
    {
      if |messages| == 0 {
        return None;
      }
      var item := NewItem(messages, idClock, stampClock);
      history := [item] + history;
      id := Some(item.id);
    }

    /** `deleteItem(id)`. */
    method DeleteItem(id: string)
      modifies this
      ensures history == Without(old(history), id)
    {
      history := Without(history, id);
    }

    /** `clearHistory()`. */
    method ClearHistory()
      modifies this
      ensures history == []
    {
      history := [];
    }

    /** `getItem(id)`. */
    function GetItem(id: string): (r: Option<HistoryItem>)
      reads this
      ensures r.Some? ==> exists i | 0 <= i < |history| :: history[i] == r.value
                                     && r.value.id == id
                                     && forall j | 0 <= j < i :: history[j].id != id
      ensures r.None? <==> forall i | 0 <= i < |history| :: history[i].id != id
    {
      Find(history, id)
    }
  }

  // ----------------------------------------------------------- properties

  /** The title is the first user turn's text cut to fifty characters. */
  lemma TitleFromFirstUser(ms: seq<Turn>, i: nat)
    requires i < |ms| && ms[i].role == "user" && ms[i].content != ""
    requires forall j | 0 <= j < i :: ms[j].role != "user"
    ensures Title(ms) == Prefix(ms[i].content, TitleLength)
    ensures |Title(ms)| <= TitleLength && StartsWith(ms[i].content, Title(ms))
  {
    var f := FindUser(ms);
    assert f == Some(i);
  }

  /** With no user turn, or an empty first one, the title is `New Chat`. */
  lemma TitleDefault(ms: seq<Turn>)
    requires (forall j | 0 <= j < |ms| :: ms[j].role != "user")
          || exists i | 0 <= i < |ms| :: ms[i].role == "user" && ms[i].content == ""
                                        && forall j | 0 <= j < i :: ms[j].role != "user"
    ensures Title(ms) == DefaultTitle
  {
    var f := FindUser(ms);
    if f.Some? {
      var i :| 0 <= i < |ms| && ms[i].role == "user" && ms[i].content == ""
               && forall j | 0 <= j < i :: ms[j].role != "user";
      assert f.value == i;
    }
  }

  /** Deleting keeps the items of each part in order: the filter distributes
      over concatenation. */
  lemma {:induction false} WithoutAppend(a: seq<HistoryItem>, b: seq<HistoryItem>, id: string)
    ensures Without(a + b, id) == Without(a, id) + Without(b, id)
    decreases |a|
  {
    if |a| == 0 {
      assert a + b == b;
    } else {
      assert (a + b)[1..] == a[1..] + b;
      WithoutAppend(a[1..], b, id);
    }
  }

  /** Deleting an id no item has changes nothing. */
  lemma {:induction false} WithoutAbsent(items: seq<HistoryItem>, id: string)
    requires forall i | 0 <= i < |items| :: items[i].id != id
    ensures Without(items, id) == items
    decreases |items|
  {
    if |items| > 0 {
      WithoutAbsent(items[1..], id);
    }
  }

  /** Every item whose id differs survives a delete. */
  lemma {:induction false} WithoutKeeps(items: seq<HistoryItem>, id: string, x: HistoryItem)
    requires x in items && x.id != id
    ensures x in Without(items, id)
    decreases |items|
  {
    if items[0] != x {
      WithoutKeeps(items[1..], id, x);
    }
  }

  /** After a delete no item with that id can be found. */
  lemma DeletedIsGone(items: seq<HistoryItem>, id: string)
    ensures Find(Without(items, id), id).None?
  {
  }

  /** Looking up the id `saveChat` returned finds the item just saved, even
      when an older item has the same id. */
  lemma SavedIsFound(items: seq<HistoryItem>, ms: seq<Turn>, idClock: nat, stampClock: nat)
    ensures Find([NewItem(ms, idClock, stampClock)] + items, ShowNat(idClock)) == Some(NewItem(ms, idClock, stampClock))
  {
  }
}
