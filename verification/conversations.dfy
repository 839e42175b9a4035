/** The application's records and the list operations on the saved collection. */
module Conversations {
  import opened Base

  /** One transcript entry; `isUser` separates the user's turns from the model's. */
  datatype ChatMessage = ChatMessage(content: string, isUser: bool, timestamp: string)

  /** A named snapshot of a transcript; the name is the key within the collection. */
  datatype SavedConversation = SavedConversation(name: string, messages: seq<ChatMessage>)

  /** No two entries of the collection share a name. */
  predicate UniqueNames(saved: seq<SavedConversation>) {
    forall i, j :: 0 <= i < j < |saved| ==> saved[i].name != saved[j].name
  }

  /** The names the collection holds. */
  function Names(saved: seq<SavedConversation>): set<string> {
    set i | 0 <= i < |saved| :: saved[i].name
  }

  /** `iter().position(|c| c.name == name)`: the index of the first entry so named. */
  function Position(saved: seq<SavedConversation>, name: string): (r: Option<nat>)
    ensures r.None? <==> forall j :: 0 <= j < |saved| ==> saved[j].name != name
    ensures r.Some? ==> r.value < |saved| && saved[r.value].name == name
    ensures r.Some? ==> forall j :: 0 <= j < r.value ==> saved[j].name != name
    decreases |saved|
  {
    if |saved| == 0 then None
    else if saved[0].name == name then Some(0)
    else
      match Position(saved[1..], name)
      case None => None
      case Some(i) => Some(i + 1)
  }

  /**
   * Insert-or-replace keyed by name: the first entry with `c`'s name is
   * overwritten in place, and without one `c` goes to the end.
   */
  function Upsert(saved: seq<SavedConversation>, c: SavedConversation): (r: seq<SavedConversation>)
    ensures Position(saved, c.name).Some? ==>
      var i := Position(saved, c.name).value;
      && |r| == |saved|
      && r[i] == c
      && forall j :: 0 <= j < |r| && j != i ==> r[j] == saved[j]
    ensures Position(saved, c.name).None? ==>
      && |r| == |saved| + 1
      && r[|saved|] == c
      && r[..|saved|] == saved
  {
    match Position(saved, c.name)
    case Some(i) => saved[i := c]
    case None => saved + [c]
  }

  /** `Vec::remove(index)`: drop one entry, closing the gap. */
  function RemoveAt(saved: seq<SavedConversation>, index: nat): (r: seq<SavedConversation>)
    requires index < |saved|
    ensures |r| == |saved| - 1
    ensures forall j :: 0 <= j < index ==> r[j] == saved[j]
    ensures forall j :: index <= j < |r| ==> r[j] == saved[j + 1]
  {
    saved[..index] + saved[index + 1..]
  }

  /** After an upsert the name is found, and it leads to the conversation just stored. */
  lemma UpsertThenFind(saved: seq<SavedConversation>, c: SavedConversation)
    ensures var r := Upsert(saved, c);
      && Position(r, c.name).Some?
      && r[Position(r, c.name).value] == c
      && Position(r, c.name).value == Position(saved, c.name).GetOr(|saved|)
  {
    var r := Upsert(saved, c);
    var k := Position(saved, c.name).GetOr(|saved|);
    assert r[k] == c;
    assert forall j :: 0 <= j < k ==> r[j] == saved[j];
    PositionIsFirstMatch(r, c.name, k);
  }

  /** The position of a name is the one index that holds it with no earlier index holding it. */
  lemma PositionIsFirstMatch(saved: seq<SavedConversation>, name: string, k: nat)
    requires k < |saved| && saved[k].name == name
    requires forall j :: 0 <= j < k ==> saved[j].name != name
    ensures Position(saved, name) == Some(k)
  {
    var p := Position(saved, name);
    assert p.Some?;
    assert !(p.value < k);
    assert !(k < p.value);
  }

  /** Upserting the same conversation twice is the same as upserting it once. */
  lemma UpsertIdempotent(saved: seq<SavedConversation>, c: SavedConversation)
    ensures Upsert(Upsert(saved, c), c) == Upsert(saved, c)
  {
    var r := Upsert(saved, c);
    UpsertThenFind(saved, c);
    var i := Position(r, c.name).value;
    assert r[i := c] == r;
  }

  /** Upsert adds exactly the new name to the collection's names. */
  lemma UpsertNames(saved: seq<SavedConversation>, c: SavedConversation)
    ensures Names(Upsert(saved, c)) == Names(saved) + {c.name}
  {
    var r := Upsert(saved, c);
    var k := Position(saved, c.name).GetOr(|saved|);
    forall n | n in Names(r)
      ensures n in Names(saved) + {c.name}
    {
      var j :| 0 <= j < |r| && r[j].name == n;
      if j != k {
        assert saved[j].name == n;
      }
    }
    forall n | n in Names(saved)
      ensures n in Names(r)
    {
      var j :| 0 <= j < |saved| && saved[j].name == n;
      if j == k {
        assert r[k].name == n;
      } else {
        assert r[j].name == n;
      }
    }
    assert r[k].name == c.name;
  }

  /** Upsert never creates a second entry with an existing name. */
  lemma UpsertKeepsNamesUnique(saved: seq<SavedConversation>, c: SavedConversation)
    requires UniqueNames(saved)
    ensures UniqueNames(Upsert(saved, c))
  {
    var r := Upsert(saved, c);
    var k := Position(saved, c.name).GetOr(|saved|);
    forall i, j | 0 <= i < j < |r|
      ensures r[i].name != r[j].name
    {
      if i == k {
        assert r[j] == saved[j];
      } else if j == k {
        assert r[i] == saved[i];
      } else {
        assert r[i] == saved[i] && r[j] == saved[j];
      }
    }
  }

  /** Removal keeps names unique and loses exactly the removed entry's name. */
  lemma RemoveAtNames(saved: seq<SavedConversation>, index: nat)
    requires index < |saved|
    requires UniqueNames(saved)
    ensures UniqueNames(RemoveAt(saved, index))
    ensures Names(RemoveAt(saved, index)) == Names(saved) - {saved[index].name}
  {
    var r := RemoveAt(saved, index);
    forall i, j | 0 <= i < j < |r|
      ensures r[i].name != r[j].name
    {
      var i' := if i < index then i else i + 1;
      var j' := if j < index then j else j + 1;
      assert r[i] == saved[i'] && r[j] == saved[j'];
    }
    forall n | n in Names(r)
      ensures n in Names(saved) - {saved[index].name}
    {
      var j :| 0 <= j < |r| && r[j].name == n;
      var j' := if j < index then j else j + 1;
      assert saved[j'].name == n;
    }
    forall n | n in Names(saved) - {saved[index].name}
      ensures n in Names(r)
    {
      var j :| 0 <= j < |saved| && saved[j].name == n;
      var j' := if j < index then j else j - 1;
      assert r[j'].name == n;
    }
  }

  /** Removal is a permutation-preserving deletion: the removed entry and the rest make up the original. */
  lemma RemoveAtMultiset(saved: seq<SavedConversation>, index: nat)
    requires index < |saved|
    ensures multiset(RemoveAt(saved, index)) + multiset{saved[index]} == multiset(saved)
  {
    assert saved == saved[..index] + [saved[index]] + saved[index + 1..];
  }
}
