/** Ordered lists of values with ids: the server's window list and the browser's user list. */
module KeyedLists {
  datatype Entry<K, V> = Entry(id: K, value: V)

  function Ids<K, V>(list: seq<Entry<K, V>>): set<K> {
    if list == [] then {} else {list[0].id} + Ids(list[1..])
  }

  predicate Distinct<K(==), V>(list: seq<Entry<K, V>>) {
    list == [] || (list[0].id !in Ids(list[1..]) && Distinct(list[1..]))
  }

  /** The list with every entry of `id` removed, in the same order. */
  function Without<K(==), V>(list: seq<Entry<K, V>>, id: K): seq<Entry<K, V>> {
    if list == [] then []
    else (if list[0].id == id then [] else [list[0]]) + Without(list[1..], id)
  }

  // ----- By position -----

  lemma {:induction false} IdsAre<K, V>(list: seq<Entry<K, V>>, id: K)
    ensures id in Ids(list) <==> exists i :: 0 <= i < |list| && list[i].id == id
  {
    if list != [] {
      IdsAre(list[1..], id);
      if id in Ids(list[1..]) {
        var i :| 0 <= i < |list[1..]| && list[1..][i].id == id;
        assert list[i + 1].id == id;
      } else {
        assert forall i :: 0 < i < |list| ==> list[i] == list[1..][i - 1];
      }
    }
  }

  lemma {:induction false} DistinctIff<K, V>(list: seq<Entry<K, V>>)
    ensures Distinct(list) <==> forall i, j :: 0 <= i < j < |list| ==> list[i].id != list[j].id
  {
    if list != [] {
      var rest := list[1..];
      DistinctIff(rest);
      IdsAre(rest, list[0].id);
      assert forall i :: 0 < i < |list| ==> list[i] == rest[i - 1];
      if forall i, j :: 0 <= i < j < |list| ==> list[i].id != list[j].id {
        forall i, j | 0 <= i < j < |rest| ensures rest[i].id != rest[j].id {
          assert list[i + 1].id != list[j + 1].id;
        }
        assert forall i :: 0 <= i < |rest| ==> rest[i] == list[i + 1];
      }
    }
  }

  /** Of a list with distinct ids exactly the one entry is taken out. */
  lemma {:induction false} WithoutAt<K, V>(list: seq<Entry<K, V>>, i: nat)
    requires i < |list| && Distinct(list)
    ensures Without(list, list[i].id) == list[..i] + list[i + 1..]
  {
    WithoutHead(list, list[i].id);
    OthersDiffer(list, i);
    TakenBehind(list, i);
    hide Without, Ids, Distinct;
    if i > 0 { WithoutAt(list[1..], i - 1); }
  }

  lemma TakenBehind<T>(list: seq<T>, i: nat)
    requires i < |list|
    ensures i == 0 ==> list[..i] + list[i + 1..] == list[1..]
    ensures i > 0 ==> list[..i] + list[i + 1..] == [list[0]] + (list[1..][..i - 1] + list[1..][i - 1 + 1..])
  {
    if i > 0 {
      assert list[..i] == [list[0]] + list[1..][..i - 1];
      assert list[1..][i - 1 + 1..] == list[i + 1..];
    }
  }

  lemma WithoutHead<K, V>(list: seq<Entry<K, V>>, id: K)
    requires list != [] && Distinct(list)
    ensures Without(list, id) == if list[0].id == id then list[1..] else [list[0]] + Without(list[1..], id)
  {
    WithoutId(list[1..], list[0].id);
    hide Distinct;
  }

  lemma OthersDiffer<K, V>(list: seq<Entry<K, V>>, i: nat)
    requires i < |list| && Distinct(list)
    ensures Distinct(list[1..]) && (i > 0 ==> list[1..][i - 1] == list[i] && list[0].id != list[i].id)
  {
    IdsAre(list[1..], list[0].id);
    hide Ids;
  }

  lemma {:induction false} AppendEntry<K, V>(list: seq<Entry<K, V>>, e: Entry<K, V>)
    ensures Ids(list + [e]) == Ids(list) + {e.id}
    ensures Distinct(list) && e.id !in Ids(list) ==> Distinct(list + [e])
  {
    if list == [] {
      assert [] + [e] == [e];
    } else {
      assert (list + [e])[1..] == list[1..] + [e];
      AppendEntry(list[1..], e);
    }
  }

  lemma {:induction false} WithoutId<K, V>(list: seq<Entry<K, V>>, id: K)
    ensures Ids(Without(list, id)) == Ids(list) - {id}
    ensures Distinct(list) ==> Distinct(Without(list, id))
    ensures id !in Ids(list) ==> Without(list, id) == list
  {
    if list == [] {
    } else {
      WithoutId(list[1..], id);
      if list[0].id != id {
        assert Without(list, id)[1..] == Without(list[1..], id);
      } else {
        assert Without(list, id) == Without(list[1..], id);
      }
    }
  }
}
