/** Sorting the items of a tale by where their data is: filter_items. */
module Items {
  import opened Options
  import opened Text
  import opened Checksums

  type ItemId = string

  datatype File = File(name: string, link: Option<string>, mimeType: string, size: int, bytes: seq<Byte>)

  datatype Item = Item(name: string, description: string, size: int)

  /** Girder's answers, the same every time it is asked: the first file of an item if it has one. */
  datatype Girder = Girder(file: ItemId -> Option<File>, item: ItemId -> Item)

  datatype Place = OnDataOne | Elsewhere | Here | Nowhere

  /** Where the data of an item is. */
  function PlaceOf(g: Girder, id: ItemId): Place {
    match g.file(id)
    case None => Nowhere
    case Some(f) =>
      match f.link
      case None => Here
      case Some(url) => if Contains(url, "dataone.org") then OnDataOne else Elsewhere
  }

  /** In terms of the file: no file, no link, a link with the name of DataONE in it, any other link. */
  lemma PlacesAre(g: Girder, id: ItemId)
    ensures PlaceOf(g, id) == Nowhere <==> g.file(id) == None
    ensures PlaceOf(g, id) == Here <==> g.file(id).Some? && g.file(id).value.link == None
    ensures PlaceOf(g, id) == OnDataOne <==>
              && g.file(id).Some? && g.file(id).value.link.Some?
              && exists before, after :: g.file(id).value.link.value == before + "dataone.org" + after
    ensures PlaceOf(g, id) == Elsewhere <==>
              && g.file(id).Some? && g.file(id).value.link.Some?
              && forall before, after :: g.file(id).value.link.value != before + "dataone.org" + after
  {
    if g.file(id).Some? && g.file(id).value.link.Some? {
      ContainsIff(g.file(id).value.link.value, "dataone.org");
    }
  }

  /** The ids of one place, in the order they come in. */
  function At(g: Girder, ids: seq<ItemId>, place: Place): (r: seq<ItemId>)
    ensures forall id :: id in r ==> id in ids && PlaceOf(g, id) == place
  {
    if ids == [] then []
    else (if PlaceOf(g, ids[0]) == place then [ids[0]] else []) + At(g, ids[1..], place)
  }

  function FilesOf(g: Girder, ids: seq<ItemId>): (r: seq<File>)
    requires forall id :: id in ids ==> g.file(id).Some?
    ensures |r| == |ids| && forall i :: 0 <= i < |ids| ==> g.file(ids[i]) == Some(r[i])
  {
    if ids == [] then [] else [g.file(ids[0]).value] + FilesOf(g, ids[1..])
  }

  datatype Sorted = Sorted(
    dataone: seq<ItemId>, remote: seq<ItemId>, localFiles: seq<File>, localItems: seq<ItemId>)

  predicate AllHaveFiles(g: Girder, ids: seq<ItemId>) {
    forall id :: id in ids ==> g.file(id).Some?
  }

  /** What filter_items returns when every item has a file. */
  function SortedItems(g: Girder, ids: seq<ItemId>): Sorted
    requires AllHaveFiles(g, ids)
  {
    Sorted(At(g, ids, OnDataOne), At(g, ids, Elsewhere), FilesOf(g, At(g, ids, Here)), At(g, ids, Here))
  }

  lemma {:induction false} AtAppends(g: Girder, ids: seq<ItemId>, id: ItemId, place: Place)
    ensures At(g, ids + [id], place) == At(g, ids, place) + (if PlaceOf(g, id) == place then [id] else [])
  {
    hide *;
    if ids == [] {
      assert ids + [id] == [id];
      AtOne(g, id, place);
    } else {
      AtAppends(g, ids[1..], id, place);
      assert (ids + [id])[1..] == ids[1..] + [id] && (ids + [id])[0] == ids[0];
      AtFirst(g, ids, place);
      AtFirst(g, ids + [id], place);
    }
  }

  lemma AtOne(g: Girder, id: ItemId, place: Place)
    ensures At(g, [], place) == [] && At(g, [id], place) == if PlaceOf(g, id) == place then [id] else []
  {
    hide PlaceOf;
  }

  lemma AtFirst(g: Girder, ids: seq<ItemId>, place: Place)
    requires ids != []
    ensures At(g, ids, place) == (if PlaceOf(g, ids[0]) == place then [ids[0]] else []) + At(g, ids[1..], place)
  {
    hide PlaceOf;
  }

  lemma {:induction false} FilesAppend(g: Girder, ids: seq<ItemId>, id: ItemId)
    requires AllHaveFiles(g, ids + [id])
    ensures AllHaveFiles(g, ids) && FilesOf(g, ids + [id]) == FilesOf(g, ids) + [g.file(id).value]
  {
    if ids == [] {
      assert [] + [id] == [id];
    } else {
      assert (ids + [id])[1..] == ids[1..] + [id];
      FilesAppend(g, ids[1..], id);
    }
  }

  /** What one more item does to the lists. */
  function WithItem(g: Girder, s: Sorted, id: ItemId): Sorted {
    match PlaceOf(g, id)
    case OnDataOne => s.(dataone := s.dataone + [id])
    case Elsewhere => s.(remote := s.remote + [id])
    case Here => s.(localFiles := s.localFiles + [g.file(id).value], localItems := s.localItems + [id])
    case Nowhere => s
  }

  lemma SortedAppends(g: Girder, ids: seq<ItemId>, id: ItemId)
    requires AllHaveFiles(g, ids) && g.file(id).Some?
    ensures AllHaveFiles(g, ids + [id]) && SortedItems(g, ids + [id]) == WithItem(g, SortedItems(g, ids), id)
  {
    hide At, FilesOf, PlaceOf;
    HasFile(g, ids, id);
    AtAppends(g, ids, id, OnDataOne);
    AtAppends(g, ids, id, Elsewhere);
    AtAppends(g, ids, id, Here);
    if PlaceOf(g, id) == Here {
      FilesAppend(g, At(g, ids, Here), id);
    }
  }

  lemma HasFile(g: Girder, ids: seq<ItemId>, id: ItemId)
    requires AllHaveFiles(g, ids) && g.file(id).Some?
    ensures AllHaveFiles(g, ids + [id]) && PlaceOf(g, id) != Nowhere
  {
  }

  /** get_remote_url: it raises if the item has no file. */
  method RemoteUrl(g: Girder, id: ItemId) returns (raised: bool, url: Option<string>)
    ensures raised <==> PlaceOf(g, id) == Nowhere
    ensures !raised ==> url == g.file(id).value.link
  {
    var file := g.file(id);
    if file == None {
      return true, None;
    }
    return false, file.value.link;
  }

  /** The loop stops with an error at the first item without a file. */
  method FilterItems(g: Girder, ids: seq<ItemId>) returns (r: Option<Sorted>)
    ensures r == if AllHaveFiles(g, ids) then Some(SortedItems(g, ids)) else None
  {
    var dataone, remote, localFiles, localItems := [], [], [], [];
    assert Sorted([], [], [], []) == SortedItems(g, ids[..0]);
    hide SortedItems, At, FilesOf, Contains;
    for i := 0 to |ids|
      invariant AllHaveFiles(g, ids[..i])
      invariant Sorted(dataone, remote, localFiles, localItems) == SortedItems(g, ids[..i])
    {
      var id := ids[i];
      assert ids[..i + 1] == ids[..i] + [id];
      var raised, url := RemoteUrl(g, id);
      if raised {
        assert id in ids;
        return None;
      }
      SortedAppends(g, ids[..i], id);
      if url != None {
        if Contains(url.value, "dataone.org") {
          dataone := dataone + [id];
        } else {
          remote := remote + [id];
        }
        continue;
      }
      localFiles := localFiles + [g.file(id).value];
      localItems := localItems + [id];
    }
    assert ids[..|ids|] == ids;
    return Some(Sorted(dataone, remote, localFiles, localItems));
  }

  // ----- nothing lost, nothing doubled, nothing reordered -----

  lemma AtHead(g: Girder, ids: seq<ItemId>, place: Place)
    requires ids != []
    ensures multiset(At(g, ids, place))
         == (if PlaceOf(g, ids[0]) == place then multiset{ids[0]} else multiset{}) + multiset(At(g, ids[1..], place))
  {
  }

  lemma {:induction false} PlacesCover(g: Girder, ids: seq<ItemId>)
    requires AllHaveFiles(g, ids)
    ensures multiset(At(g, ids, OnDataOne)) + multiset(At(g, ids, Elsewhere)) + multiset(At(g, ids, Here))
         == multiset(ids)
  {
    hide PlaceOf, At;
    if ids != [] {
      var rest := ids[1..];
      PlacesCover(g, rest);
      assert ids == [ids[0]] + rest;
      AtHead(g, ids, OnDataOne);
      AtHead(g, ids, Elsewhere);
      AtHead(g, ids, Here);
      Placed(g, ids);
      JoinsOne(ids[0], PlaceOf(g, ids[0]), multiset(At(g, rest, OnDataOne)), multiset(At(g, rest, Elsewhere)),
               multiset(At(g, rest, Here)), multiset(rest));
    } else {
      NonePlaced(g);
    }
  }

  lemma NonePlaced(g: Girder)
    ensures forall place :: At(g, [], place) == []
  {
  }

  lemma Placed(g: Girder, ids: seq<ItemId>)
    requires AllHaveFiles(g, ids) && ids != []
    ensures PlaceOf(g, ids[0]) != Nowhere
  {
  }

  /** One more item is in one more place. */
  lemma JoinsOne(
    id: ItemId, place: Place, a: multiset<ItemId>, b: multiset<ItemId>, c: multiset<ItemId>, all: multiset<ItemId>)
    requires place != Nowhere && a + b + c == all
    ensures ((if place == OnDataOne then multiset{id} else multiset{}) + a)
          + ((if place == Elsewhere then multiset{id} else multiset{}) + b)
          + ((if place == Here then multiset{id} else multiset{}) + c) == multiset{id} + all
  {
  }

  lemma {:induction false} PlacesKeepOrder(g: Girder, ids: seq<ItemId>, place: Place)
    ensures Subsequence(At(g, ids, place), ids)
  {
    if ids != [] {
      PlacesKeepOrder(g, ids[1..], place);
      if PlaceOf(g, ids[0]) == place {
        assert At(g, ids, place)[1..] == At(g, ids[1..], place);
      } else {
        assert At(g, ids, place) == At(g, ids[1..], place);
      }
    }
  }

  /**
    Each occurrence of each id is in exactly one of the three lists, the one of its place, and each
    list is in the order of the input. Every local file is the file of the local item beside it.
   */
  lemma StablePartition(g: Girder, ids: seq<ItemId>)
    requires AllHaveFiles(g, ids)
    ensures var s := SortedItems(g, ids);
            && multiset(s.dataone) + multiset(s.remote) + multiset(s.localItems) == multiset(ids)
            && (forall id :: id in s.dataone ==> PlaceOf(g, id) == OnDataOne)
            && (forall id :: id in s.remote ==> PlaceOf(g, id) == Elsewhere)
            && (forall id :: id in s.localItems ==> PlaceOf(g, id) == Here)
            && Subsequence(s.dataone, ids) && Subsequence(s.remote, ids) && Subsequence(s.localItems, ids)
            && |s.localFiles| == |s.localItems|
            && (forall i :: 0 <= i < |s.localItems| ==> g.file(s.localItems[i]) == Some(s.localFiles[i]))
  {
    PlacesCover(g, ids);
    PlacesKeepOrder(g, ids, OnDataOne);
    PlacesKeepOrder(g, ids, Elsewhere);
    PlacesKeepOrder(g, ids, Here);
  }

  // ----- the items described in the metadata -----

  /** filter(None, ids) */
  function NonEmpty(ids: seq<ItemId>): (r: seq<ItemId>)
    ensures forall id :: id in r ==> id in ids
  {
    if ids == [] then [] else (if ids[0] != "" then [ids[0]] else []) + NonEmpty(ids[1..])
  }

  function EmlItems(s: Sorted): seq<ItemId> {
    NonEmpty(s.dataone + s.localItems + s.remote)
  }

  lemma {:induction false} NonEmptyCounts(ids: seq<ItemId>)
    ensures multiset(NonEmpty(ids)) == multiset(ids)["" := 0]
  {
    if ids != [] {
      NonEmptyCounts(ids[1..]);
      assert ids == [ids[0]] + ids[1..];
    }
  }

  /** The items described are those of the input with a non-empty id, each as often as it was there. */
  lemma EmlItemsArePermuted(g: Girder, ids: seq<ItemId>)
    requires AllHaveFiles(g, ids)
    ensures multiset(EmlItems(SortedItems(g, ids))) == multiset(ids)["" := 0]
    ensures |EmlItems(SortedItems(g, ids))| == |NonEmpty(ids)|
    ensures "" !in ids ==> multiset(EmlItems(SortedItems(g, ids))) == multiset(ids)
    ensures AllHaveFiles(g, EmlItems(SortedItems(g, ids)))
  {
    hide At, NonEmpty, FilesOf, PlaceOf;
    var s := SortedItems(g, ids);
    PlacesCover(g, ids);
    NonEmptyCounts(s.dataone + s.localItems + s.remote);
    NonEmptyCounts(ids);
    assert |multiset(EmlItems(s))| == |multiset(NonEmpty(ids))|;
    assert "" !in ids ==> "" !in multiset(ids);
  }

  lemma {:induction false} NonEmptyAppends(a: seq<ItemId>, b: seq<ItemId>)
    ensures NonEmpty(a + b) == NonEmpty(a) + NonEmpty(b)
  {
    hide NonEmpty;
    if a == [] {
      assert a + b == b;
      NonEmptyOf([]);
    } else {
      NonEmptyAppends(a[1..], b);
      assert (a + b)[1..] == a[1..] + b && (a + b)[0] == a[0];
      NonEmptyOf(a);
      NonEmptyOf(a + b);
    }
  }

  lemma NonEmptyOf(ids: seq<ItemId>)
    ensures NonEmpty(ids)
         == if ids == [] then [] else (if ids[0] != "" then [ids[0]] else []) + NonEmpty(ids[1..])
  {
  }

  lemma {:induction false} NonEmptyIs(ids: seq<ItemId>)
    ensures Subsequence(NonEmpty(ids), ids) && "" !in NonEmpty(ids)
  {
    if ids != [] {
      var rest := NonEmpty(ids[1..]);
      NonEmptyIs(ids[1..]);
      if ids[0] != "" {
        assert NonEmpty(ids) == [ids[0]] + rest && NonEmpty(ids)[1..] == rest;
      } else {
        assert NonEmpty(ids) == [] + rest == rest;
      }
    }
  }

  /** The items described: those on DataONE, then the local ones, then the other remote ones, each in order. */
  lemma EmlItemsInOrder(g: Girder, ids: seq<ItemId>)
    requires AllHaveFiles(g, ids)
    ensures var s := SortedItems(g, ids);
            && EmlItems(s) == NonEmpty(s.dataone) + NonEmpty(s.localItems) + NonEmpty(s.remote)
            && Subsequence(NonEmpty(s.dataone), s.dataone) && Subsequence(NonEmpty(s.localItems), s.localItems)
            && Subsequence(NonEmpty(s.remote), s.remote) && "" !in EmlItems(s)
  {
    var s := SortedItems(g, ids);
    NonEmptyAppends(s.dataone + s.localItems, s.remote);
    NonEmptyAppends(s.dataone, s.localItems);
    NonEmptyIs(s.dataone);
    NonEmptyIs(s.localItems);
    NonEmptyIs(s.remote);
    hide NonEmpty, Subsequence, At;
  }
}
