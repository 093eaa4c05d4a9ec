/** The album screen: a list of photo uris kept in memory and persisted
    under `albumPhotos`. Mutations update the list first and then write it;
    a failed write is reported and not rolled back. */
module Albums {
  import opened Events
  import opened Store
  import opened Sequences

  /** `photos.filter(photo => photo !== uri)`. */
  function WithoutPhoto(photos: seq<string>, uri: string): (r: seq<string>)
    ensures forall p :: p in r <==> p in photos && p != uri
    ensures forall p :: multiset(r)[p] == if p == uri then 0 else multiset(photos)[p]
    ensures uri !in photos ==> r == photos
  {
    var keep := (p: string) => p != uri;
    forall p ensures p in Filter(photos, keep) <==> p in photos && p != uri {
      FilterMembership(photos, keep, p);
    }
    forall p ensures multiset(Filter(photos, keep))[p] == if p == uri then 0 else multiset(photos)[p] {
      FilterCount(photos, keep, p);
    }
    if uri !in photos then
      FilterKeepsAll(photos, keep);
      Filter(photos, keep)
    else
      Filter(photos, keep)
  }

  /** Deleting `u` after adding `v` equals adding `v` after deleting `u`. */
  lemma DeleteAfterAddCommutes(photos: seq<string>, u: string, v: string)
    requires u != v
    ensures WithoutPhoto(photos + [v], u) == WithoutPhoto(photos, u) + [v]
  {
    FilterSnoc(photos, v, (p: string) => p != u);
  }

  /** Deleting a photo that was just added removes every copy of it and
      leaves the earlier list without that uri. */
  lemma DeleteAfterAddSame(photos: seq<string>, u: string)
    ensures WithoutPhoto(photos + [u], u) == WithoutPhoto(photos, u)
  {
    FilterSnoc(photos, u, (p: string) => p != u);
  }

  class AlbumsScreen {
    const store: KvStore
    var photos: seq<string>

    constructor (store: KvStore)
      ensures this.store == store && photos == []
    {
      this.store := store;
      photos := [];
    }

    /** `loadPhotos`: the list is replaced only when the key holds a list;
        an absent key or a failed read keeps it. */
    method LoadPhotos(readSucceeds: bool) returns (notice: Notice)
      modifies this
      ensures notice == if readSucceeds then Quiet else LoadFailed
      ensures photos == if readSucceeds && AlbumPhotosKey in store.data && store.data[AlbumPhotosKey].UriList?
                        then store.data[AlbumPhotosKey].uris else old(photos)
    {
      var r := store.GetItem(AlbumPhotosKey, readSucceeds);
      notice := Quiet;
      if r.ReadFailed? {
        notice := LoadFailed;
      } else if r.Present? && r.value.UriList? {
        photos := r.value.uris;
      }
    }

    /** `savePhotos`: writes the given list; the in-memory list is not touched. */
    method SavePhotos(list: seq<string>, writeSucceeds: bool) returns (notice: Notice)
      modifies store
      ensures notice == if writeSucceeds then Quiet else SaveFailed
      ensures store.data == if writeSucceeds then old(store.data)[AlbumPhotosKey := UriList(list)] else old(store.data)
    {
      var ok := store.SetItem(AlbumPhotosKey, UriList(list), writeSucceeds);
      notice := if ok then Quiet else SaveFailed;
    }

    /** The picker callback of `addPhoto`. */
    method AddPhoto(pick: Pick, saveSucceeds: bool) returns (notice: Notice)
      modifies this, store
      // cancelled or failed pick: nothing changes
      ensures !pick.Picked? ==> photos == old(photos) && unchanged(store)
      ensures pick.Cancelled? ==> notice == Quiet
      ensures pick.PickFailed? ==> notice == PickerError
      // a picked uri is appended, even when the write then fails
      ensures pick.Picked? ==> photos == old(photos) + [pick.uri]
      ensures pick.Picked? ==> notice == (if saveSucceeds then Quiet else SaveFailed)
      ensures pick.Picked? ==>
        store.data == if saveSucceeds then old(store.data)[AlbumPhotosKey := UriList(photos)] else old(store.data)
    {
      match pick
      case Cancelled =>
        notice := Quiet;
      case PickFailed =>
        notice := PickerError;
      case Picked(uri) =>
        var updated := photos + [uri];
        photos := updated;
        notice := SavePhotos(updated, saveSucceeds);
    }

    /** The confirmed branch of `deletePhoto`. */
    method DeletePhoto(uri: string, saveSucceeds: bool) returns (notice: Notice)
      modifies this, store
      ensures photos == WithoutPhoto(old(photos), uri)
      ensures notice == if saveSucceeds then Quiet else SaveFailed
      ensures store.data == if saveSucceeds then old(store.data)[AlbumPhotosKey := UriList(photos)] else old(store.data)
    {
      var updated := WithoutPhoto(photos, uri);
      photos := updated;
      notice := SavePhotos(updated, saveSucceeds);
    }
  }
}
