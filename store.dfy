/** The shared on-device key-value store (AsyncStorage) as an abstract map
    from key to typed value. Every read, write and clear takes the outcome of
    the underlying asynchronous call as a parameter: `succeeds == false` is
    the call rejecting. Serialisation is taken to be lossless, so a value is
    kept in its typed form. */
module Store {

  const AlbumPhotosKey: string := "albumPhotos"
  const CustomWaterfallsKey: string := "customWaterfalls"
  const CompletedQuestsKey: string := "completedQuests"
  const ProfileNameKey: string := "profileName"
  const ProfileLastNameKey: string := "profileLastName"
  const ProfileAvatarKey: string := "profileAvatar"

  /** A point of interest on the map screen, as it is stored. */
  datatype Waterfall = Waterfall(
    id: int,
    name: string,
    description: string,
    latitude: real,
    longitude: real,
    image: string)

  /** The shapes the screens store under their keys. */
  datatype Value =
    | Text(text: string)
    | UriList(uris: seq<string>)
    | WaterfallList(waterfalls: seq<Waterfall>)
    | CompletionMap(completed: map<string, bool>)

  /** The result of `getItem`: the call rejected, the key is absent, or a value. */
  datatype Read = ReadFailed | Absent | Present(value: Value)

  class KvStore {
    var data: map<string, Value>

    constructor (initial: map<string, Value>)
      ensures data == initial
    {
      data := initial;
    }

    /** `getItem(key)`: never changes the store. */
    method GetItem(key: string, succeeds: bool) returns (r: Read)
      ensures r.ReadFailed? <==> !succeeds
      ensures r.Absent? <==> succeeds && key !in data
      ensures r.Present? ==> key in data && r.value == data[key]
    {
      if !succeeds {
        r := ReadFailed;
      } else if key in data {
        r := Present(data[key]);
      } else {
        r := Absent;
      }
    }

    /** `setItem(key, value)`: replaces one key only, and only on success. */
    method SetItem(key: string, value: Value, succeeds: bool) returns (ok: bool)
      modifies this
      ensures ok == succeeds
      ensures data == if ok then old(data)[key := value] else old(data)
    {
      ok := succeeds;
      if ok {
        data := data[key := value];
      }
    }

    /** `clear()`: on success every key of every screen is gone. */
    method Clear(succeeds: bool) returns (ok: bool)
      modifies this
      ensures ok == succeeds
      ensures data == if ok then map[] else old(data)
    {
      ok := succeeds;
      if ok {
        data := map[];
      }
    }
  }
}
