/** The profile screen: name, last name and avatar, each persisted under a
    key of its own, plus the logout that wipes the whole store. */
module Profile {
  import opened Wrappers
  import opened Events
  import opened Store

  /** The string stored under `key`, when it is a non-empty one (the
      source's `if (stored)` truthiness test). */
  function StoredText(data: map<string, Value>, key: string): (r: Option<string>)
    ensures r.Some? <==> key in data && data[key].Text? && data[key].text != ""
    ensures r.Some? ==> r.value == data[key].text
  {
    if key in data && data[key].Text? && data[key].text != "" then Some(data[key].text) else None
  }

  /** Reading back a key just written gives the string written, unless it
      is empty; every other key reads as before. */
  lemma StoredTextAfterWrite(data: map<string, Value>, key: string, s: string, other: string)
    ensures StoredText(data[key := Text(s)], key) == if s == "" then None else Some(s)
    ensures other != key ==> StoredText(data[key := Text(s)], other) == StoredText(data, other)
  {
  }

  /** After a cleared store every key reads as nothing stored. */
  lemma StoredTextAfterClear(key: string)
    ensures StoredText(map[], key) == None
  {
  }

  /** `if (avatar)`: a non-null, non-empty avatar uri. */
  predicate HasAvatar(avatar: Option<string>) {
    avatar.Some? && avatar.value != ""
  }

  class ProfileScreen {
    const store: KvStore
    var name: string
    var lastName: string
    var avatar: Option<string>

    constructor (store: KvStore)
      ensures this.store == store
      ensures name == "" && lastName == "" && avatar == None
    {
      this.store := store;
      name := "";
      lastName := "";
      avatar := None;
    }

    /** `loadProfile`: three reads first, then the setters. A field is set
        only from a non-empty stored string; if any read fails no setter
        runs at all. */
    method LoadProfile(nameRead: bool, lastNameRead: bool, avatarRead: bool) returns (notice: Notice)
      modifies this
      ensures !(nameRead && lastNameRead && avatarRead) ==>
        notice == LoadFailed && name == old(name) && lastName == old(lastName) && avatar == old(avatar)
      ensures nameRead && lastNameRead && avatarRead ==>
        && notice == Quiet
        && name == StoredText(store.data, ProfileNameKey).GetOr(old(name))
        && lastName == StoredText(store.data, ProfileLastNameKey).GetOr(old(lastName))
        && avatar == (if StoredText(store.data, ProfileAvatarKey).Some? then StoredText(store.data, ProfileAvatarKey) else old(avatar))
    {
      var storedName := store.GetItem(ProfileNameKey, nameRead);
      if storedName.ReadFailed? {
        return LoadFailed;
      }
      var storedLastName := store.GetItem(ProfileLastNameKey, lastNameRead);
      if storedLastName.ReadFailed? {
        return LoadFailed;
      }
      var storedAvatar := store.GetItem(ProfileAvatarKey, avatarRead);
      if storedAvatar.ReadFailed? {
        return LoadFailed;
      }
      if storedName.Present? && storedName.value.Text? && storedName.value.text != "" {
        name := storedName.value.text;
      }
      if storedLastName.Present? && storedLastName.value.Text? && storedLastName.value.text != "" {
        lastName := storedLastName.value.text;
      }
      if storedAvatar.Present? && storedAvatar.value.Text? && storedAvatar.value.text != "" {
        avatar := Some(storedAvatar.value.text);
      }
      notice := Quiet;
    }

    /** `saveProfile`: writes name, then last name, then the avatar if there
        is one. The first failing write stops the rest; what was written
        before it stays written. The fields never change. */
    method SaveProfile(nameWrite: bool, lastNameWrite: bool, avatarWrite: bool) returns (notice: Notice)
      modifies store
      ensures !nameWrite ==>
        notice == SaveFailed && store.data == old(store.data)
      ensures nameWrite && !lastNameWrite ==>
        notice == SaveFailed && store.data == old(store.data)[ProfileNameKey := Text(name)]
      ensures nameWrite && lastNameWrite && !HasAvatar(avatar) ==>
        && notice == ProfileSaved
        && store.data == old(store.data)[ProfileNameKey := Text(name)][ProfileLastNameKey := Text(lastName)]
      ensures nameWrite && lastNameWrite && HasAvatar(avatar) ==>
        var both := old(store.data)[ProfileNameKey := Text(name)][ProfileLastNameKey := Text(lastName)];
        && notice == (if avatarWrite then ProfileSaved else SaveFailed)
        && store.data == if avatarWrite then both[ProfileAvatarKey := Text(avatar.value)] else both
    {
      var ok := store.SetItem(ProfileNameKey, Text(name), nameWrite);
      if !ok {
        return SaveFailed;
      }
      ok := store.SetItem(ProfileLastNameKey, Text(lastName), lastNameWrite);
      if !ok {
        return SaveFailed;
      }
      if HasAvatar(avatar) {
        ok := store.SetItem(ProfileAvatarKey, Text(avatar.value), avatarWrite);
        if !ok {
          return SaveFailed;
        }
      }
      notice := ProfileSaved;
    }

    /** `selectAvatar`: only the in-memory avatar changes, and only when an
        image was picked; nothing is written. */
    method SelectAvatar(pick: Pick) returns (notice: Notice)
      modifies this
      ensures name == old(name) && lastName == old(lastName)
      ensures avatar == if pick.Picked? then Some(pick.uri) else old(avatar)
      ensures notice == if pick.PickFailed? then PickerError else Quiet
    {
      notice := Quiet;
      match pick
      case Picked(uri) =>
        avatar := Some(uri);
      case Cancelled =>
      case PickFailed =>
        notice := PickerError;
    }

    /** The confirmed branch of `logout`: clear the whole store, then reset
        the fields. When `clear()` rejects, the setters after it never run. */
    method Logout(clearSucceeds: bool) returns (notice: Notice)
      modifies this, store
      ensures store.data == if clearSucceeds then map[] else old(store.data)
      ensures clearSucceeds ==> name == "" && lastName == "" && avatar == None && notice == LoggedOut
      ensures !clearSucceeds ==> name == old(name) && lastName == old(lastName) && avatar == old(avatar) && notice == Quiet
    {
      var ok := store.Clear(clearSucceeds);
      if !ok {
        return Quiet;
      }
      name := "";
      avatar := None;
      lastName := "";
      notice := LoggedOut;
    }
  }
}
