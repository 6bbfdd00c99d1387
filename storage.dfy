/** The device's durable key/value store (AsyncStorage), shared by every
    screen of the application. */
module Storage {
  import opened Values

  /** Key under which the login flow stores the bearer token. */
  const TokenKey := "userToken"
  /** Key under which a successful upload stores the profile image URL. */
  const ProfileImageKey := "profileImageUrl"

  class KeyValueStore {
    var entries: map<string, string>

    constructor (initial: map<string, string>)
      ensures entries == initial
    {
      entries := initial;
    }

    /** `getItem`: the stored value, or null when the key was never written. */
    function GetItem(key: string): (v: Option<string>)
      reads this
      ensures v.Some? <==> key in entries
      ensures v.Some? ==> v.value == entries[key]
    {
      if key in entries then Some(entries[key]) else None
    }

    /** `setItem`: writes one key and leaves every other key as it was. */
    method SetItem(key: string, value: string)
      modifies this
      ensures entries == old(entries)[key := value]
      ensures GetItem(key) == Some(value)
    {
      entries := entries[key := value];
    }
  }
}
