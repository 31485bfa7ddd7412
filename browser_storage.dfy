/** The browser's key/value storage as the services use it: string keys,
    string values, `getItem` answering null (here `None`) for a missing key. */
module BrowserStorage {
  import opened Wrappers

  /** What `getItem(key)` answers for the given contents. */
  function Get(items: map<string, string>, key: string): (r: Option<string>)
    ensures r.Some? <==> key in items
    ensures r.Some? ==> r.value == items[key]
  {
    if key in items then Some(items[key]) else None
  }

  class Storage {
    var items: map<string, string>

    constructor (items: map<string, string>)
      ensures this.items == items
    {
      this.items := items;
    }

    /** `getItem`: what `Get` answers for the current contents. */
    method GetItem(key: string) returns (v: Option<string>)
      ensures v == Get(items, key)
    {
      v := if key in items then Some(items[key]) else None;
    }

    method SetItem(key: string, value: string)
      modifies this
      ensures items == old(items)[key := value]
    {
      items := items[key := value];
    }

    method RemoveItem(key: string)
      modifies this
      ensures items == old(items) - {key}
    {
      items := items - {key};
    }
  }

  /** Writing one key leaves what every other key reads unchanged. */
  lemma SetLeavesOtherKeys(items: map<string, string>, key: string, value: string, other: string)
    requires other != key
    ensures Get(items[key := value], other) == Get(items, other)
    ensures Get(items[key := value], key) == Some(value)
  {
  }

  /** Removing one key leaves what every other key reads unchanged. */
  lemma RemoveLeavesOtherKeys(items: map<string, string>, key: string, other: string)
    requires other != key
    ensures Get(items - {key}, other) == Get(items, other)
    ensures Get(items - {key}, key) == None
  {
  }

  /** Writing a key and then removing it is the same as removing it. */
  lemma RemoveAfterSet(items: map<string, string>, key: string, value: string)
    ensures items[key := value] - {key} == items - {key}
  {
    assert (items[key := value] - {key}).Keys == (items - {key}).Keys;
  }
}
