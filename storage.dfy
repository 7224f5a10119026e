/**
 * The browser-side key store (src/lib/storage.ts): the owner token and one
 * entry per created valentine, all kept in `localStorage` under keys that
 * share the prefix "bemyval_".
 *
 * `localStorage` is a string-to-string map owned by a `BrowserStorage`
 * object; `typeof window === 'undefined'` (server-side rendering) is its
 * constant `inBrowser` being false. `new Date().toISOString()` is the
 * parameter `createdAt`.
 */
module Storage {

  import opened Wrappers
  import opened StoredJson

  const OwnerTokenKey: string := "bemyval_token"
  const StoragePrefix: string := "bemyval_"

  /** `getKey`: the storage key of a valentine is the prefix followed by its id. */
  function GetKey(id: string): (k: string)
    ensures StoragePrefix <= k
    ensures |k| == |StoragePrefix| + |id|
    ensures k[|StoragePrefix|..] == id
  {
    StoragePrefix + id
  }

  /** Distinct valentines never share an entry. */
  lemma GetKeyInjective(a: string, b: string)
    requires GetKey(a) == GetKey(b)
    ensures a == b
  {
  }

  /**
   * The owner token lives under the key of the valentine with id "token", and
   * of no other valentine.
   */
  lemma OwnerTokenKeyCollision(id: string)
    ensures GetKey(id) == OwnerTokenKey <==> id == "token"
  {
  }

  /** `localStorage` as seen from one page, and whether a window exists at all. */
  class BrowserStorage {
    const inBrowser: bool
    var items: map<string, string>

    constructor (inBrowser: bool, items: map<string, string>)
      ensures this.inBrowser == inBrowser && this.items == items
    {
      this.inBrowser := inBrowser;
      this.items := items;
    }

    /** `getOwnerToken`: the stored token, null without a window or without a token. */
    function GetOwnerToken(): (r: Option<string>)
      reads this
      ensures r.Some? <==> inBrowser && OwnerTokenKey in items
      ensures r.Some? ==> r.value == items[OwnerTokenKey]
    {
      if !inBrowser then None
      else if OwnerTokenKey in items then Some(items[OwnerTokenKey])
      else None
    }

    /** `hasOwnerToken`: whether `getOwnerToken` is non-null. */
    function HasOwnerToken(): (b: bool)
      reads this
      ensures b <==> GetOwnerToken().Some?
      ensures b <==> inBrowser && OwnerTokenKey in items
    {
      GetOwnerToken() != None
    }

    /**
     * `setOwnerToken`: without a window nothing changes; otherwise the token
     * entry is written, nothing else changes, and the token reads back.
     */
    method SetOwnerToken(token: string)
      modifies this
      ensures items == if inBrowser then old(items)[OwnerTokenKey := token] else old(items)
      ensures inBrowser ==> GetOwnerToken() == Some(token) && HasOwnerToken()
    {
      if !inBrowser {
        return;
      }
      items := items[OwnerTokenKey := token];
    }

    /**
     * `getValentineKey`: the owner key stored for `id`. It is null without a
     * window, without an entry, for an empty entry and for an entry that does
     * not parse as a stored record; otherwise it is that record's owner key.
     */
    function GetValentineKey(id: string): (r: Option<string>)
      reads this
      ensures r.Some? <==> inBrowser && GetKey(id) in items && items[GetKey(id)] != []
                           && Decode(items[GetKey(id)]).Some?
      ensures r.Some? ==> r.value == Decode(items[GetKey(id)]).value.ownerKey
    {
      if !inBrowser then None
      else if GetKey(id) !in items then None
      else
        var stored := items[GetKey(id)];
        if stored == [] then None
        else
          match Decode(stored)
          case None => None
          case Some(data) => Some(data.ownerKey)
    }

    /**
     * `storeValentineKey`: without a window nothing changes. Otherwise only the
     * entry at `GetKey(id)` is written; the owner key reads back, every other
     * valentine's key reads as before, and for the id "token" the entry is the
     * owner token's, which now holds the record's text.
     */
    method StoreValentineKey(id: string, ownerKey: string, createdAt: string)
      modifies this
      ensures items == if inBrowser then old(items)[GetKey(id) := Encode(StoredValentine(id, ownerKey, createdAt))]
                       else old(items)
      ensures inBrowser ==> GetValentineKey(id) == Some(ownerKey)
      ensures forall other :: other != id ==> GetValentineKey(other) == old(GetValentineKey(other))
      ensures inBrowser && id == "token" ==> GetOwnerToken() == Some(Encode(StoredValentine(id, ownerKey, createdAt)))
      ensures inBrowser && id != "token" ==> GetOwnerToken() == old(GetOwnerToken())
    {
      if !inBrowser {
        return;
      }
      var data := StoredValentine(id, ownerKey, createdAt);
      DecodeEncode(data);
      OwnerTokenKeyCollision(id);
      items := items[GetKey(id) := Encode(data)];
      forall other | other != id
        ensures GetKey(other) != GetKey(id)
      {
        if GetKey(other) == GetKey(id) {
          GetKeyInjective(other, id);
        }
      }
    }
  }

  /**
   * A page that stores the valentine "token" after setting the owner token
   * loses the token: it then reads as the stored record's text.
   */
  method StoringTokenIdOverwritesOwnerToken(token: string, ownerKey: string, createdAt: string)
    returns (before: Option<string>, after: Option<string>)
    ensures before == Some(token)
    ensures after == Some(Encode(StoredValentine("token", ownerKey, createdAt)))
  {
    var store := new BrowserStorage(true, map[]);
    store.SetOwnerToken(token);
    before := store.GetOwnerToken();
    store.StoreValentineKey("token", ownerKey, createdAt);
    after := store.GetOwnerToken();
  }
}
