/** frontend/src/utils/auth.ts: `logout`, which removes the sign-in keys from
    the browser's key-value store one after another and then moves to the
    login page. The confirmation dialog's answer is a parameter. */
module Auth {
  /** The keys `logout` removes, in the order it removes them. */
  const SignInKeys: seq<string> := ["user", "userEmail", "token"]

  /** The store after `logout`: the three sign-in keys gone, every other key
      kept with its value. */
  function LoggedOutStore(entries: map<string, string>): (r: map<string, string>)
    ensures forall k :: k in SignInKeys ==> k !in r
    ensures forall k :: k in entries && k !in SignInKeys ==> k in r && r[k] == entries[k]
    ensures forall k :: k in r ==> k in entries
  {
    entries - {"user", "userEmail", "token"}
  }

  /** Keys other pages keep (the cached points, the phone number, the
      favourite list, the numeric user id) survive a logout. */
  lemma OtherKeysSurvive(entries: map<string, string>)
    ensures forall k :: k in ["points", "phone", "bus-favorites", "user_id"] && k in entries ==>
      k in LoggedOutStore(entries) && LoggedOutStore(entries)[k] == entries[k]
  {
  }

  /** Logging out twice removes nothing more. */
  lemma LoggedOutStoreIdempotent(entries: map<string, string>)
    ensures LoggedOutStore(LoggedOutStore(entries)) == LoggedOutStore(entries)
  {
  }

  /** `localStorage` and `window.location.href`. */
  class Browser {
    var entries: map<string, string>
    var location: string

    constructor (entries: map<string, string>, location: string)
      ensures this.entries == entries && this.location == location
    {
      this.entries := entries;
      this.location := location;
    }

    /** `localStorage.removeItem(key)`. */
    method RemoveItem(key: string)
      modifies this`entries
      ensures entries == old(entries) - {key}
    {
      entries := entries - {key};
    }

    /** `logout`: when confirmed, the three removals in order, then the move
        to "/login"; when not, nothing changes. */
    method Logout(confirmed: bool)
      modifies this
      ensures confirmed ==> entries == LoggedOutStore(old(entries)) && location == "/login"
      ensures !confirmed ==> entries == old(entries) && location == old(location)
    {
      if confirmed {
        RemoveItem("user");
        RemoveItem("userEmail");
        RemoveItem("token");
        location := "/login";
      }
    }
  }
}
