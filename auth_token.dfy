/** The credential store of utils/authToken.ts: one session token kept under a
    fixed key, in a plain key-value store on the web and, on mobile, in the
    platform's secure store mirrored into the plain store.

    The two foreign stores are the maps `secure` and `plain`. Whether one of
    their calls throws is not something the model decides: every operation
    takes the set `fails` of the storage calls that throw while it runs. A call
    that throws leaves its store unchanged. */
module AuthToken {
  import opened Common

  /** `TOKEN_KEY`: the only key any operation reads or writes. */
  const TokenKey: string := "auth_token"

  /** The message of the error a throwing store call rejects with. */
  const StorageFailureMessage: string := "storage failure"

  /** The storage calls an operation makes. `FallbackWrite` and
      `FallbackDelete` are the plain-store calls made inside the `catch`. */
  datatype StorageCall =
    | SecureRead | PlainRead
    | SecureWrite | PlainWrite | FallbackWrite
    | SecureDelete | PlainDelete | FallbackDelete

  /** What escapes `set` or `remove` when the call inside their `catch` throws. */
  datatype StorageError = StorageFailure

  /** The token under `TOKEN_KEY` in one store, if any. */
  function Lookup(m: map<string, string>): Option<string>
  {
    if TokenKey in m then Some(m[TokenKey]) else None
  }

  /** Whether the `try` block of `set` throws. */
  predicate SetTryThrows(web: bool, fails: set<StorageCall>)
  {
    if web then PlainWrite in fails else SecureWrite in fails || PlainWrite in fails
  }

  /** What `set` resolves or rejects with. */
  function SetOutcome(web: bool, fails: set<StorageCall>): Outcome<StorageError>
  {
    if SetTryThrows(web, fails) && FallbackWrite in fails then Fail(StorageFailure) else Pass
  }

  /** Whether the `try` block of `remove` throws. */
  predicate RemoveTryThrows(web: bool, fails: set<StorageCall>)
  {
    if web then PlainDelete in fails else SecureDelete in fails || PlainDelete in fails
  }

  /** What `remove` resolves or rejects with. */
  function RemoveOutcome(web: bool, fails: set<StorageCall>): Outcome<StorageError>
  {
    if RemoveTryThrows(web, fails) && FallbackDelete in fails then Fail(StorageFailure) else Pass
  }

  class TokenStorage {
    /** `Platform.OS === 'web'`, fixed for the process lifetime. */
    const web: bool
    /** The secure store (expo-secure-store); never touched on the web. */
    var secure: map<string, string>
    /** The plain store (AsyncStorage). */
    var plain: map<string, string>

    constructor (web: bool, secure: map<string, string>, plain: map<string, string>)
      ensures this.web == web && this.secure == secure && this.plain == plain
    {
      this.web := web;
      this.secure := secure;
      this.plain := plain;
    }

    /** What `get()` returns when none of its storage calls throws: on the web
        the plain store's token; on mobile the secure token when it is
        non-empty, the plain store's otherwise. */
    function Current(): (r: Option<string>)
      reads this
      ensures r == Lookup(plain) || (!web && r == Lookup(secure))
      ensures web ==> r == Lookup(plain)
      ensures !web && Truthy(Lookup(secure)) ==> r == Lookup(secure)
    {
      if web then Lookup(plain)
      else if Truthy(Lookup(secure)) then Lookup(secure)
      else Lookup(plain)
    }

    /** Whether one of the calls `get()` actually makes throws. The plain read
        on mobile is made only when the secure store holds no non-empty token. */
    predicate GetThrows(fails: set<StorageCall>)
      reads this
    {
      if web then PlainRead in fails
      else SecureRead in fails || (!Truthy(Lookup(secure)) && PlainRead in fails)
    }

    /** What `get()` returns: `null` whenever a call throws. */
    function Read(fails: set<StorageCall>): (r: Option<string>)
      reads this
      ensures GetThrows(fails) ==> r == None
      ensures !GetThrows(fails) ==> r == Current()
      ensures r.Some? ==> r == Lookup(plain) || (!web && r == Lookup(secure))
    {
      if GetThrows(fails) then None else Current()
    }

    /** The state change of `set(token)`. */
    twostate predicate Stored(token: string, fails: set<StorageCall>)
      reads this
    {
      && secure == (if !web && SecureWrite !in fails then old(secure)[TokenKey := token] else old(secure))
      && plain == (if SetOutcome(web, fails).Pass? then old(plain)[TokenKey := token] else old(plain))
    }

    /** The state change of `remove()`. */
    twostate predicate Removed(fails: set<StorageCall>)
      reads this
    {
      && secure == (if !web && SecureDelete !in fails then old(secure) - {TokenKey} else old(secure))
      && plain == (if RemoveOutcome(web, fails).Pass? then old(plain) - {TokenKey} else old(plain))
    }

    /** `tokenStorage.get()`: never rejects; a throwing call yields `null`. */
    method Get(fails: set<StorageCall>) returns (r: Option<string>)
      ensures r == Read(fails)
      ensures r.Some? ==> (!web && r == Lookup(secure)) || r == Lookup(plain)
      ensures !web && !GetThrows(fails) && Truthy(Lookup(secure)) ==> r == Lookup(secure)
    {
      if web {
        if PlainRead in fails { return None; }
        return Lookup(plain);
      }
      if SecureRead in fails { return None; }
      var secureToken := Lookup(secure);
      if Truthy(secureToken) {
        return secureToken;
      }
      if PlainRead in fails { return None; }
      return Lookup(plain);
    }

    /** `tokenStorage.set(token)`. On mobile it writes the secure store, then
        the plain store; when either throws, the `catch` writes the plain store
        once more, and only a throw there rejects. */
    method Set(token: string, fails: set<StorageCall>) returns (out: Outcome<StorageError>)
      modifies this
      ensures Stored(token, fails)
      ensures out == SetOutcome(web, fails)
      ensures out.Pass? ==> Lookup(plain) == Some(token)
      ensures out.Pass? && (web || SecureWrite !in fails) ==> Current() == Some(token)
      ensures out.Pass? && !web && SecureWrite in fails ==>
                Current() == if Truthy(Lookup(secure)) then Lookup(secure) else Some(token)
    {
      if web {
        if PlainWrite !in fails {
          plain := plain[TokenKey := token];
          return Pass;
        }
      } else if SecureWrite !in fails {
        secure := secure[TokenKey := token];
        if PlainWrite !in fails {
          plain := plain[TokenKey := token];
          return Pass;
        }
      }
      // catch: the minimal fallback
      if FallbackWrite in fails {
        return Fail(StorageFailure);
      }
      plain := plain[TokenKey := token];
      return Pass;
    }

    /** `tokenStorage.remove()`. On mobile it deletes from the secure store,
        then from the plain store; when either throws, the `catch` deletes from
        the plain store once more, and only a throw there rejects. */
    method Remove(fails: set<StorageCall>) returns (out: Outcome<StorageError>)
      modifies this
      ensures Removed(fails)
      ensures out == RemoveOutcome(web, fails)
      ensures out.Pass? ==> TokenKey !in plain
      ensures out.Pass? && (web || SecureDelete !in fails) ==> Current() == None
      ensures out.Pass? && !web && SecureDelete in fails ==>
                Current() == if Truthy(Lookup(secure)) then Lookup(secure) else None
    {
      if web {
        if PlainDelete !in fails {
          plain := plain - {TokenKey};
          return Pass;
        }
      } else if SecureDelete !in fails {
        secure := secure - {TokenKey};
        if PlainDelete !in fails {
          plain := plain - {TokenKey};
          return Pass;
        }
      }
      // catch
      if FallbackDelete in fails {
        return Fail(StorageFailure);
      }
      plain := plain - {TokenKey};
      return Pass;
    }
  }

  /** `set(c)` then `get()` returns `c` on either platform branch when no
      storage call throws. */
  method SetThenGet(store: TokenStorage, c: string) returns (r: Option<string>)
    modifies store
    ensures r == Some(c)
  {
    var _ := store.Set(c, {});
    r := store.Get({});
  }

  /** On mobile, a throwing secure write still leaves `set` resolved, and a
      following `get()` returns the token provided the secure store holds no
      other non-empty token. */
  method DegradedSetThenGet(store: TokenStorage, c: string) returns (out: Outcome<StorageError>, r: Option<string>)
    requires !store.web && !Truthy(Lookup(store.secure))
    modifies store
    ensures out == Pass && r == Some(c)
  {
    out := store.Set(c, {SecureWrite});
    r := store.Get({});
  }

  /** `set(c); remove(); get()` returns nothing when no storage call throws. */
  method SetRemoveGet(store: TokenStorage, c: string) returns (r: Option<string>)
    modifies store
    ensures r == None
  {
    var _ := store.Set(c, {});
    var _ := store.Remove({});
    r := store.Get({});
  }

  /** When the secure delete throws on mobile, `remove` still resolves and
      clears the plain store, but the secure token survives and `get()` keeps
      returning it. */
  method FailedSecureDeleteKeepsToken(store: TokenStorage, c: string) returns (out: Outcome<StorageError>, r: Option<string>)
    requires !store.web && c != ""
    modifies store
    ensures out == Pass && TokenKey !in store.plain && r == Some(c)
  {
    var _ := store.Set(c, {});
    out := store.Remove({SecureDelete});
    r := store.Get({});
  }
}
