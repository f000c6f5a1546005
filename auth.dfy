/**
 * The auth session store of providers/auth-provider.tsx: tokens kept in the
 * device's secure key-value store (a map from key to text here), the signed-in
 * user and the loading flag. The backend calls are stand-ins in the source
 * that always succeed after a short timer; the model treats them as
 * immediate, with `now` (epoch milliseconds) passed in for `Date.now()`.
 */
module Auth {
  import opened Wrappers
  import opened Decimal

  const AccessTokenKey := "access_token"
  const RefreshTokenKey := "refresh_token"
  const ExpiresAtKey := "expires_at"

  /** Lifetime of a session issued by verify or refresh: one hour, in milliseconds. */
  const SessionLifetime := 3600 * 1000

  datatype AuthTokens = AuthTokens(accessToken: string, refreshToken: string, expiresAt: JsNumber)

  datatype AuthUser = AuthUser(id: string, phone: string)

  /** The user the provider sets after any successful sign-in or restore. */
  const PlaceholderUser := AuthUser("placeholder-id", "")

  /** The tokens the stand-in verify and refresh endpoints hand out at time `now`. */
  function IssuedTokens(now: int): AuthTokens {
    AuthTokens("new-access-token", "new-refresh-token", Num(now + SessionLifetime))
  }

  /** A key whose read gives a truthy string: present and not empty. */
  predicate Holds(store: map<string, string>, key: string) {
    key in store && store[key] != ""
  }

  /** `getStoredTokens`: null unless all three keys hold non-empty text; the expiry is read with `Number`. */
  function StoredTokens(store: map<string, string>): (r: Option<AuthTokens>)
    ensures r.Some? <==> Holds(store, AccessTokenKey) && Holds(store, RefreshTokenKey) && Holds(store, ExpiresAtKey)
    ensures r.Some? ==> r.value.accessToken != "" && r.value.refreshToken != ""
  {
    if !Holds(store, AccessTokenKey) || !Holds(store, RefreshTokenKey) || !Holds(store, ExpiresAtKey) then None
    else Some(AuthTokens(store[AccessTokenKey], store[RefreshTokenKey], ParseNumber(store[ExpiresAtKey])))
  }

  /** The store after `saveTokens(t)`. */
  function Saved(store: map<string, string>, t: AuthTokens): map<string, string> {
    store[AccessTokenKey := t.accessToken][RefreshTokenKey := t.refreshToken][ExpiresAtKey := NumberToString(t.expiresAt)]
  }

  /** The store after `clearTokens()`. */
  function Cleared(store: map<string, string>): map<string, string> {
    store - {AccessTokenKey, RefreshTokenKey, ExpiresAtKey}
  }

  /** `Date.now() < expiresAt`; false when the expiry is NaN. */
  predicate Before(now: int, expiresAt: JsNumber) {
    expiresAt.Num? && now < expiresAt.value
  }

  /** Saved tokens read back as themselves, unless a token is empty, in which case nothing reads back. */
  lemma SaveThenRead(store: map<string, string>, t: AuthTokens)
    ensures t.accessToken != "" && t.refreshToken != "" ==> StoredTokens(Saved(store, t)) == Some(t)
    ensures t.accessToken == "" || t.refreshToken == "" ==> StoredTokens(Saved(store, t)) == None
  {
    NumberRoundTrip(t.expiresAt);
    assert NumberToString(t.expiresAt) != "" by {
      match t.expiresAt
      case Num(v) =>
      case NaN =>
    }
  }

  /** The tokens issued at `now` read back from the store and are still valid at `now`. */
  lemma IssuedTokensReadBack(store: map<string, string>, now: int)
    ensures StoredTokens(Saved(store, IssuedTokens(now))) == Some(IssuedTokens(now))
    ensures Before(now, IssuedTokens(now).expiresAt)
  {
    SaveThenRead(store, IssuedTokens(now));
  }

  /** `clearTokens` deletes exactly the three token keys; afterwards no tokens read back. */
  lemma ClearRemovesExactlyTokens(store: map<string, string>)
    ensures StoredTokens(Cleared(store)) == None
    ensures Cleared(store).Keys == store.Keys - {AccessTokenKey, RefreshTokenKey, ExpiresAtKey}
    ensures forall k :: k in Cleared(store) ==> Cleared(store)[k] == store[k]
  {
  }

  class AuthProvider {
    var store: map<string, string>
    var user: Option<AuthUser>
    var loading: bool

    /** A signed-in user is always the placeholder and always has tokens in the store. */
    predicate Valid()
      reads this
    {
      user.Some? ==> user == Some(PlaceholderUser) && StoredTokens(store).Some?
    }

    /** The provider as it mounts over whatever the device's store holds. */
    constructor (store: map<string, string>)
      ensures Valid()
      ensures this.store == store && user == None && loading
    {
      this.store := store;
      user := None;
      loading := true;
    }

    /** `saveTokens`: three writes, one per key. */
    method SaveTokens(t: AuthTokens)
      modifies this`store
      ensures store == Saved(old(store), t)
    {
      store := store[AccessTokenKey := t.accessToken];
      store := store[RefreshTokenKey := t.refreshToken];
      store := store[ExpiresAtKey := NumberToString(t.expiresAt)];
    }

    /** `clearTokens`: three deletes, one per key. */
    method ClearTokens()
      modifies this`store
      ensures store == Cleared(old(store))
    {
      store := store - {AccessTokenKey};
      store := store - {RefreshTokenKey};
      store := store - {ExpiresAtKey};
    }

    /** `refreshSession`: the stand-in endpoint always answers, so new tokens are saved and the user set. */
    method RefreshSession(refreshToken: string, now: int)
      modifies this`store, this`user
      ensures Valid()
      ensures store == Saved(old(store), IssuedTokens(now)) && user == Some(PlaceholderUser)
      ensures StoredTokens(store) == Some(IssuedTokens(now))
    {
      SaveTokens(IssuedTokens(now));
      IssuedTokensReadBack(old(store), now);
      user := Some(PlaceholderUser);
    }

    /** The mount effect: restore a live session, refresh an expired one, and stop loading in every case. */
    method RestoreSession(now: int)
      requires Valid()
      modifies this
      ensures Valid()
      ensures !loading
      ensures StoredTokens(old(store)).None? ==> store == old(store) && user == old(user)
      ensures StoredTokens(old(store)).Some? && Before(now, StoredTokens(old(store)).value.expiresAt) ==>
        store == old(store) && user == Some(PlaceholderUser)
      ensures StoredTokens(old(store)).Some? && !Before(now, StoredTokens(old(store)).value.expiresAt) ==>
        store == Saved(old(store), IssuedTokens(now)) && user == Some(PlaceholderUser)
    {
      var tokens := StoredTokens(store);
      if tokens.Some? {
        if Before(now, tokens.value.expiresAt) {
          user := Some(PlaceholderUser);
        } else {
          RefreshSession(tokens.value.refreshToken, now);
        }
      }
      loading := false;
    }

    /** `requestOtp`: the stand-in request resolves and nothing in the provider changes. */
    method RequestOtp(phone: string)
      ensures unchanged(this)
    {
    }

    /** `verifyOtp`: any code is accepted; hour-long tokens are saved and the placeholder user set. */
    method VerifyOtp(phone: string, otp: string, now: int)
      modifies this`store, this`user
      ensures Valid()
      ensures store == Saved(old(store), IssuedTokens(now)) && user == Some(PlaceholderUser)
      ensures StoredTokens(store) == Some(IssuedTokens(now))
      ensures StoredTokens(store).value.expiresAt == Num(now + SessionLifetime)
    {
      SaveTokens(IssuedTokens(now));
      IssuedTokensReadBack(old(store), now);
      user := Some(PlaceholderUser);
    }

    /** `logout`: tokens deleted, user cleared. */
    method Logout()
      modifies this`store, this`user
      ensures Valid()
      ensures store == Cleared(old(store)) && user == None
      ensures StoredTokens(store) == None
    {
      ClearTokens();
      user := None;
    }
  }
}
