/** The session store of `src/stores/auth.js`: the signed-in user and token
    held in memory, mirrored into `localStorage`, and the actions that call the
    server and settle into new state. */
module Auth {
  import opened Js
  import opened Http
  import opened BrowserStorage

  const LoginFailed: string := "An error occurred during login"
  const RegisterFailed: string := "An error occurred during registration"
  const FetchProfileFailed: string := "Failed to fetch user profile"
  const UpdateProfileFailed: string := "Failed to update profile"
  const ChangePasswordFailed: string := "Failed to change password"

  /** The body of a successful login or registration: `{ token, user }`. */
  datatype Credentials = Credentials(token: string, user: Json)

  /** What the store reads back from storage when it is created, and the
      storage it leaves behind. */
  datatype Restored = Restored(user: Json, token: Option<string>, items: Items)

  /** The state initialiser: a missing or empty `user` entry gives `null`; one
      that does not parse gives `null` and is removed, with nothing surfaced;
      the token is the stored `auth_token` when it is non-empty. */
  function Restore(items: Items, json: Codec): (r: Restored)
    ensures !Truthy(Lookup(items, UserKey)) ==> r.user == Null && r.items == items
    ensures Truthy(Lookup(items, UserKey)) && json.parse(items[UserKey]).None? ==>
              r.user == Null && r.items == items - {UserKey}
    ensures Truthy(Lookup(items, UserKey)) && json.parse(items[UserKey]).Some? ==>
              r.user == json.parse(items[UserKey]).value && r.items == items
    ensures r.token.Some? <==> HasToken(items)
    ensures r.token.Some? ==> r.token.value == items[TokenKey]
  {
    var userItem := Lookup(items, UserKey);
    var parsed := if Truthy(userItem) then json.parse(userItem.value) else None;
    var items' := if Truthy(userItem) && parsed.None? then items - {UserKey} else items;
    var user := if parsed.Some? then parsed.value else Null;
    var tokenItem := Lookup(items', TokenKey);
    Restored(user, if Truthy(tokenItem) then tokenItem else None, items')
  }

  /** The two writes of a successful login or registration. */
  function SaveSession(items: Items, token: string, userText: string): (r: Items)
    ensures Lookup(r, TokenKey) == Some(token) && Lookup(r, UserKey) == Some(userText)
    ensures forall k :: k != TokenKey && k != UserKey ==> Lookup(r, k) == Lookup(items, k)
    ensures HasToken(r) <==> token != ""
  {
    items[TokenKey := token][UserKey := userText]
  }

  /** A saved session survives a reload: the restored user is the saved one
      and the restored token is the saved one when it is non-empty. */
  lemma RestoreAfterSave(items: Items, json: Codec, token: string, user: Json)
    requires RoundTrips(json)
    ensures var saved := SaveSession(items, token, json.stringify(user));
            Restore(saved, json) == Restored(user, if token != "" then Some(token) else None, saved)
  {
  }

  /** A profile written back by a fetch or an update is what a reload restores,
      and the stored token is untouched. */
  lemma RestoreAfterProfileWrite(items: Items, json: Codec, user: Json)
    requires RoundTrips(json)
    ensures var written := items[UserKey := json.stringify(user)];
            Restore(written, json) == Restored(user, Restore(items, json).token, written)
  {
  }

  /** After logout (or a 401) a reload finds nobody signed in. */
  lemma RestoreAfterClear(items: Items, json: Codec)
    ensures var cleared := ClearSession(items);
            Restore(cleared, json) == Restored(Null, None, cleared)
  {
  }

  /** Restoring is idempotent: the storage it leaves restores to the same session. */
  lemma RestoreIdempotent(items: Items, json: Codec)
    ensures var r := Restore(items, json);
            Restore(r.items, json) == r
  {
  }

  /** The store as created at start-up agrees with the route guard on whether
      someone is signed in. */
  lemma RestoredAgreesWithGuard(items: Items, json: Codec)
    ensures Truthy(Restore(items, json).token) <==> HasToken(items)
    ensures HasToken(Restore(items, json).items) <==> HasToken(items)
  {
  }

  class AuthStore {
    const storage: LocalStorage
    const json: Codec
    var user: Json
    var token: Option<string>
    var loading: bool
    var error: Option<string>

    /** In-memory token and stored token agree (what `isAuthenticated` and the
        guard each read). A 401 seen by the transport breaks this. */
    ghost predicate InSync()
      reads this, storage
    {
      IsAuthenticated() <==> HasToken(storage.items)
    }

    constructor (storage: LocalStorage, json: Codec)
      modifies storage
      ensures this.storage == storage && this.json == json
      ensures var r := Restore(old(storage.items), json);
              user == r.user && token == r.token && storage.items == r.items
      ensures !loading && error == None
      ensures InSync()
    {
      this.storage := storage;
      this.json := json;
      new;
      var storedUser := Null;
      var userItem := storage.GetItem(UserKey);
      if Truthy(userItem) {
        var parsed := json.parse(userItem.value);
        if parsed.Some? {
          storedUser := parsed.value;
        } else {
          storage.RemoveItem(UserKey);
        }
      }
      user := storedUser;
      var tokenItem := storage.GetItem(TokenKey);
      token := if Truthy(tokenItem) then tokenItem else None;
      loading := false;
      error := None;
    }

    /** `isAuthenticated`: the in-memory token is truthy. */
    predicate IsAuthenticated()
      reads this
    {
      Truthy(token)
    }

    method Login(response: Outcome<Credentials>) returns (ok: bool)
      modifies this, storage
      ensures !loading && ok == response.Ok?
      ensures response.Ok? ==>
        && user == response.data.user && token == Some(response.data.token) && error == None
        && storage.items == SaveSession(old(storage.items), response.data.token, json.stringify(response.data.user))
      ensures response.Err? ==>
        && user == old(user) && token == old(token) && storage.items == old(storage.items)
        && error == Some(ErrorText(response.error, LoginFailed))
      ensures old(InSync()) ==> InSync()
    {
      loading := true;
      error := None;
      match response {
        case Ok(data) =>
          user := data.user;
          token := Some(data.token);
          storage.SetItem(TokenKey, data.token);
          storage.SetItem(UserKey, json.stringify(data.user));
          ok := true;
        case Err(e) =>
          error := Some(ErrorText(e, LoginFailed));
          ok := false;
      }
      loading := false;
    }

    method Register(response: Outcome<Credentials>) returns (ok: bool)
      modifies this, storage
      ensures !loading && ok == response.Ok?
      ensures response.Ok? ==>
        && user == response.data.user && token == Some(response.data.token) && error == None
        && storage.items == SaveSession(old(storage.items), response.data.token, json.stringify(response.data.user))
      ensures response.Err? ==>
        && user == old(user) && token == old(token) && storage.items == old(storage.items)
        && error == Some(ErrorText(response.error, RegisterFailed))
      ensures old(InSync()) ==> InSync()
    {
      loading := true;
      error := None;
      match response {
        case Ok(data) =>
          user := data.user;
          token := Some(data.token);
          storage.SetItem(TokenKey, data.token);
          storage.SetItem(UserKey, json.stringify(data.user));
          ok := true;
        case Err(e) =>
          error := Some(ErrorText(e, RegisterFailed));
          ok := false;
      }
      loading := false;
    }

    /** Refreshes the profile; success is reported through `error` only. */
    method FetchUserProfile(response: Outcome<Json>)
      modifies this, storage
      ensures !loading && token == old(token)
      ensures response.Ok? ==>
        && user == response.data && error == None
        && storage.items == old(storage.items)[UserKey := json.stringify(response.data)]
      ensures response.Err? ==>
        && user == old(user) && storage.items == old(storage.items)
        && error == Some(ErrorText(response.error, FetchProfileFailed))
      ensures old(InSync()) ==> InSync()
    {
      loading := true;
      error := None;
      match response {
        case Ok(data) =>
          user := data;
          storage.SetItem(UserKey, json.stringify(data));
        case Err(e) =>
          error := Some(ErrorText(e, FetchProfileFailed));
      }
      loading := false;
    }

    /** Replaces the profile with the server's answer and reports success as a boolean. */
    method UpdateProfile(response: Outcome<Json>) returns (ok: bool)
      modifies this, storage
      ensures !loading && token == old(token) && ok == response.Ok?
      ensures response.Ok? ==>
        && user == response.data && error == None
        && storage.items == old(storage.items)[UserKey := json.stringify(response.data)]
      ensures response.Err? ==>
        && user == old(user) && storage.items == old(storage.items)
        && error == Some(ErrorText(response.error, UpdateProfileFailed))
      ensures old(InSync()) ==> InSync()
    {
      loading := true;
      error := None;
      match response {
        case Ok(data) =>
          user := data;
          storage.SetItem(UserKey, json.stringify(data));
          ok := true;
        case Err(e) =>
          error := Some(ErrorText(e, UpdateProfileFailed));
          ok := false;
      }
      loading := false;
    }

    /** Never touches the session: the server is assumed to keep the token valid. */
    method ChangePassword(response: Outcome<()>) returns (ok: bool)
      modifies this
      ensures !loading && ok == response.Ok?
      ensures user == old(user) && token == old(token)
      ensures response.Ok? ==> error == None
      ensures response.Err? ==> error == Some(ErrorText(response.error, ChangePasswordFailed))
    {
      loading := true;
      error := None;
      match response {
        case Ok(_) =>
          ok := true;
        case Err(e) =>
          error := Some(ErrorText(e, ChangePasswordFailed));
          ok := false;
      }
      loading := false;
    }

    /** Local only: clears the session in memory and in storage; `loading` and
        `error` are left as they were. A second call changes nothing more,
        because `ClearSession` is idempotent. */
    method Logout()
      modifies this, storage
      ensures user == Null && token == None
      ensures storage.items == ClearSession(old(storage.items))
      ensures loading == old(loading) && error == old(error)
      ensures InSync()
    {
      user := Null;
      token := None;
      storage.RemoveItem(TokenKey);
      storage.RemoveItem(UserKey);
    }
  }
}
