/** The browser page of the counter application: a session (token and user, mirrored in
    `localStorage`) and a counter kept in step with the server. The DOM, timers and `fetch`
    are outside the model: each server round trip is a request the page sends and a reply it
    is given. */
module App {
  import opened Results
  import opened JsStrings

  const TokenKey: string := "authToken"
  const UserKey: string := "user"
  const CounterPath: string := "/api/counter"
  const JsonType: string := "application/json"
  const BearerPrefix: string := "Bearer "

  /** The signed-in user as the server describes it. */
  datatype User = User(email: string)

  /** `JSON.parse` of the stored user: an exception, or a value that is either a user or
      falsy (`null`, for instance). */
  type UserParser = string -> Result<Option<User>, string>

  datatype Headers = Headers(contentType: string, authorization: string)

  datatype Request = Request(verb: string, path: string, headers: Headers, value: Option<int>)

  /** What `fetch` gives back: a network failure, or a status and a body whose `value` could
      be read (`None` when `response.json()` throws). */
  datatype Reply = NetworkError | Reply(status: int, value: Option<int>)
  {
    predicate Ok() { Reply? && 200 <= status <= 299 }
    predicate Unauthorized() { Reply? && status == 401 }
  }

  /** The page's module-level variables and its `localStorage`. */
  datatype AppState = AppState(count: int, authToken: Option<string>, currentUser: Option<User>, storage: map<string, string>)

  /** What a handler does: the request it sends, if any, and the state it leaves. */
  datatype Effect = Effect(sent: Option<Request>, after: AppState)

  /** `getAuthHeaders`: a bearer credential exactly when the token is truthy. */
  function AuthHeaders(authToken: Option<string>): (h: Headers)
    ensures h.contentType == JsonType
    ensures Truthy(authToken) ==> h.authorization == BearerPrefix + authToken.value
    ensures !Truthy(authToken) ==> h.authorization == ""
  {
    Headers(JsonType, if Truthy(authToken) then BearerPrefix + authToken.value else "")
  }

  /** How a server reads the `Authorization` header back: the text after `Bearer `, if any. */
  function BearerToken(h: Headers): (t: Option<string>)
    ensures t.Some? ==> BearerPrefix + t.value == h.authorization
  {
    if StartsWith(h.authorization, BearerPrefix) then Some(h.authorization[|BearerPrefix|..]) else None
  }

  /** The header carries the token and nothing else: reading it back gives the token when it
      is truthy, and no token otherwise. */
  lemma AuthHeadersRoundTrip(authToken: Option<string>)
    ensures BearerToken(AuthHeaders(authToken)) == if Truthy(authToken) then authToken else None
  {
    var h := AuthHeaders(authToken);
    if Truthy(authToken) {
      assert h.authorization[..|BearerPrefix|] == BearerPrefix;
      assert h.authorization[|BearerPrefix|..] == authToken.value;
    } else {
      assert |h.authorization| == 0;
    }
  }

  /** The logged-out branch of `updateUI`: no token, no user, and neither key stored. */
  function LoggedOut(s: AppState): (t: AppState)
    ensures t.authToken.None? && t.currentUser.None?
    ensures TokenKey !in t.storage && UserKey !in t.storage
    ensures t.count == s.count
    ensures forall k :: k != TokenKey && k != UserKey ==> (k in t.storage <==> k in s.storage)
    ensures forall k :: k in t.storage ==> t.storage[k] == s.storage[k]
  {
    AppState(s.count, None, None, s.storage - {TokenKey, UserKey})
  }

  /** Signing out twice is signing out once. */
  lemma LoggedOutIdempotent(s: AppState)
    ensures LoggedOut(LoggedOut(s)) == LoggedOut(s)
  {
    assert LoggedOut(s).storage - {TokenKey, UserKey} == LoggedOut(s).storage;
  }

  /** What the page shows is never half a session: either a truthy token with a user, or no
      token, no user and nothing stored under either key. */
  predicate Consistent(s: AppState) {
    (Truthy(s.authToken) && s.currentUser.Some?) ||
    (s.authToken.None? && s.currentUser.None? && TokenKey !in s.storage && UserKey !in s.storage)
  }

  /** `loadCount` */
  function Load(s: AppState, reply: Reply): (e: Effect)
    ensures !Truthy(s.authToken) <==> e.sent.None?
    ensures e.sent.Some? ==> e.sent.value == Request("GET", CounterPath, AuthHeaders(s.authToken), None)
    ensures e.sent.None? ==> e.after == s
    ensures e.sent.Some? && reply.Unauthorized() ==> e.after == LoggedOut(s)
    ensures e.sent.Some? && reply.Ok() && reply.value.Some? ==> e.after == s.(count := reply.value.value)
    ensures e.sent.Some? && !reply.Unauthorized() && !(reply.Ok() && reply.value.Some?) ==> e.after == s
    ensures e.after == s || e.after == LoggedOut(s) || e.after == s.(count := e.after.count)
  {
    if !Truthy(s.authToken) then Effect(None, s)
    else
      var request := Request("GET", CounterPath, AuthHeaders(s.authToken), None);
      if reply.Ok() && reply.value.Some? then Effect(Some(request), s.(count := reply.value.value))
      else if reply.Unauthorized() then Effect(Some(request), LoggedOut(s))
      else Effect(Some(request), s)
  }

  /** `saveCount`: the request carries the current count; only a 401 changes the state. */
  function Save(s: AppState, reply: Reply): (e: Effect)
    ensures !Truthy(s.authToken) <==> e.sent.None?
    ensures e.sent.Some? ==> e.sent.value == Request("PUT", CounterPath, AuthHeaders(s.authToken), Some(s.count))
    ensures e.after == if e.sent.Some? && reply.Unauthorized() then LoggedOut(s) else s
  {
    if !Truthy(s.authToken) then Effect(None, s)
    else
      var request := Request("PUT", CounterPath, AuthHeaders(s.authToken), Some(s.count));
      Effect(Some(request), if reply.Unauthorized() then LoggedOut(s) else s)
  }

  /** `updateUI`: load the counter when signed in, otherwise clear the session. */
  function AfterUpdateUI(s: AppState, reply: Reply): (e: Effect)
    ensures Consistent(e.after)
    ensures e.after.count == s.count || e.sent.Some?
    ensures Truthy(s.authToken) && s.currentUser.Some? ==> e == Load(s, reply)
    ensures !(Truthy(s.authToken) && s.currentUser.Some?) ==> e == Effect(None, LoggedOut(s))
  {
    if Truthy(s.authToken) && s.currentUser.Some? then Load(s, reply)
    else Effect(None, LoggedOut(s))
  }

  /** `updateCount`: the new count is kept whatever the server answers, and is what is sent. */
  function AfterUpdateCount(s: AppState, newValue: int, reply: Reply): (e: Effect)
    ensures e.after.count == newValue
    ensures e.sent.Some? <==> Truthy(s.authToken)
    ensures e.sent.Some? ==> e.sent.value.value == Some(newValue) && e.sent.value.verb == "PUT"
  {
    Save(s.(count := newValue), reply)
  }

  /** The handlers keep the page consistent. */
  lemma {:induction false} HandlersKeepConsistent(s: AppState, reply: Reply, newValue: int)
    requires Consistent(s)
    ensures Consistent(Load(s, reply).after)
    ensures Consistent(Save(s, reply).after)
    ensures Consistent(AfterUpdateCount(s, newValue, reply).after)
  {
    assert Consistent(LoggedOut(s));
    assert Consistent(s.(count := newValue));
  }

  /** A 401 from either counter request signs the page out. */
  lemma UnauthorizedSignsOut(s: AppState, reply: Reply)
    requires Truthy(s.authToken) && reply.Unauthorized()
    ensures Load(s, reply).after == Save(s, reply).after == LoggedOut(s)
  {
  }

  /** Increment then decrement leaves the count where it was, whatever the server answers. */
  lemma IncrementDecrementCancel(s: AppState, r1: Reply, r2: Reply)
    ensures var t := AfterUpdateCount(s, s.count + 1, r1).after;
      AfterUpdateCount(t, t.count - 1, r2).after.count == s.count
  {
  }

  /** What the first page of a visit finds: the token and user restored from storage when both
      are truthy, then `updateUI`. `completed` is false when `JSON.parse` throws, which ends
      the handler before `updateUI`. */
  datatype Restored = Restored(completed: bool, effect: Effect)

  function Restore(s: AppState, parse: UserParser, reply: Reply): (r: Restored)
    ensures r.completed <==> !(Truthy(Lookup(s.storage, TokenKey)) && Truthy(Lookup(s.storage, UserKey)) &&
                               parse(s.storage[UserKey]).Failure?)
    ensures r.completed ==> Consistent(r.effect.after)
    ensures !Truthy(Lookup(s.storage, TokenKey)) || !Truthy(Lookup(s.storage, UserKey)) ==>
      r.effect == AfterUpdateUI(s, reply)
    ensures !r.completed ==> r.effect == Effect(None, s.(authToken := Lookup(s.storage, TokenKey)))
    ensures Truthy(Lookup(s.storage, TokenKey)) && Truthy(Lookup(s.storage, UserKey)) && parse(s.storage[UserKey]).Success? ==>
      r.effect == AfterUpdateUI(s.(authToken := Lookup(s.storage, TokenKey), currentUser := parse(s.storage[UserKey]).value), reply)
  {
    var storedToken, storedUser := Lookup(s.storage, TokenKey), Lookup(s.storage, UserKey);
    if Truthy(storedToken) && Truthy(storedUser) then
      match parse(storedUser.value)
      case Failure(_) => Restored(false, Effect(None, s.(authToken := storedToken)))
      case Success(user) => Restored(true, AfterUpdateUI(s.(authToken := storedToken, currentUser := user), reply))
    else Restored(true, AfterUpdateUI(s, reply))
  }

  /** `localStorage.getItem` */
  function Lookup(storage: map<string, string>, key: string): (v: Option<string>)
    ensures v.Some? <==> key in storage
    ensures v.Some? ==> v.value == storage[key]
  {
    if key in storage then Some(storage[key]) else None
  }

  /** The successful end of `signUp` and `signIn`: the session the server handed out, kept in
      memory and in storage (the page is refreshed a second later, by `updateUI`). */
  function SignedIn(s: AppState, token: string, user: User, stringify: User -> string): (t: AppState)
    ensures t.authToken == Some(token) && t.currentUser == Some(user)
    ensures t.storage == s.storage[TokenKey := token][UserKey := stringify(user)]
    ensures t.count == s.count
  {
    s.(authToken := Some(token), currentUser := Some(user),
       storage := s.storage[TokenKey := token][UserKey := stringify(user)])
  }

  /** Reloading the page after signing in restores the same session, provided the token is
      not empty and the stored user parses back to the user. */
  lemma {:induction false} ReloadRestoresSession(s: AppState, token: string, user: User, stringify: User -> string,
                                                 parse: UserParser, reply: Reply, afterReload: AppState)
    requires token != [] && stringify(user) != [] && parse(stringify(user)) == Success(Some(user))
    requires afterReload == AppState(0, None, None, SignedIn(s, token, user, stringify).storage)
    ensures var r := Restore(afterReload, parse, reply);
      r.completed && r.effect.sent.Some? && r.effect.sent.value.headers == AuthHeaders(Some(token))
    ensures var r := Restore(afterReload, parse, reply);
      reply.Unauthorized() || (r.effect.after.authToken == Some(token) && r.effect.after.currentUser == Some(user))
  {
    var stored := afterReload.storage;
    assert Lookup(stored, TokenKey) == Some(token);
    assert Lookup(stored, UserKey) == Some(stringify(user));
    var restored := afterReload.(authToken := Some(token), currentUser := Some(user));
    assert Restore(afterReload, parse, reply).effect == Load(restored, reply);
  }

  /** Whether a sign-up or sign-in form may be sent: the trimmed email and the password are both
      non-empty. */
  datatype FormCheck = FillInAllFields | Send(email: string, password: string)

  function CheckForm(emailField: string, password: string): (r: FormCheck)
    ensures r.Send? <==> !AllSpace(emailField) && password != ""
    ensures r.Send? ==> r.email == Trim(emailField) && r.password == password
  {
    var email := Trim(emailField);
    if email == "" || password == "" then FillInAllFields else Send(email, password)
  }

  /** The page, its state changed in place by its handlers. */
  class Page {
    var count: int
    var authToken: Option<string>
    var currentUser: Option<User>
    var storage: map<string, string>

    function State(): AppState
      reads this
    {
      AppState(count, authToken, currentUser, storage)
    }

    /** The page as first loaded, with whatever `localStorage` already holds. */
    constructor (storage: map<string, string>)
      ensures State() == AppState(0, None, None, storage)
    {
      count, authToken, currentUser := 0, None, None;
      this.storage := storage;
    }

    /** The logged-out branch of `updateUI`. */
    method ClearSession()
      modifies this
      ensures State() == LoggedOut(old(State()))
    {
      authToken := None;
      currentUser := None;
      storage := storage - {TokenKey};
      storage := storage - {UserKey};
    }

    /** `signOut`; its call of `updateUI` always takes the logged-out branch. */
    method SignOut()
      modifies this
      ensures State() == LoggedOut(old(State()))
    {
      authToken := None;
      currentUser := None;
      storage := storage - {TokenKey};
      storage := storage - {UserKey};
      ClearSession();
      LoggedOutIdempotent(old(State()));
    }

    method LoadCount(reply: Reply) returns (sent: Option<Request>)
      modifies this
      ensures Effect(sent, State()) == Load(old(State()), reply)
    {
      if !Truthy(authToken) {
        return None;
      }
      sent := Some(Request("GET", CounterPath, AuthHeaders(authToken), None));
      if !reply.Ok() {
        if reply.Unauthorized() {
          SignOut();
        }
        return;
      }
      if reply.value.Some? {
        count := reply.value.value;
      }
    }

    method SaveCount(reply: Reply) returns (sent: Option<Request>)
      modifies this
      ensures Effect(sent, State()) == Save(old(State()), reply)
    {
      if !Truthy(authToken) {
        return None;
      }
      sent := Some(Request("PUT", CounterPath, AuthHeaders(authToken), Some(count)));
      if !reply.Ok() && reply.Unauthorized() {
        SignOut();
      }
    }

    method UpdateUI(reply: Reply) returns (sent: Option<Request>)
      modifies this
      ensures Effect(sent, State()) == AfterUpdateUI(old(State()), reply)
    {
      if Truthy(authToken) && currentUser.Some? {
        sent := LoadCount(reply);
      } else {
        ClearSession();
        sent := None;
      }
    }

    method UpdateCount(newValue: int, reply: Reply) returns (sent: Option<Request>)
      modifies this
      ensures Effect(sent, State()) == AfterUpdateCount(old(State()), newValue, reply)
    {
      count := newValue;
      sent := SaveCount(reply);
    }

    method Increment(reply: Reply) returns (sent: Option<Request>)
      modifies this
      ensures Effect(sent, State()) == AfterUpdateCount(old(State()), old(count) + 1, reply)
    {
      sent := UpdateCount(count + 1, reply);
    }

    method Decrement(reply: Reply) returns (sent: Option<Request>)
      modifies this
      ensures Effect(sent, State()) == AfterUpdateCount(old(State()), old(count) - 1, reply)
    {
      sent := UpdateCount(count - 1, reply);
    }

    method Reset(reply: Reply) returns (sent: Option<Request>)
      modifies this
      ensures Effect(sent, State()) == AfterUpdateCount(old(State()), 0, reply)
    {
      sent := UpdateCount(0, reply);
    }

    /** The `DOMContentLoaded` handler, up to `updateUI`. */
    method RestoreOnLoad(parse: UserParser, reply: Reply) returns (completed: bool, sent: Option<Request>)
      modifies this
      ensures Restored(completed, Effect(sent, State())) == Restore(old(State()), parse, reply)
    {
      var storedToken := Lookup(storage, TokenKey);
      var storedUser := Lookup(storage, UserKey);
      if Truthy(storedToken) && Truthy(storedUser) {
        authToken := storedToken;
        var parsed := parse(storedUser.value);
        if parsed.Failure? {
          return false, None;
        }
        currentUser := parsed.value;
      }
      completed := true;
      sent := UpdateUI(reply);
    }

    /** The state `signUp` and `signIn` leave after a successful reply. */
    method SignIn(token: string, user: User, stringify: User -> string)
      modifies this
      ensures State() == SignedIn(old(State()), token, user, stringify)
    {
      authToken := Some(token);
      currentUser := Some(user);
      storage := storage[TokenKey := token];
      storage := storage[UserKey := stringify(user)];
    }
  }
}
