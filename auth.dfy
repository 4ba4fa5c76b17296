/**
 * The authentication state of a page (js/auth.js): the signed-in user, the
 * registry of auth-change listeners, and the decisions built on them.
 * The identity provider is an input: the session it reports is a parameter.
 * A listener is identified by its callback; the effect of calling listeners
 * is recorded as a log of calls.
 */
module Auth {
  import opened Common

  /** A callback registered with `onAuthStateChange`. */
  type Listener = nat

  /** One invocation `callback(user)` of a registered listener. */
  datatype Call = Call(listener: Listener, user: Option<UserId>)

  /** The calls `listeners.forEach(cb => cb(user))` makes, in order. */
  function Broadcast(listeners: seq<Listener>, user: Option<UserId>): (r: seq<Call>)
    ensures |r| == |listeners|
    ensures forall i :: 0 <= i < |r| ==> r[i] == Call(listeners[i], user)
  {
    seq(|listeners|, i requires 0 <= i < |listeners| => Call(listeners[i], user))
  }

  /** `listeners.filter(cb => cb !== callback)`. */
  function Without(listeners: seq<Listener>, callback: Listener): (r: seq<Listener>)
    ensures callback !in r
    ensures forall x :: x != callback ==> multiset(r)[x] == multiset(listeners)[x]
    decreases |listeners|
  {
    if listeners == [] then []
    else
      var init := listeners[..|listeners| - 1];
      var last := listeners[|listeners| - 1];
      assert listeners == init + [last];
      Without(init, callback) + (if last == callback then [] else [last])
  }

  /**
   * Filtering works piecewise, so the listeners that stay keep their order:
   * the order in which `notifyAuthListeners` calls them.
   */
  lemma {:induction false} WithoutAppend(a: seq<Listener>, b: seq<Listener>, callback: Listener)
    ensures Without(a + b, callback) == Without(a, callback) + Without(b, callback)
    decreases |b|
  {
    if b == [] {
      assert a + b == a;
    } else {
      var init, last := b[..|b| - 1], b[|b| - 1];
      assert (a + b)[..|a + b| - 1] == a + init;
      assert (a + b)[|a + b| - 1] == last;
      WithoutAppend(a, init, callback);
    }
  }

  /** Removing a callback that is not registered leaves the registry as it is. */
  lemma {:induction false} WithoutAbsent(listeners: seq<Listener>, callback: Listener)
    requires callback !in listeners
    ensures Without(listeners, callback) == listeners
    decreases |listeners|
  {
    if listeners != [] {
      var init := listeners[..|listeners| - 1];
      assert listeners == init + [listeners[|listeners| - 1]];
      WithoutAbsent(init, callback);
    }
  }

  /**
   * Subscribing a new callback and then calling the unsubscribe function it
   * returned gives back the registry as it was before.
   */
  lemma SubscribeThenUnsubscribe(listeners: seq<Listener>, callback: Listener)
    requires callback !in listeners
    ensures Without(listeners + [callback], callback) == listeners
  {
    assert (listeners + [callback])[..|listeners|] == listeners;
    WithoutAbsent(listeners, callback);
  }

  /** Where an unauthenticated visitor is sent. */
  datatype Gate =
    | Proceed
    | RedirectToLogin(page: string, returnTo: string)   // `${page}?redirect=${returnTo}`

  /** The login page `requireAuth` sends to (relative to the current directory). */
  const LOGIN_PAGE := "login.html"
  /** The login page `withAuth` and the start button send to (site root). */
  const ROOT_LOGIN_PAGE := "/login.html"

  /**
   * The decision shared by `requireAuth` and `withAuth`: proceed when
   * authenticated, otherwise go to `page` with the return target
   * `redirectPath || currentPath` ("" stands for the null default).
   */
  function LoginGate(authenticated: bool, page: string, redirectPath: string, currentPath: string): (g: Gate)
    ensures g.Proceed? <==> authenticated
    ensures g.RedirectToLogin? ==> g.page == page
    ensures g.RedirectToLogin? && redirectPath != "" ==> g.returnTo == redirectPath
    ensures g.RedirectToLogin? && redirectPath == "" ==> g.returnTo == currentPath
  {
    if authenticated then Proceed
    else RedirectToLogin(page, if redirectPath != "" then redirectPath else currentPath)
  }

  /** A session the provider reports: the user it belongs to. */
  datatype Session = Session(user: UserId)

  /**
   * What `getSession()` resolves to with version 2 of the provider's client
   * (js/supabase-client.js:3): `{ data: { session } }`. Its `data` has a
   * `session` field and no `user` field.
   */
  datatype SessionResponse = SessionResponse(session: Option<Session>)

  /**
   * `session?.user || null`, the way `initAuth` reads the response: the
   * session's user when there is a session.
   */
  function SessionUser(resp: SessionResponse): (r: Option<UserId>)
    ensures r.Some? <==> resp.session.Some?
    ensures r.Some? ==> r.value == resp.session.value.user
  {
    match resp.session
    case Some(s) => Some(s.user)
    case None => None
  }

  /**
   * `const { data: { user } } = await supabase.auth.getSession()`, the way
   * the pathway pages read the response: `data.user` does not exist, so
   * `user` is undefined whether or not there is a session.
   */
  function DestructuredUser(resp: SessionResponse): (r: Option<UserId>)
    ensures r.None?
  {
    None
  }

  /** With a session, the pathway pages' reading loses the user that `initAuth` finds. */
  lemma DestructuredUserLosesSession(u: UserId)
    ensures SessionUser(SessionResponse(Some(Session(u)))) == Some(u)
    ensures DestructuredUser(SessionResponse(Some(Session(u)))) != SessionUser(SessionResponse(Some(Session(u))))
  {
  }

  /** `params.get(key)`: the value of the first parameter named `key`. */
  function FirstParam(query: seq<(string, string)>, key: string): (r: Option<string>)
    ensures r.None? <==> forall i :: 0 <= i < |query| ==> query[i].0 != key
    ensures r.Some? ==> exists i :: 0 <= i < |query| && query[i] == (key, r.value)
                                   && forall j :: 0 <= j < i ==> query[j].0 != key
    decreases |query|
  {
    if query == [] then None
    else if query[0].0 == key then Some(query[0].1)
    else
      var r := FirstParam(query[1..], key);
      assert forall i :: 1 <= i < |query| ==> query[i] == query[1..][i - 1];
      r
  }

  /**
   * `getRedirectUrl()`: the `redirect` query parameter, or "/" when there is
   * none or it is empty. The result is never empty.
   */
  function GetRedirectUrl(query: seq<(string, string)>): (r: string)
    ensures r != ""
    ensures FirstParam(query, "redirect").Some? && FirstParam(query, "redirect").value != ""
            ==> r == FirstParam(query, "redirect").value
    ensures FirstParam(query, "redirect").None? || FirstParam(query, "redirect").value == "" ==> r == "/"
  {
    var p := FirstParam(query, "redirect");
    if p.Some? && p.value != "" then p.value else "/"
  }

  /** What the provider's `signUp` reports: the new user, if any, and whether a session was opened. */
  datatype SignUpData = SignUpData(user: Option<UserId>, hasSession: bool)

  /** The `{ data, error }` pair `signUp` returns. */
  datatype SignUpResult = SignUpResult(data: Option<SignUpData>, error: Option<string>)

  /**
   * `signUp(email, password, name)`: the provider's answer, after an attempt
   * to create the public user record when the provider returned a user.
   * The outcome of that insert (`recordError`) is only logged.
   */
  function SignUp(provider: Result<SignUpData>, recordError: Option<string>): (r: SignUpResult)
    ensures r.error.Some? <==> provider.Err?
    ensures provider.Err? ==> r == SignUpResult(None, Some(provider.message))
    ensures provider.Ok? ==> r == SignUpResult(Some(provider.value), None)
  {
    match provider
    case Err(m) => SignUpResult(None, Some(m))
    case Ok(d) => SignUpResult(Some(d), None)
  }

  /** A failed user-record insert never changes what `signUp` returns. */
  lemma SignUpIgnoresRecordError(provider: Result<SignUpData>, e1: Option<string>, e2: Option<string>)
    ensures SignUp(provider, e1) == SignUp(provider, e2)
  {
  }

  /** The module-level state of js/auth.js. */
  class AuthState {
    /** `currentUser`: None stands for null. */
    var currentUser: Option<UserId>
    /** `authListeners`, in registration order. */
    var listeners: seq<Listener>
    /** Every listener invocation made so far, in order. */
    var calls: seq<Call>

    constructor()
      ensures currentUser == None && listeners == [] && calls == []
    {
      currentUser := None;
      listeners := [];
      calls := [];
    }

    /** `isAuthenticated()`: a user is signed in. */
    function IsAuthenticated(): (b: bool)
      reads this
      ensures b <==> currentUser != None
    {
      currentUser.Some?
    }

    /**
     * `onAuthStateChange(callback)`: register the callback at the end and,
     * when a user is signed in, call it once with that user.
     */
    method OnAuthStateChange(callback: Listener)
      modifies this
      ensures listeners == old(listeners) + [callback]
      ensures currentUser == old(currentUser)
      ensures calls == old(calls) + (if currentUser.Some? then [Call(callback, currentUser)] else [])
    {
      listeners := listeners + [callback];
      if currentUser.Some? {
        calls := calls + [Call(callback, currentUser)];
      }
    }

    /** The function returned by `onAuthStateChange(callback)`. */
    method Unsubscribe(callback: Listener)
      modifies this
      ensures listeners == Without(old(listeners), callback)
      ensures currentUser == old(currentUser) && calls == old(calls)
    {
      listeners := Without(listeners, callback);
    }

    /** `notifyAuthListeners()`: call every listener, in order, with the current user. */
    method NotifyAuthListeners()
      modifies this
      ensures calls == old(calls) + Broadcast(listeners, currentUser)
      ensures listeners == old(listeners) && currentUser == old(currentUser)
    {
      var i := 0;
      while i < |listeners|
        invariant 0 <= i <= |listeners|
        invariant listeners == old(listeners) && currentUser == old(currentUser)
        invariant calls == old(calls) + Broadcast(listeners[..i], currentUser)
      {
        assert listeners[..i + 1] == listeners[..i] + [listeners[i]];
        calls := calls + [Call(listeners[i], currentUser)];
        i := i + 1;
      }
      assert listeners[..i] == listeners;
    }

    /** `initAuth()`: adopt the session's user (or null), notify, and return it. */
    method InitAuth(sessionUser: Option<UserId>) returns (user: Option<UserId>)
      modifies this
      ensures user == sessionUser && currentUser == sessionUser
      ensures listeners == old(listeners)
      ensures calls == old(calls) + Broadcast(listeners, sessionUser)
    {
      currentUser := sessionUser;
      NotifyAuthListeners();
      user := currentUser;
    }

    /** The handler the module registers with the provider's own state-change stream. */
    method ProviderStateChanged(sessionUser: Option<UserId>)
      modifies this
      ensures currentUser == sessionUser
      ensures listeners == old(listeners)
      ensures calls == old(calls) + Broadcast(listeners, sessionUser)
    {
      currentUser := sessionUser;
      NotifyAuthListeners();
    }

    /**
     * `requireAuth(redirectPath)`: true iff authenticated; otherwise the page
     * goes to the relative login page with `redirectPath || currentPath`.
     */
    method RequireAuth(redirectPath: string, currentPath: string) returns (ok: bool, gate: Gate)
      ensures ok <==> currentUser.Some?
      ensures gate == LoginGate(currentUser.Some?, LOGIN_PAGE, redirectPath, currentPath)
    {
      gate := LoginGate(IsAuthenticated(), LOGIN_PAGE, redirectPath, currentPath);
      ok := gate.Proceed?;
    }

    /**
     * `withAuth(callback, redirectPath)`: whether the callback runs, or where
     * the page goes instead (the login page at the site root).
     */
    method WithAuth(redirectPath: string, currentPath: string) returns (gate: Gate)
      ensures gate.Proceed? <==> currentUser.Some?
      ensures gate == LoginGate(currentUser.Some?, ROOT_LOGIN_PAGE, redirectPath, currentPath)
    {
      gate := LoginGate(IsAuthenticated(), ROOT_LOGIN_PAGE, redirectPath, currentPath);
    }
  }
}
