/**
 * The session store of the admin panel (`AuthProvider` in
 * contexts/AuthContext.tsx): the signed-in user, the loading flag, the
 * browser's `localStorage` and the router's current path.
 *
 * The transitions are first given as pure functions over a `State` value
 * (`RestoreStep`, `LoginStep`, `LogoutStep`, `Step`, `Run`), and the lemmas
 * about the store are stated on those.  The class `AuthProvider` then holds
 * the same state in fields that its methods update step by step, as the
 * React setters and `localStorage` calls do, and each method is proved to
 * perform exactly the corresponding step.
 */
module Session {
  import opened Wrappers
  import opened Http

  /** The `User` record the authentication endpoint returns. */
  datatype User = User(id: string, username: string, email: string, role: string, isAdmin: bool)

  /**
   * A string held in `localStorage`: either the `JSON.stringify` of a user,
   * or text on which `JSON.parse` throws.
   */
  datatype StoredEntry = Encoded(user: User) | Malformed(text: string)

  /** `localStorage`, one origin's key-value store. */
  type Storage = map<string, StoredEntry>

  /** The only key the session store reads and writes. */
  const UserKey := "user"

  /** The two paths the session layer navigates to. */
  const DashboardPath := "/dashboard"
  const LoginPath := "/login"

  const LoginFailed := Error("Login failed")
  const OutsideProvider := Error("useAuth must be used within an AuthProvider")

  /** The provider's state: the two React state cells, the storage and the router's path. */
  datatype State = State(user: Option<User>, isLoading: bool, storage: Storage, location: string)

  /** How the login `fetch` settles: a response with a status and the result of `response.json()`, or a rejection. */
  datatype LoginReply =
    | Answered(status: int, data: Result<User, Error>)
    | Unreachable(error: Error)

  /** The operations that change the session: the mount effect, `login` and `logout`. */
  datatype Op = Restore | Login(reply: LoginReply) | Logout

  /** The state after an operation, and the error it threw, if any. */
  datatype Outcome = Outcome(state: State, thrown: Option<Error>)

  /** The provider as first rendered: no user, still loading. */
  function Initial(storage: Storage, location: string): (s: State)
    ensures s.user == None && s.isLoading
    ensures s.storage == storage && s.location == location
  {
    State(None, true, storage, location)
  }

  /** JavaScript truthiness of `localStorage.getItem` on a present key: only the empty string is falsy. */
  predicate Truthy(e: StoredEntry)
  {
    e.Encoded? || e.text != ""
  }

  /** The user that the `"user"` entry decodes to, if it holds a well-formed one. */
  function StoredUser(storage: Storage): Option<User>
  {
    if UserKey in storage && storage[UserKey].Encoded? then Some(storage[UserKey].user) else None
  }

  /** Memory and storage agree: the in-memory user is exactly the decoded `"user"` entry. */
  predicate Consistent(s: State)
  {
    s.user == StoredUser(s.storage)
  }

  /**
   * The store's invariant: once a user is held, or once loading is over,
   * memory and storage agree.  Before the mount effect has run the provider
   * holds no user whatever the storage contains.
   */
  predicate Invariant(s: State)
  {
    (s.user.Some? || !s.isLoading) ==> Consistent(s)
  }

  /**
   * The mount effect: read `"user"`; if the entry is truthy, parse it and
   * install it (a malformed entry makes `JSON.parse` throw, which abandons
   * the effect before `isLoading` is cleared); then clear `isLoading`.
   */
  function RestoreStep(s: State): (o: Outcome)
    ensures o.state.storage == s.storage && o.state.location == s.location
    ensures o.thrown.None? <==> !(UserKey in s.storage && s.storage[UserKey].Malformed? && s.storage[UserKey].text != "")
    ensures o.thrown.Some? ==> o.state == s
    ensures o.thrown.None? ==> !o.state.isLoading
    ensures o.thrown.None? && StoredUser(s.storage).Some? ==> o.state.user == StoredUser(s.storage)
    ensures StoredUser(s.storage).None? ==> o.state.user == s.user
  {
    if UserKey in s.storage && Truthy(s.storage[UserKey]) then
      match s.storage[UserKey]
      case Encoded(u) => Outcome(s.(user := Some(u), isLoading := false), None)
      case Malformed(text) => Outcome(s, Some(SyntaxError(text)))
    else
      Outcome(s.(isLoading := false), None)
  }

  /**
   * `login`: on an OK response with a parsed body, set the user, store it and
   * go to the dashboard; on any other status throw "Login failed"; any error
   * on the way (a rejected `fetch`, a body that is not JSON) is re-thrown.
   */
  function LoginStep(s: State, reply: LoginReply): (o: Outcome)
    ensures o.thrown.None? <==> reply.Answered? && IsOk(reply.status) && reply.data.Success?
    ensures o.thrown.Some? ==> o.state == s
    ensures reply.Answered? && !IsOk(reply.status) ==> o.thrown == Some(LoginFailed)
    ensures reply.Unreachable? ==> o.thrown == Some(reply.error)
    ensures reply.Answered? && IsOk(reply.status) && reply.data.Failure? ==> o.thrown == Some(reply.data.error)
    ensures o.thrown.None? ==>
      && o.state.user == Some(reply.data.value)
      && StoredUser(o.state.storage) == Some(reply.data.value)
      && o.state.location == DashboardPath
      && o.state.isLoading == s.isLoading
    ensures forall k :: k != UserKey ==> (k in o.state.storage <==> k in s.storage)
    ensures forall k :: k != UserKey && k in s.storage ==> o.state.storage[k] == s.storage[k]
  {
    match reply
    case Unreachable(e) => Outcome(s, Some(e))
    case Answered(status, data) =>
      if IsOk(status) then
        match data
        case Failure(e) => Outcome(s, Some(e))
        case Success(u) =>
          Outcome(s.(user := Some(u), storage := s.storage[UserKey := Encoded(u)], location := DashboardPath), None)
      else
        Outcome(s, Some(LoginFailed))
  }

  /** `logout`: drop `"user"` from storage, forget the user and go to the login page; never throws. */
  function LogoutStep(s: State): (o: Outcome)
    ensures o.thrown == None
    ensures o.state.user == None && UserKey !in o.state.storage && o.state.location == LoginPath
    ensures o.state.isLoading == s.isLoading
    ensures forall k :: k != UserKey ==> (k in o.state.storage <==> k in s.storage)
    ensures forall k :: k != UserKey && k in s.storage ==> o.state.storage[k] == s.storage[k]
  {
    Outcome(s.(user := None, storage := s.storage - {UserKey}, location := LoginPath), None)
  }

  function Step(s: State, op: Op): Outcome
  {
    match op
    case Restore => RestoreStep(s)
    case Login(reply) => LoginStep(s, reply)
    case Logout => LogoutStep(s)
  }

  /** The state after a sequence of operations, whether or not each one threw. */
  function Run(s: State, ops: seq<Op>): State
    decreases |ops|
  {
    if ops == [] then s else Run(Step(s, ops[0]).state, ops[1..])
  }

  lemma InitialSatisfiesInvariant(storage: Storage, location: string)
    ensures Invariant(Initial(storage, location))
  {
  }

  lemma StepPreservesInvariant(s: State, op: Op)
    requires Invariant(s)
    ensures Invariant(Step(s, op).state)
  {
  }

  /** No sequence of restores, logins and logouts lets memory and storage diverge. */
  lemma {:induction false} RunPreservesInvariant(s: State, ops: seq<Op>)
    requires Invariant(s)
    ensures Invariant(Run(s, ops))
    decreases |ops|
  {
    if ops != [] {
      StepPreservesInvariant(s, ops[0]);
      RunPreservesInvariant(Step(s, ops[0]).state, ops[1..]);
    }
  }

  /** Once loading is over it never starts again. */
  lemma {:induction false} LoadingNeverResumes(s: State, ops: seq<Op>)
    requires !s.isLoading
    ensures !Run(s, ops).isLoading
    decreases |ops|
  {
    if ops != [] {
      LoadingNeverResumes(Step(s, ops[0]).state, ops[1..]);
    }
  }

  /** Once memory and storage agree, no restore, login or logout separates them. */
  lemma {:induction false} RunPreservesConsistency(s: State, ops: seq<Op>)
    requires Consistent(s)
    ensures Consistent(Run(s, ops))
    decreases |ops|
  {
    if ops != [] {
      assert Consistent(Step(s, ops[0]).state);
      RunPreservesConsistency(Step(s, ops[0]).state, ops[1..]);
    }
  }

  /**
   * From mount on, memory and storage agree, whether or not the mount
   * effect completes: a malformed entry decodes to no user, and none is held.
   */
  lemma MountedSessionStaysConsistent(storage: Storage, location: string, ops: seq<Op>)
    ensures Consistent(Run(Initial(storage, location), [Restore] + ops))
  {
    var s0 := Initial(storage, location);
    var s1 := Step(s0, Restore).state;
    assert Run(s0, [Restore] + ops) == Run(s1, ops) by {
      assert ([Restore] + ops)[0] == Restore;
      assert ([Restore] + ops)[1..] == ops;
    }
    assert Consistent(s1);
    RunPreservesConsistency(s1, ops);
  }

  /** Logging out twice leaves the same state as logging out once. */
  lemma LogoutIdempotent(s: State)
    ensures LogoutStep(LogoutStep(s).state).state == LogoutStep(s).state
  {
  }

  /**
   * A login that succeeds survives a restart: a fresh provider over the
   * same storage restores the very user that was signed in.
   */
  lemma LoginSurvivesReload(s: State, u: User, status: int, location: string)
    requires IsOk(status)
    ensures var after := LoginStep(s, Answered(status, Success(u))).state;
      RestoreStep(Initial(after.storage, location)).state.user == Some(u)
  {
  }

  /** A provider that mounts over empty storage ends up signed out and no longer loading. */
  lemma RestoreFromEmptyStorage(location: string)
    ensures RestoreStep(Initial(map[], location)) == Outcome(State(None, false, map[], location), None)
  {
  }

  /** The value the provider publishes through the context. */
  datatype ContextValue = ContextValue(user: Option<User>, isLoading: bool)

  /** `useAuth`: the context value, or an error when called outside any provider. */
  function UseAuth(context: Option<ContextValue>): (r: Result<ContextValue, Error>)
    ensures r.Failure? <==> context.None?
    ensures r.Failure? ==> r.error == OutsideProvider
    ensures context.Some? ==> r.Success? && r.value == context.value
  {
    match context
    case None => Failure(OutsideProvider)
    case Some(v) => Success(v)
  }

  /** The request `login` sends: a JSON POST of the credentials, with cookies. */
  function LoginRequest(apiUrl: string, email: string, password: string): (r: Request)
    ensures r.url == apiUrl + "/auth/login"
    ensures r.init.httpMethod == Some("POST") && r.init.credentials == Some(Include)
    ensures r.init.headers == Some(map[ContentType := JsonMediaType])
    ensures r.init.body == Some(JsonObject([("email", email), ("password", password)]))
  {
    Request(apiUrl + "/auth/login",
      RequestInit(Some("POST"), Some(map[ContentType := JsonMediaType]),
        Some(JsonObject([("email", email), ("password", password)])), Some(Include), None, None))
  }

  /**
   * One mounted `AuthProvider`.  `user` and `isLoading` are its React state,
   * `storage` is `localStorage` and `location` is the router's current path.
   */
  class AuthProvider {
    /** `NEXT_PUBLIC_API_URL`. */
    const apiUrl: string
    var user: Option<User>
    var isLoading: bool
    var storage: Storage
    var location: string

    function Snapshot(): State
      reads this
    {
      State(user, isLoading, storage, location)
    }

    /** What the provider hands to `useAuth` callers. */
    function Value(): ContextValue
      reads this
    {
      ContextValue(user, isLoading)
    }

    ghost predicate Valid()
      reads this
    {
      Invariant(Snapshot())
    }

    constructor (apiUrl: string, storage: Storage, location: string)
      ensures this.apiUrl == apiUrl
      ensures Snapshot() == Initial(storage, location)
      ensures Valid()
    {
      this.apiUrl := apiUrl;
      user := None;
      isLoading := true;
      this.storage := storage;
      this.location := location;
    }

    /** The mount effect; `thrown` is the `SyntaxError` of an unparsable entry. */
    method RestoreStoredUser() returns (thrown: Option<Error>)
      requires Valid()
      modifies this
      ensures Valid()
      ensures Outcome(Snapshot(), thrown) == Step(old(Snapshot()), Restore)
    {
      thrown := None;
      if UserKey in storage && Truthy(storage[UserKey]) {
        match storage[UserKey]
        case Malformed(text) =>
          thrown := Some(SyntaxError(text));
          return;
        case Encoded(u) =>
          user := Some(u);
      }
      isLoading := false;
    }

    method Login(email: string, password: string, reply: LoginReply) returns (sent: Request, thrown: Option<Error>)
      requires Valid()
      modifies this
      ensures Valid()
      ensures sent == LoginRequest(apiUrl, email, password)
      ensures Outcome(Snapshot(), thrown) == Step(old(Snapshot()), Op.Login(reply))
    {
      sent := LoginRequest(apiUrl, email, password);
      thrown := None;
      match reply
      case Unreachable(e) =>
        thrown := Some(e);
      case Answered(status, data) =>
        if IsOk(status) {
          match data
          case Failure(e) =>
            thrown := Some(e);
          case Success(u) =>
            user := Some(u);
            storage := storage[UserKey := Encoded(u)];
            location := DashboardPath;
        } else {
          thrown := Some(LoginFailed);
        }
    }

    method Logout()
      requires Valid()
      modifies this
      ensures Valid()
      ensures Outcome(Snapshot(), None) == Step(old(Snapshot()), Op.Logout)
    {
      storage := storage - {UserKey};
      user := None;
      location := LoginPath;
    }
  }
}
