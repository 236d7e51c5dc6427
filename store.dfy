/**
 * The account and saved-page store of the drawing server, as values.
 *
 * The server keeps two in-memory tables (a password per username, and per
 * username a map from page identifier to page data) and, per client, a
 * session that may name a username. Each request handler is a function
 * from the tables and the session before the request to those after it and
 * the response.
 */
module Store {
  import opened Wrappers
  import opened PageIds

  /** The opaque drawing data a client saves (the canvas image it posts). */
  type Payload = string

  /** The fields of a submitted login or signup form. */
  type Form = map<string, string>

  /**
   * The JSON value posted to the save route: an object with its fields, or
   * any other JSON value (an array, a string, a number, a boolean or null).
   */
  datatype Body = JsonObject(fields: map<string, Payload>) | OtherJson

  /** The body is an object with a "data" field, so `request.json['data']` succeeds. */
  predicate HasData(body: Body) {
    body.JsonObject? && "data" in body.fields
  }

  /** One user's saved pages, by page identifier. */
  type Pages = map<string, Payload>

  datatype Tables = Tables(
    users: map<string, string>,      // username to password
    drawings: map<string, Pages>,    // username to that user's pages
    session: Option<string>)         // the username the client's session names

  datatype HttpMethod = Get | Post

  /** What a handler answers, down to the tag that tells the client what happened. */
  datatype Response =
    | Redirect(location: string)   // a redirect to "/" or "/login"
    | AuthPage                     // the login/signup page, rendered again
    | DrawingPage                  // the drawing page
    | PageSaved(pageId: string)    // {"page_id": ...}
    | PageData(data: Payload)      // {"data": ...}
    | Unauthorized                 // 401: no username in the session
    | NotFound                     // 404: no such page for this user
    | BadRequest                   // 400: a login or signup form field is missing
    | ServerError                  // 500: an uncaught KeyError or TypeError in the save handler

  datatype Outcome = Outcome(state: Tables, response: Response)

  /** The tables when the process starts, with the session a client brings along. */
  function Initial(cookie: Option<string>): Tables {
    Tables(map[], map[], cookie)
  }

  /** Every registered user has a page table and every page table belongs to a user. */
  predicate Valid(t: Tables) {
    t.users.Keys == t.drawings.Keys
  }

  /** The session, if bound, names a registered user. */
  predicate SessionRegistered(t: Tables) {
    t.session.Some? ==> t.session.value in t.users
  }

  /** The stored password of `u` is exactly `p`. */
  predicate Authenticates(t: Tables, u: string, p: string) {
    u in t.users && t.users[u] == p
  }

  predicate HasCredentials(form: Form) {
    "username" in form && "password" in form
  }

  /** The `/` route: the drawing page for a bound session, else a redirect to the login page. */
  function Index(t: Tables): (r: Response)
    ensures r == DrawingPage <==> t.session.Some?
    ensures r != DrawingPage ==> r == Redirect("/login")
  {
    if t.session.None? then Redirect("/login") else DrawingPage
  }

  /** The `/login` route. */
  function Login(t: Tables, m: HttpMethod, form: Form): (o: Outcome)
    ensures o.state.users == t.users && o.state.drawings == t.drawings
    ensures o.response == BadRequest <==> m.Post? && !HasCredentials(form)
    ensures o.response == Redirect("/") <==>
              m.Post? && HasCredentials(form) && Authenticates(t, form["username"], form["password"])
    ensures o.response == Redirect("/") ==> o.state.session == Some(form["username"])
    ensures o.response != Redirect("/") ==> o.state == t && (o.response == AuthPage || o.response == BadRequest)
  {
    if m.Get? then Outcome(t, AuthPage)
    else if !HasCredentials(form) then Outcome(t, BadRequest)
    else
      var username, password := form["username"], form["password"];
      if username in t.users && t.users[username] == password then
        Outcome(t.(session := Some(username)), Redirect("/"))
      else
        Outcome(t, AuthPage)
  }

  /** The `/signup` route. */
  function Signup(t: Tables, m: HttpMethod, form: Form): (o: Outcome)
    ensures o.response == BadRequest <==> m.Post? && !HasCredentials(form)
    ensures o.response == Redirect("/") <==>
              m.Post? && HasCredentials(form) && form["username"] !in t.users
    ensures o.response != Redirect("/") ==> o.state == t && (o.response == AuthPage || o.response == BadRequest)
    ensures o.response == Redirect("/") ==>
              var u, p := form["username"], form["password"];
              && o.state.users.Keys == t.users.Keys + {u}
              && o.state.drawings.Keys == t.drawings.Keys + {u}
              && Authenticates(o.state, u, p)
              && o.state.drawings[u] == map[]
              && o.state.session == Some(u)
              && (forall v :: v in t.users ==> o.state.users[v] == t.users[v])
              && (forall v :: v in t.drawings && v != u ==> o.state.drawings[v] == t.drawings[v])
  {
    if m.Get? then Outcome(t, AuthPage)
    else if !HasCredentials(form) then Outcome(t, BadRequest)
    else
      var username, password := form["username"], form["password"];
      if username in t.users then Outcome(t, AuthPage)
      else
        Outcome(Tables(t.users[username := password], t.drawings[username := map[]], Some(username)),
                Redirect("/"))
  }

  /** The `/logout` route: the whole session is cleared. */
  function Logout(t: Tables): (o: Outcome)
    ensures o.state.session.None?
    ensures o.state.users == t.users && o.state.drawings == t.drawings
    ensures o.response == Redirect("/login")
  {
    Outcome(t.(session := None), Redirect("/login"))
  }

  /** The `/save` route, with the UUID that the server would draw at random. */
  function Save(t: Tables, body: Body, uuid: Uuid): (o: Outcome)
    ensures t.session.None? ==> o == Outcome(t, Unauthorized)
    ensures t.session.Some? && !HasData(body) ==> o == Outcome(t, ServerError)
    ensures t.session.Some? && HasData(body) && t.session.value !in t.drawings ==> o == Outcome(t, ServerError)
    ensures o.response.PageSaved? <==> t.session.Some? && HasData(body) && t.session.value in t.drawings
    ensures !o.response.PageSaved? ==> o.state == t
    ensures o.response.PageSaved? ==>
              var u, id := t.session.value, o.response.pageId;
              && id == PageIdOf(uuid) && IsPageId(id)
              && o.state.users == t.users && o.state.session == t.session
              && o.state.drawings.Keys == t.drawings.Keys
              && o.state.drawings[u].Keys == t.drawings[u].Keys + {id}
              && o.state.drawings[u][id] == body.fields["data"]
              && (forall k :: k in t.drawings[u] && k != id ==> o.state.drawings[u][k] == t.drawings[u][k])
              && (forall v :: v in t.drawings && v != u ==> o.state.drawings[v] == t.drawings[v])
  {
    if t.session.None? then Outcome(t, Unauthorized)
    else if !HasData(body) then Outcome(t, ServerError)
    else
      var data, pageId, owner := body.fields["data"], PageIdOf(uuid), t.session.value;
      if owner !in t.drawings then Outcome(t, ServerError)
      else Outcome(t.(drawings := t.drawings[owner := t.drawings[owner][pageId := data]]), PageSaved(pageId))
  }

  /** The pages the session's user owns; none for an unknown user, as `dict.get(.., {})` gives. */
  function OwnPages(t: Tables): Pages
    requires t.session.Some?
  {
    if t.session.value in t.drawings then t.drawings[t.session.value] else map[]
  }

  /** The `/load/<page_id>` route. It changes nothing. */
  function Load(t: Tables, pageId: string): (r: Response)
    ensures t.session.None? <==> r == Unauthorized
    ensures r.PageData? <==>
              t.session.Some? && t.session.value in t.drawings && pageId in t.drawings[t.session.value]
    ensures r.PageData? ==> r.data == t.drawings[t.session.value][pageId]
    ensures r == Unauthorized || r == NotFound || r.PageData?
  {
    if t.session.None? then Unauthorized
    else
      var pages := OwnPages(t);
      if pageId in pages then PageData(pages[pageId]) else NotFound
  }

  /** A request to one of the routes, with the random UUID a save would use. */
  datatype Request =
    | IndexRequest
    | LoginRequest(loginMethod: HttpMethod, loginForm: Form)
    | SignupRequest(signupMethod: HttpMethod, signupForm: Form)
    | LogoutRequest
    | SaveRequest(body: Body, uuid: Uuid)
    | LoadRequest(pageId: string)

  function Step(t: Tables, req: Request): Outcome {
    match req
    case IndexRequest => Outcome(t, Index(t))
    case LoginRequest(m, form) => Login(t, m, form)
    case SignupRequest(m, form) => Signup(t, m, form)
    case LogoutRequest => Logout(t)
    case SaveRequest(body, uuid) => Save(t, body, uuid)
    case LoadRequest(id) => Outcome(t, Load(t, id))
  }

  /** The tables and session after a client's requests, handled one after another. */
  function Run(t: Tables, reqs: seq<Request>): Tables
    decreases |reqs|
  {
    if reqs == [] then t else Run(Step(t, reqs[0]).state, reqs[1..])
  }

  // ----- One request -----

  lemma StepPreservesValid(t: Tables, req: Request)
    requires Valid(t)
    ensures Valid(Step(t, req).state)
  {
  }

  lemma StepPreservesSessionRegistered(t: Tables, req: Request)
    requires SessionRegistered(t)
    ensures SessionRegistered(Step(t, req).state)
  {
  }

  /** Wrong password and unknown user cannot be told apart: same page, nothing changes. */
  lemma LoginFailureIndistinguishable(t: Tables, form: Form)
    requires HasCredentials(form) && !Authenticates(t, form["username"], form["password"])
    ensures Login(t, Post, form) == Outcome(t, AuthPage)
  {
  }

  /** A registered user's credentials work right after signup and after a logout. */
  lemma SignupThenLogin(t: Tables, form: Form)
    requires HasCredentials(form) && form["username"] !in t.users
    ensures var s := Logout(Signup(t, Post, form).state).state;
            Login(s, Post, form) == Outcome(s.(session := Some(form["username"])), Redirect("/"))
  {
  }

  /** Signing up under a taken name changes nothing, whatever password is given. */
  lemma SignupTakenNameChangesNothing(t: Tables, form: Form)
    requires HasCredentials(form) && form["username"] in t.users
    ensures Signup(t, Post, form) == Outcome(t, AuthPage)
  {
  }

  lemma LogoutIdempotent(t: Tables)
    ensures Logout(Logout(t).state) == Logout(t)
  {
  }

  /** Round trip: a page saved by the session's user loads back as saved. */
  lemma SaveThenLoad(t: Tables, body: Body, uuid: Uuid)
    requires t.session.Some? && t.session.value in t.drawings && HasData(body)
    ensures Save(t, body, uuid).response == PageSaved(PageIdOf(uuid))
    ensures Load(Save(t, body, uuid).state, PageIdOf(uuid)) == PageData(body.fields["data"])
  {
  }

  /** No collision check: a later save under the same identifier replaces the page. */
  lemma SaveOverwrites(t: Tables, first: Body, second: Body, uuid: Uuid)
    requires t.session.Some? && t.session.value in t.drawings && HasData(first) && HasData(second)
    ensures var s := Save(Save(t, first, uuid).state, second, uuid).state;
            Load(s, PageIdOf(uuid)) == PageData(second.fields["data"])
  {
  }

  /**
   * What a load answers depends only on the session and the session user's own
   * pages: other users' pages, even under the same identifier, are invisible.
   */
  lemma LoadSeesOnlyOwnPages(t1: Tables, t2: Tables, pageId: string)
    requires t1.session == t2.session
    requires t1.session.Some? ==> OwnPages(t1) == OwnPages(t2)
    ensures Load(t1, pageId) == Load(t2, pageId)
  {
  }

  /** A new account starts with no pages, whatever identifiers other users hold. */
  lemma NewUserHasNoPages(t: Tables, form: Form, pageId: string)
    requires HasCredentials(form) && form["username"] !in t.users
    ensures Load(Signup(t, Post, form).state, pageId) == NotFound
  {
  }

  /**
   * A save by one user never changes what a load by any other user answers,
   * even under the same identifier.
   */
  lemma ForeignSaveInvisible(t: Tables, body: Body, uuid: Uuid, other: string, pageId: string)
    requires t.session.Some? && t.session.value != other
    ensures Load(Save(t, body, uuid).state.(session := Some(other)), pageId) == Load(t.(session := Some(other)), pageId)
  {
  }

  // ----- Sequences of requests -----

  lemma {:induction false} RunPreservesValid(t: Tables, reqs: seq<Request>)
    requires Valid(t)
    ensures Valid(Run(t, reqs))
    decreases |reqs|
  {
    if reqs != [] {
      StepPreservesValid(t, reqs[0]);
      RunPreservesValid(Step(t, reqs[0]).state, reqs[1..]);
    }
  }

  lemma {:induction false} RunPreservesSessionRegistered(t: Tables, reqs: seq<Request>)
    requires SessionRegistered(t)
    ensures SessionRegistered(Run(t, reqs))
    decreases |reqs|
  {
    if reqs != [] {
      StepPreservesSessionRegistered(t, reqs[0]);
      RunPreservesSessionRegistered(Step(t, reqs[0]).state, reqs[1..]);
    }
  }

  /** From a fresh start, both invariants hold after any requests. */
  lemma ReachableIsValid(reqs: seq<Request>)
    ensures Valid(Run(Initial(None), reqs)) && SessionRegistered(Run(Initial(None), reqs))
  {
    RunPreservesValid(Initial(None), reqs);
    RunPreservesSessionRegistered(Initial(None), reqs);
  }

  /** Accounts are never removed and passwords never change. */
  lemma {:induction false} RunKeepsAccounts(t: Tables, reqs: seq<Request>, u: string)
    requires u in t.users
    ensures u in Run(t, reqs).users && Run(t, reqs).users[u] == t.users[u]
    decreases |reqs|
  {
    if reqs != [] {
      RunKeepsAccounts(Step(t, reqs[0]).state, reqs[1..], u);
    }
  }

  /** Saved pages are never removed (a save may replace one's data). */
  lemma {:induction false} RunKeepsPages(t: Tables, reqs: seq<Request>, u: string, pageId: string)
    requires Valid(t)
    requires u in t.drawings && pageId in t.drawings[u]
    ensures u in Run(t, reqs).drawings && pageId in Run(t, reqs).drawings[u]
    decreases |reqs|
  {
    if reqs != [] {
      StepPreservesValid(t, reqs[0]);
      RunKeepsPages(Step(t, reqs[0]).state, reqs[1..], u, pageId);
    }
  }

  /** None of the requests is a save whose identifier would be `pageId`. */
  predicate NoSaveUnder(reqs: seq<Request>, pageId: string) {
    forall i :: 0 <= i < |reqs| && reqs[i].SaveRequest? ==> PageIdOf(reqs[i].uuid) != pageId
  }

  /** A saved page keeps its data until a save under the same identifier. */
  lemma {:induction false} RunKeepsPageData(t: Tables, reqs: seq<Request>, u: string, pageId: string)
    requires Valid(t)
    requires u in t.drawings && pageId in t.drawings[u]
    requires NoSaveUnder(reqs, pageId)
    ensures u in Run(t, reqs).drawings && pageId in Run(t, reqs).drawings[u]
    ensures Run(t, reqs).drawings[u][pageId] == t.drawings[u][pageId]
    decreases |reqs|
  {
    if reqs != [] {
      assert NoSaveUnder(reqs[1..], pageId) by {
        forall i | 0 <= i < |reqs[1..]| && reqs[1..][i].SaveRequest?
          ensures PageIdOf(reqs[1..][i].uuid) != pageId
        {
          assert reqs[1..][i] == reqs[i + 1];
        }
      }
      StepPreservesValid(t, reqs[0]);
      RunKeepsPageData(Step(t, reqs[0]).state, reqs[1..], u, pageId);
    }
  }

  /**
   * Round trip over time: after `u` saves a page, `u` can load it back,
   * after any further requests that do not save under that identifier and
   * end with `u`'s session bound.
   */
  lemma SavedPageSurvives(t: Tables, body: Body, uuid: Uuid, reqs: seq<Request>)
    requires Valid(t)
    requires t.session.Some? && t.session.value in t.drawings && HasData(body)
    requires NoSaveUnder(reqs, PageIdOf(uuid))
    requires Run(Save(t, body, uuid).state, reqs).session == t.session
    ensures Load(Run(Save(t, body, uuid).state, reqs), PageIdOf(uuid)) == PageData(body.fields["data"])
  {
    StepPreservesValid(t, SaveRequest(body, uuid));
    RunKeepsPageData(Save(t, body, uuid).state, reqs, t.session.value, PageIdOf(uuid));
  }

  // ----- The scenario of two users on one client -----

  /** The random UUID of alice's save; its identifier is "a1b2c3d4". */
  const ScenarioUuid: Uuid := [0xa1, 0xb2, 0xc3, 0xd4, 0, 0, 0x40, 0, 0x80, 0, 0, 0, 0, 0, 0, 0]
  const AliceForm: Form := map["username" := "alice", "password" := "pw1"]
  const BobForm: Form := map["username" := "bob", "password" := "pw2"]

  lemma ScenarioPageId()
    ensures PageIdOf(ScenarioUuid) == "a1b2c3d4"
  {
    var uuid := ScenarioUuid;
    assert HexOf(uuid[..4]) == "a1b2c3d4" by {
      assert uuid[..4] == [0xa1, 0xb2, 0xc3, 0xd4];
      assert HexOf([0xd4]) == "d4";
      assert HexOf([0xc3, 0xd4]) == "c3d4";
      assert HexOf([0xb2, 0xc3, 0xd4]) == "b2c3d4";
    }
  }

  lemma AliceSignsUp()
    ensures Signup(Initial(None), Post, AliceForm).state == Tables(map["alice" := "pw1"], map["alice" := map[]], Some("alice"))
  {
    assert HasCredentials(AliceForm) && AliceForm["username"] == "alice";
  }

  /**
   * alice signs up and saves "IMG1", receiving "a1b2c3d4"; she loads it back;
   * bob, signed up on the same client after a logout, gets NotFound for it.
   */
  lemma TwoUsersScenario()
    ensures var saved := Save(Signup(Initial(None), Post, AliceForm).state, JsonObject(map["data" := "IMG1"]), ScenarioUuid);
            && saved.response == PageSaved("a1b2c3d4")
            && Load(saved.state, "a1b2c3d4") == PageData("IMG1")
            && Load(Signup(Logout(saved.state).state, Post, BobForm).state, "a1b2c3d4") == NotFound
  {
    ScenarioPageId();
    AliceSignsUp();
    var s1 := Signup(Initial(None), Post, AliceForm).state;
    var body := JsonObject(map["data" := "IMG1"]);
    SaveThenLoad(s1, body, ScenarioUuid);
    var out := Logout(Save(s1, body, ScenarioUuid).state).state;
    assert out.users == map["alice" := "pw1"];
    assert HasCredentials(BobForm) && BobForm["username"] == "bob" && "bob" !in out.users;
    NewUserHasNoPages(out, BobForm, "a1b2c3d4");
  }
}
