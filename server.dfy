/**
 * The server's state as the running process holds it: two module-level
 * dictionaries that the handlers update in place, and the client's session.
 * Each handler is a method, proved to do what the matching function of
 * module Store describes.
 */
module Server {
  import opened Wrappers
  import opened PageIds
  import opened Store

  class App {
    var users: map<string, string>               // username to password
    var userDrawings: map<string, Pages>         // username to page id to data
    var session: Option<string>                  // the session's "username" entry

    /** The abstract value of the server and its client's session. */
    function State(): Tables
      reads this
    {
      Tables(users, userDrawings, session)
    }

    /** The object invariant: the two tables have the same usernames. */
    predicate Valid()
      reads this
    {
      users.Keys == userDrawings.Keys
    }

    /**
     * A freshly started process: both tables empty. The session is the one the
     * client's cookie carries, which may name a user of an earlier process.
     */
    constructor (cookie: Option<string>)
      ensures Valid()
      ensures State() == Initial(cookie)
    {
      users := map[];
      userDrawings := map[];
      session := cookie;
    }

    method Index() returns (r: Response)
      ensures r == DrawingPage <==> session.Some?
      ensures r == Store.Index(State())
    {
      if session.None? {
        return Redirect("/login");
      }
      r := DrawingPage;
    }

    method Login(m: HttpMethod, form: Form) returns (r: Response)
      requires Valid()
      modifies this
      ensures Valid()
      ensures Outcome(State(), r) == Store.Login(old(State()), m, form)
    {
      if m.Get? {
        return AuthPage;
      }
      if "username" !in form || "password" !in form {
        return BadRequest;
      }
      var username := form["username"];
      var password := form["password"];
      if username in users && users[username] == password {
        session := Some(username);
        return Redirect("/");
      }
      r := AuthPage;
    }

    method Signup(m: HttpMethod, form: Form) returns (r: Response)
      requires Valid()
      modifies this
      ensures Valid()
      ensures Outcome(State(), r) == Store.Signup(old(State()), m, form)
    {
      if m.Get? {
        return AuthPage;
      }
      if "username" !in form || "password" !in form {
        return BadRequest;
      }
      var username := form["username"];
      var password := form["password"];
      if username in users {
        return AuthPage;
      }
      users := users[username := password];
      userDrawings := userDrawings[username := map[]];
      session := Some(username);
      r := Redirect("/");
    }

    method Logout() returns (r: Response)
      requires Valid()
      modifies this
      ensures Valid()
      ensures Outcome(State(), r) == Store.Logout(old(State()))
    {
      session := None;
      r := Redirect("/login");
    }

    /** `uuid` stands for the value of `uuid.uuid4()` that the server draws. */
    method Save(body: Body, uuid: Uuid) returns (r: Response)
      requires Valid()
      modifies this
      ensures Valid()
      ensures Outcome(State(), r) == Store.Save(old(State()), body, uuid)
    {
      if session.None? {
        return Unauthorized;
      }
      if !body.JsonObject? || "data" !in body.fields {
        return ServerError;
      }
      var data := body.fields["data"];
      var pageId := PageIdOf(uuid);
      var owner := session.value;
      if owner !in userDrawings {
        return ServerError;
      }
      userDrawings := userDrawings[owner := userDrawings[owner][pageId := data]];
      r := PageSaved(pageId);
    }

    method Load(pageId: string) returns (r: Response)
      ensures session.None? <==> r == Unauthorized
      ensures r.PageData? <==> session.Some? && session.value in userDrawings && pageId in userDrawings[session.value]
      ensures r.PageData? ==> r.data == userDrawings[session.value][pageId]
      ensures r == Store.Load(State(), pageId)
    {
      if session.None? {
        return Unauthorized;
      }
      var drawings := if session.value in userDrawings then userDrawings[session.value] else map[];
      if pageId in drawings {
        return PageData(drawings[pageId]);
      }
      r := NotFound;
    }
  }

  /**
   * A client session against one object: sign up, save, load back; after a
   * logout the save is refused. Only the methods' contracts are used.
   */
  method SaveAndReload(app: App, form: Form, body: Body, uuid: Uuid)
    returns (signedUp: Response, saved: Response, loaded: Response, refused: Response)
    requires app.Valid() && HasCredentials(form) && form["username"] !in app.users && HasData(body)
    modifies app
    ensures app.Valid()
    ensures signedUp == Redirect("/")
    ensures saved == PageSaved(PageIdOf(uuid))
    ensures loaded == PageData(body.fields["data"])
    ensures refused == Unauthorized
  {
    signedUp := app.Signup(Post, form);
    saved := app.Save(body, uuid);
    loaded := app.Load(PageIdOf(uuid));
    var loggedOut := app.Logout();
    refused := app.Save(body, uuid);
  }
}
