# Account and saved-page store of the Wireless Writing Pad server

The Flask server in `server.py` keeps two in-memory tables:
- `users`: a password per username.
- `user_drawings`: per username, a map from page id to page data.

Each browser client also has a session that may name the user it is logged in as. Six routes read or change this state:
- `/` shows the drawing page to a logged-in client. Otherwise it redirects to `/login`.
- `/login` binds the session when the password matches exactly.
- `/signup` registers a new username with an empty page table and binds the session. It refuses a name that is taken.
- `/logout` clears the session.
- `/save` stores the posted data under the first eight characters of a random UUID.
- `/load/<page_id>` returns a page from the caller's own table.

This project models that state machine in Dafny in four modules:
- `Wrappers`: the optional session value.
- `PageIds`: the text form of a UUID (section 3 of RFC 4122) and the eight-digit page id cut from it. It has a hex encode/decode round trip, and a proof that every eight-digit lower-case hex string is the page id of some UUID.
- `Store`: each handler as a function from the tables and session before a request to those after it, plus the response. `Step` and `Run` apply a request or a sequence of requests. Lemmas state what the handlers promise: the invariants kept, save/load round trips, owner scoping, and that nothing is removed.
- `Server`: the class `App`. Its fields are the two maps and the session. It has one method per route, mutating the maps in place as the server does. Each method is proved equal to its `Store` function, and the read-only routes also state their result directly.

Behaviour of the code that the model keeps as written:
- There is no collision check on save. Line 513 simply assigns, so a second save under the same id replaces the first page (`Store.SaveOverwrites`). Nothing regenerates an id that is already in use.
- A failed login or signup re-renders the login/signup page; there is no separate error value. Both login failures (unknown user, wrong password) give the same page and change nothing (`Store.LoginFailureIndistinguishable`).
- A login or signup form without a `username` or `password` field gets Flask's 400 response (`BadRequest`): `request.form[...]` raises werkzeug's bad-request key error (lines 479-480, 491-492).
- A `/save` body without a `data` field ends in a server error (`ServerError`, 500). `request.json` at line 511 is a plain Python value. Indexing a JSON object that has no `data` key raises a built-in `KeyError`. Indexing any other JSON value raises a `TypeError`. The server has no error handler for either.
- `/save` indexes `user_drawings` with the session's username directly (line 513). A session that names a user absent from the table also ends in a server error. This can happen with a signed cookie from an earlier run of the process, because the secret key at line 7 is fixed. `/load` uses `.get(..., {})` and answers `NotFound` instead. The constructor takes the client's cookie for that reason. From a start with no session, the invariant `SessionRegistered` holds after every request (`Store.ReachableIsValid`), so this error cannot occur there.

## Model

| member | source | states |
|---|---|---|
| PageIds.HexDigit | server.py:512 | each nibble becomes a lower-case hex digit |
| PageIds.HexValue | server.py:512 | a hex digit reads back as a nibble below 16 |
| PageIds.HexDigitValue | server.py:512 | reading back a digit gives the nibble it was made from |
| PageIds.HexValueDigit | server.py:512 | writing a read digit gives the same character |
| PageIds.HexOf | server.py:512 | bytes become twice as many hex digits, all from the lower-case alphabet |
| PageIds.ParseHex | server.py:512 | a string of hex digit pairs reads back as half as many bytes |
| PageIds.ParseHexOf | server.py:512 | decoding the hex text of bytes gives those bytes back |
| PageIds.HexOfParse | server.py:512 | encoding decoded hex text gives the text back |
| PageIds.UuidString | server.py:512 | `str(uuid)` is 36 characters, with hyphens exactly at positions 8, 13, 18 and 23, and hex digits of the first four bytes before the first hyphen |
| PageIds.PageIdOf | server.py:512 | `str(uuid)[:8]` is eight lower-case hex digits and encodes exactly the UUID's first four bytes |
| PageIds.EveryPageIdIsReachable | server.py:512 | every eight-digit hex id is the prefix of some UUID, so the ids a save can produce are exactly the 8-hex-digit strings |
| Store.Index | server.py:470-474 | the drawing page is shown if and only if a session is bound; otherwise a redirect to `/login` |
| Store.Login | server.py:476-485 | the tables never change; a POST with both fields redirects to `/` if and only if the stored password of that username is exactly the given one, and then binds the session to it; otherwise nothing changes, including an existing binding; a missing field gives 400; GET renders the page |
| Store.Signup | server.py:488-499 | succeeds if and only if POSTed with both fields and an unregistered username; it then stores the password exactly, adds an empty page table, binds the session and keeps every other user's password and pages; a taken name, a GET or a missing field changes nothing |
| Store.Logout | server.py:502-505 | the session is unbound, both tables are unchanged, and the client is sent to `/login` |
| Store.Save | server.py:507-514 | no session: 401, no change; a body that is not an object with a `data` field: 500, no change; session user without a page table: 500, no change; otherwise returns the 8-hex-digit id of the UUID and sets exactly that entry of the session user's table (overwriting any earlier one), leaving all other entries, other users' tables, `users` and the session unchanged |
| Store.Load | server.py:516-523 | 401 exactly when no session is bound; the page data exactly when the id is in the session user's own table, and then the stored data; otherwise 404 |
| Store.StepPreservesValid | server.py:495-496 | every request keeps the username sets of the two tables equal |
| Store.StepPreservesSessionRegistered | server.py:482 | every request keeps a bound session naming a registered user |
| Store.LoginFailureIndistinguishable | server.py:481-484 | an unknown username and a wrong password give the same page and the same unchanged state |
| Store.SignupThenLogin | server.py:481-498 | after a successful signup and a logout, logging in with the same credentials succeeds and binds the session |
| Store.SignupTakenNameChangesNothing | server.py:493-494 | a signup under a registered name changes neither table nor the session |
| Store.LogoutIdempotent | server.py:502-505 | logging out twice is the same as logging out once |
| Store.SaveThenLoad | server.py:507-523 | after a successful save, loading the returned id gives the saved data |
| Store.SaveOverwrites | server.py:513 | of two saves under one id, the later data is what loads |
| Store.NewUserHasNoPages | server.py:496 | a newly signed-up user's load of any id is 404, whatever ids other users hold |
| Store.LoadSeesOnlyOwnPages | server.py:516-523 | a load's answer depends only on the session and that user's own pages |
| Store.ForeignSaveInvisible | server.py:511-523 | a save by one user never changes what a load by any other user answers, even under the same id |
| Store.RunPreservesValid | server.py:488-523 | any sequence of requests keeps the username sets of the two tables equal |
| Store.RunPreservesSessionRegistered | server.py:476-505 | any sequence of requests keeps the session naming a registered user |
| Store.ReachableIsValid | server.py:12-13 | from empty tables and no session, both invariants hold after any requests |
| Store.RunKeepsAccounts | server.py:493-495 | accounts are never removed and their passwords never change |
| Store.RunKeepsPages | server.py:513 | saved pages are never removed |
| Store.RunKeepsPageData | server.py:511-513 | a page keeps its data through any requests that save under no equal id |
| Store.SavedPageSurvives | server.py:507-523 | a saved page loads back after any later requests that do not save under its id, while the same user's session is bound |
| Store.ScenarioPageId | server.py:512 | the UUID a1b2c3d4-0000-4000-8000-000000000000 gives page id "a1b2c3d4" |
| Store.AliceSignsUp | server.py:488-499 | signing up "alice" on a fresh server gives exactly one account, an empty page table and her session |
| Store.TwoUsersScenario | server.py:488-523 | alice saves "IMG1" as "a1b2c3d4" and loads it back; bob, signed up after her logout, gets 404 for that id |
| Server.App.constructor | server.py:12-13 | a new process starts with both tables empty and the client's cookie as its session |
| Server.App.Index | server.py:470-474 | shows the drawing page exactly when a session is bound, as `Store.Index` |
| Server.App.Login | server.py:476-485 | updates the fields in place exactly as `Store.Login` describes, keeping the tables' key sets equal |
| Server.App.Signup | server.py:488-499 | inserts into both dictionaries and binds the session exactly as `Store.Signup` describes, keeping the key sets equal |
| Server.App.Logout | server.py:502-505 | clears the session as `Store.Logout` describes |
| Server.App.Save | server.py:507-514 | assigns the page entry in place exactly as `Store.Save` describes |
| Server.App.Load | server.py:516-523 | changes nothing; 401 exactly without a session, the stored data exactly when the id is in the session user's own table, otherwise 404 |
| Server.SaveAndReload | server.py:488-523 | a client of the class alone: signup redirects to `/`, the save returns the UUID's page id, loading it returns the saved data, and after a logout a save is refused with 401 |

## Left out

- The HTML, CSS and JavaScript templates (server.py:15-265, 268-468), including the canvas painting and coordinate normalisation in the page script: user interface code.
- The Socket.IO handlers `handle_draw` and `handle_add_canvas` (server.py:525-531): they only call the library's broadcast `emit`, a network fan-out this model does not have. No ordering or exclusion-of-sender property is stated about them.
- The randomness of `uuid.uuid4()` (server.py:512): the UUID is an input to `Save`. Its version and variant bits are not modelled because they lie outside the eight characters used.
- Flask's session cookie, redirects, template rendering, JSON encoding and HTTP status lines: each response is modelled only as a tag (`Response`). Flask's router answers a request whose method the route does not accept before any handler runs; that is not modelled.
- Store.Save: `Body` covers only bodies that parse as JSON: an object (`JsonObject`) or any other JSON value (`OtherJson`). Flask refuses a body that is not JSON at all when line 511 reads `request.json`, after the session check; its status depends on the Flask version. The model does not represent that case, which fails at line 511 without changing state.
- Page data is any JSON value in the server. Here it is an opaque string (`Payload`), since the store never looks inside it.
- Several clients at once: the tables are shared by all clients but the model has one client's session. The server's request threads are not modelled.
- The startup call `socketio.run` (server.py:533-534) and the commented-out copy of the server (server.py:541-872).
- phone.py and laptop.py: GUI clients (PyQt5 painting and a Socket.IO client), which are I/O. They are not part of this model.
