/** The login controller: Facebook sign-in, the insert-or-update of the user's row keyed
    on email, the session write, and logout. */
module Controllers {
  import opened Php
  import opened Sessions
  import opened Libraries

  /** The session key holding the signed-in user's row. */
  const USER_KEY := "user_logged_in"

  /** A row of the `user` table, column by column. */
  type Row = map<string, Value>

  /** The application's global constants `DATE_TIME`, `STATUS_ACTIVE`, `USER_FOLDER_NAME`
      and the configured base URL, fixed for one request. */
  datatype Config = Config(dateTime: Value, statusActive: Value, userFolder: string, baseUrl: string)

  /** The HTTP response of a controller action: a redirect, or the framework's error page
      after an uncaught error. */
  datatype Response = Redirect(url: string) | Fault

  /** The state a controller action leaves behind. */
  datatype Outcome = Outcome(users: map<int, Row>, nextId: int, session: map<string, Value>, response: Response)

  /** What `logout` leaves behind: the request's session array, whether it destroyed the
      stored session, and the response. */
  datatype LoggedOut = LoggedOut(session: map<string, Value>, destroyed: bool, response: Response)

  /** The result of the insert-or-update: the table, the counter and the row's key. */
  datatype Upserted = Upserted(users: map<int, Row>, nextId: int, userId: int)

  /** `base_url(USER_FOLDER_NAME . '/dashboard')`. */
  function Dashboard(cfg: Config): string {
    cfg.baseUrl + cfg.userFolder + "/dashboard"
  }

  /** The table's invariants: keys start at 1 and stay below the auto-increment counter,
      and each row's `user_id` column holds its key. */
  predicate StoreValid(users: map<int, Row>, nextId: int) {
    && 1 <= nextId
    && (forall k :: k in users ==> 1 <= k < nextId)
    && (forall k :: k in users ==> Lookup(users[k], "user_id") == Int(k))
  }

  /** The row's `email` column (null when it has none). */
  function EmailOf(row: Row): Value {
    Lookup(row, "email")
  }

  /** `get('*', ['email' => $email])`: the keys in `[from, to)` of the rows whose email
      equals `email`, in increasing key order. */
  function Select(users: map<int, Row>, email: Value, from: int, to: int): (ids: seq<int>)
    decreases to - from
    ensures forall k :: k in ids <==> from <= k < to && k in users && EmailOf(users[k]) == email
    ensures forall i, j :: 0 <= i < j < |ids| ==> ids[i] < ids[j]
  {
    if from >= to then []
    else
      var rest := Select(users, email, from + 1, to);
      if from in users && EmailOf(users[from]) == email then
        assert forall j :: 0 <= j < |rest| ==> rest[j] in rest;
        [from] + rest
      else rest
  }

  /** `get('*', ['user_id' => $id])`: the row stored under `id`, if any (under `StoreValid`
      the key is the row's `user_id` column). */
  function Fetch(users: map<int, Row>, id: int): (rows: seq<Row>)
    ensures |rows| <= 1
    ensures rows != [] <==> id in users
    ensures rows != [] ==> rows[0] == users[id]
  {
    if id in users then [users[id]] else []
  }

  /** The row after `update($userData, ...)` with `updated_time` added: every written column
      takes its new value, every other column keeps its old one. */
  ghost predicate UpdatedRow(row: Row, data: Row, stamp: Value, row': Row) {
    && row'.Keys == row.Keys + data.Keys + {"updated_time"}
    && row'["updated_time"] == stamp
    && (forall c :: c in data && c != "updated_time" ==> row'[c] == data[c])
    && (forall c :: c in row && c !in data && c != "updated_time" ==> row'[c] == row[c])
  }

  /** The row `save($userData)` creates with `status`, `created_time` and its new key. */
  ghost predicate InsertedRow(data: Row, cfg: Config, id: int, row': Row) {
    && row'.Keys == data.Keys + {"status", "created_time", "user_id"}
    && row'["status"] == cfg.statusActive
    && row'["created_time"] == cfg.dateTime
    && row'["user_id"] == Int(id)
    && (forall c :: c in data && c != "status" && c != "created_time" && c != "user_id" ==> row'[c] == data[c])
  }

  /** `update($userData, ['user_id' => ...])` after `updated_time` was added to the data. */
  function Touched(row: Row, data: Row, stamp: Value): (row': Row)
    ensures UpdatedRow(row, data, stamp, row')
    ensures EmailOf(row') == if "email" in data then data["email"] else EmailOf(row)
  {
    row + data["updated_time" := stamp]
  }

  /** The row `save($userData)` stores once `status` and `created_time` were added. */
  function Created(data: Row, cfg: Config, id: int): (row': Row)
    ensures InsertedRow(data, cfg, id, row')
    ensures EmailOf(row') == Lookup(data, "email")
  {
    data["status" := cfg.statusActive]["created_time" := cfg.dateTime]["user_id" := Int(id)]
  }

  /** `if (isset($userData['id'])) unset($userData['id'])`: a null `id` is kept. */
  function UnsetId(userData: Row): (data: Row)
    ensures Lookup(userData, "id") != Null ==> data == userData - {"id"}
    ensures Lookup(userData, "id") == Null ==> data == userData
  {
    if Lookup(userData, "id") != Null then userData - {"id"} else userData
  }

  /** Some row of the table carries this email. */
  ghost predicate Registered(users: map<int, Row>, email: Value) {
    exists k :: k in users && EmailOf(users[k]) == email
  }

  /** The update branch: the row under `id` is touched, nothing else changes. */
  function UpdateRow(cfg: Config, users: map<int, Row>, nextId: int, id: int, data: Row): (u: Upserted)
    requires StoreValid(users, nextId) && id in users
    requires "user_id" !in data
    ensures StoreValid(u.users, u.nextId)
    ensures u.userId == id && u.nextId == nextId && u.users.Keys == users.Keys
    ensures UpdatedRow(users[id], data, cfg.dateTime, u.users[id])
    ensures EmailOf(u.users[id]) == if "email" in data then data["email"] else EmailOf(users[id])
    ensures forall k :: k in users && k != id ==> u.users[k] == users[k]
  {
    Upserted(users[id := Touched(users[id], data, cfg.dateTime)], nextId, id)
  }

  /** The insert branch: one row is added under the counter, which moves on. */
  function InsertRow(cfg: Config, users: map<int, Row>, nextId: int, data: Row): (u: Upserted)
    requires StoreValid(users, nextId)
    ensures StoreValid(u.users, u.nextId)
    ensures u.userId == nextId && nextId !in users && u.nextId == nextId + 1
    ensures u.users.Keys == users.Keys + {nextId}
    ensures InsertedRow(data, cfg, nextId, u.users[nextId])
    ensures EmailOf(u.users[nextId]) == Lookup(data, "email")
    ensures forall k :: k in users ==> u.users[k] == users[k]
  {
    Upserted(users[nextId := Created(data, cfg, nextId)], nextId + 1, nextId)
  }

  /** The insert-or-update of `social_registration`: drop a non-null `id`, look the email
      up, and update the first matching row (by its `user_id` column) or insert a new one. */
  function Upsert(cfg: Config, users: map<int, Row>, nextId: int, userData: Row): (u: Upserted)
    requires StoreValid(users, nextId)
    requires "user_id" !in userData
    ensures StoreValid(u.users, u.nextId)
    ensures u.userId in u.users
    // the row signed in carries the email that was looked up
    ensures EmailOf(u.users[u.userId]) == Lookup(userData, "email")
    // a non-null `id` from the provider is never written
    ensures Lookup(u.users[u.userId], "id") != Null ==>
      u.userId in users && Lookup(u.users[u.userId], "id") == Lookup(users[u.userId], "id")
    // a returning user: the first matching row is updated in place and nothing is added
    ensures Registered(users, Lookup(userData, "email")) ==>
      && u.nextId == nextId && u.users.Keys == users.Keys
      && EmailOf(users[u.userId]) == Lookup(userData, "email")
      && (forall k :: k in users && EmailOf(users[k]) == Lookup(userData, "email") ==> u.userId <= k)
      && UpdatedRow(users[u.userId], UnsetId(userData), cfg.dateTime, u.users[u.userId])
    // a new user: exactly one row is inserted, under the next key
    ensures !Registered(users, Lookup(userData, "email")) ==>
      && u.userId == nextId && nextId !in users && u.nextId == nextId + 1
      && u.users.Keys == users.Keys + {nextId}
      && InsertedRow(UnsetId(userData), cfg, nextId, u.users[nextId])
    // no other row changes
    ensures forall k :: k in users && k != u.userId ==> k in u.users && u.users[k] == users[k]
  {
    var data := UnsetId(userData);
    assert Lookup(data, "email") == Lookup(userData, "email");
    var found := Select(users, Lookup(data, "email"), 1, nextId);
    if found != [] then
      assert found[0] in found;
      var id := Lookup(users[found[0]], "user_id").i;
      UpdateRow(cfg, users, nextId, id, data)
    else
      assert !Registered(users, Lookup(data, "email"));
      InsertRow(cfg, users, nextId, data)
  }

  /** `social_registration`: an empty profile only redirects home; otherwise the row is
      upserted, re-read by its key, put into the session and the user is sent to the
      dashboard. */
  function Registration(cfg: Config, users: map<int, Row>, nextId: int, session: map<string, Value>, userData: Row): (o: Outcome)
    requires StoreValid(users, nextId)
    requires "user_id" !in userData
    ensures StoreValid(o.users, o.nextId)
    ensures userData == map[] ==> o == Outcome(users, nextId, session, Redirect(cfg.baseUrl))
    ensures userData != map[] ==>
      var u := Upsert(cfg, users, nextId, userData);
      && o.users == u.users && o.nextId == u.nextId
      && o.response == Redirect(Dashboard(cfg))
      && USER_KEY in o.session && o.session[USER_KEY] == Arr(o.users[u.userId])
    ensures forall k :: k != USER_KEY ==> Lookup(o.session, k) == Lookup(session, k)
  {
    if userData == map[] then Outcome(users, nextId, session, Redirect(cfg.baseUrl))
    else
      var u := Upsert(cfg, users, nextId, userData);
      var details := Fetch(u.users, u.userId);
      Outcome(u.users, u.nextId, session[USER_KEY := Arr(details[0])], Redirect(Dashboard(cfg)))
  }

  /** Where each `userData` field of `fb_login` comes from in the Graph profile. */
  const PROFILE_FIELDS: map<string, string> :=
    map["fb_id" := "id", "first_name" := "first_name", "last_name" := "last_name", "email" := "email"]

  /** The profile normalisation of `fb_login`. */
  function Profile(fbUser: map<string, Value>): (u: Row)
    ensures u.Keys == {"fb_id", "first_name", "last_name", "email"}
    ensures forall k :: k in u ==> NonEmpty(fbUser, PROFILE_FIELDS[k]) ==> u[k] == fbUser[PROFILE_FIELDS[k]]
    ensures forall k :: k in u ==> !NonEmpty(fbUser, PROFILE_FIELDS[k]) ==> u[k] == Str("")
  {
    map k | k in PROFILE_FIELDS ::
      if NonEmpty(fbUser, PROFILE_FIELDS[k]) then fbUser[PROFILE_FIELDS[k]] else Str("")
  }

  /** The assignments of `fb_login` that build `userData` from the Graph profile. */
  method Normalise(fbUser: map<string, Value>) returns (userData: Row)
    ensures userData == Profile(fbUser)
  {
    userData := map[];
    userData := userData["fb_id" := if NonEmpty(fbUser, "id") then fbUser["id"] else Str("")];
    userData := userData["first_name" := if NonEmpty(fbUser, "first_name") then fbUser["first_name"] else Str("")];
    userData := userData["last_name" := if NonEmpty(fbUser, "last_name") then fbUser["last_name"] else Str("")];
    userData := userData["email" := if NonEmpty(fbUser, "email") then fbUser["email"] else Str("")];
  }

  /** `new Facebookauth()` followed by `is_authenticated()`: the constructor's own
      `authenticate()` and the one `is_authenticated()` makes. */
  function SignInAttempt(session: map<string, Value>, p: Provider): (o: Authenticated)
    ensures o.completion.Abort? <==> Authentication(session, p).completion.Abort?
    ensures o.completion.Return? ==>
      && o.session == Authentication(session, p).session
      && (Truthy(o.completion.value) <==> Authentication(session, p).completion.value != Null)
      && (Truthy(o.completion.value) <==> o.completion.value != Bool(false))
    ensures o.session.Keys <= session.Keys + {TOKEN_KEY}
    ensures forall k :: k in session && k != TOKEN_KEY ==> k in o.session && o.session[k] == session[k]
  {
    var first := Authentication(session, p);
    if first.completion.Abort? then first
    else
      AuthenticationSettles(session, p);
      IsAuthenticatedFalseIffNull(first.session, p);
      var second := Authentication(first.session, p);
      Authenticated(Return(TokenOrFalse(second.completion.value)), second.session,
                    if second.active.Some? then second.active else first.active,
                    first.logged + second.logged)
  }

  /** `fb_login`. */
  function Login(cfg: Config, users: map<int, Row>, nextId: int, session: map<string, Value>, p: Provider): (o: Outcome)
    requires StoreValid(users, nextId)
    ensures StoreValid(o.users, o.nextId)
    // an uncaught error while authenticating ends the request before any table write
    ensures SignInAttempt(session, p).completion.Abort? ==>
      o == Outcome(users, nextId, SignInAttempt(session, p).session, Fault)
    // not authenticated: no table or user write, off to the provider's login page
    ensures SignInAttempt(session, p).completion == Return(Bool(false)) ==>
      o == Outcome(users, nextId, SignInAttempt(session, p).session, Redirect(p.loginUrl))
    // authenticated: the normalised profile is registered and the user lands on the dashboard
    ensures SignInAttempt(session, p).completion.Return? && SignInAttempt(session, p).completion.value != Bool(false) ==>
      && o == Registration(cfg, users, nextId, SignInAttempt(session, p).session, Profile(RequestResult(p.graph)))
      && o.response == Redirect(Dashboard(cfg))
    // only the token slot and the signed-in user are ever written to the session
    ensures forall k :: k != TOKEN_KEY && k != USER_KEY ==> Lookup(o.session, k) == Lookup(session, k)
  {
    var a := SignInAttempt(session, p);
    if a.completion.Abort? then Outcome(users, nextId, a.session, Fault)
    else if Truthy(a.completion.value) then
      ProfileNeverEmpty(RequestResult(p.graph));
      Registration(cfg, users, nextId, a.session, Profile(RequestResult(p.graph)))
    else Outcome(users, nextId, a.session, Redirect(p.loginUrl))
  }

  /** `logout`. */
  function SignOut(cfg: Config, session: map<string, Value>, p: Provider): (o: LoggedOut)
    // nobody signed in: the session is left as it is
    ensures LooselyBlank(Lookup(session, USER_KEY)) ==> o == LoggedOut(session, false, Redirect(cfg.baseUrl))
    // somebody signed in: the stored session is destroyed, so the next request starts empty
    ensures !LooselyBlank(Lookup(session, USER_KEY)) ==> o.destroyed && Kept(o.session, !o.destroyed) == map[]
    // ... and the token is removed from the request's array as well
    ensures !LooselyBlank(Lookup(session, USER_KEY)) && o.response != Fault ==>
      && TOKEN_KEY !in o.session
      && forall k :: k in session && k != TOKEN_KEY ==> k in o.session && o.session[k] == session[k]
    // the only way not to land on the home page is an uncaught error in the library's constructor
    ensures o.response == Redirect(cfg.baseUrl) || (o.response == Fault && Authentication(session, p).completion.Abort?)
  {
    if LooselyBlank(Lookup(session, USER_KEY)) then LoggedOut(session, false, Redirect(cfg.baseUrl))
    else
      // the library's constructor still sees the array `destroy()` left in place
      var a := Authentication(session, p);
      if a.completion.Abort? then LoggedOut(a.session, true, Fault)
      else LoggedOut(WithoutToken(a.session), true, Redirect(cfg.baseUrl))
  }

  /** A signed-in user's logout reuses the stored token, so it makes no SDK call and cannot
      fail when that token is a string or an `AccessToken`. */
  lemma SignOutWithStoredToken(cfg: Config, session: map<string, Value>, p: Provider)
    requires !LooselyBlank(Lookup(session, USER_KEY))
    requires Truthy(Lookup(session, TOKEN_KEY)) && Activatable(Lookup(session, TOKEN_KEY))
    ensures SignOut(cfg, session, p).response == Redirect(cfg.baseUrl)
    ensures SignOut(cfg, session, p).session == WithoutToken(session)
  {
  }

  /** Two rows never share an email. */
  ghost predicate EmailsUnique(users: map<int, Row>) {
    forall j, k :: j in users && k in users && j != k ==> EmailOf(users[j]) != EmailOf(users[k])
  }

  /** The upsert keeps emails unique: it inserts only an email that is not there yet, and
      an update keeps the row's email. */
  lemma {:induction false} UpsertKeepsEmailsUnique(cfg: Config, users: map<int, Row>, nextId: int, userData: Row)
    requires StoreValid(users, nextId)
    requires "user_id" !in userData
    requires EmailsUnique(users)
    ensures EmailsUnique(Upsert(cfg, users, nextId, userData).users)
  {
    var u := Upsert(cfg, users, nextId, userData);
    var email := Lookup(userData, "email");
    forall j, k | j in u.users && k in u.users && j != k
      ensures EmailOf(u.users[j]) != EmailOf(u.users[k])
    {
      if j == u.userId || k == u.userId {
        var other := if j == u.userId then k else j;
        assert other in users && u.users[other] == users[other];
        if Registered(users, email) {
          assert EmailOf(users[u.userId]) == email;
        }
      }
    }
  }

  /** `isset` is false for a null `id`, so a new user's row keeps `id = null`, while a
      non-null `id` never reaches the row. */
  lemma NullIdKeptOnInsert(cfg: Config, users: map<int, Row>, nextId: int, userData: Row)
    requires StoreValid(users, nextId)
    requires "user_id" !in userData
    requires !Registered(users, Lookup(userData, "email"))
    ensures var u := Upsert(cfg, users, nextId, userData);
      && (Lookup(userData, "id") == Null ==> Lookup(u.users[u.userId], "id") == Lookup(userData, "id"))
      && (Lookup(userData, "id") != Null ==> "id" !in u.users[u.userId])
  {
  }

  /** A returning user whose data does not name `status` or `created_time` (the profile of
      `fb_login` never does) keeps both, and gets the new `updated_time`. */
  lemma ReturningUserKeepsStatusAndCreation(cfg: Config, users: map<int, Row>, nextId: int, userData: Row)
    requires StoreValid(users, nextId)
    requires "user_id" !in userData && "status" !in userData && "created_time" !in userData
    requires Registered(users, Lookup(userData, "email"))
    ensures var u := Upsert(cfg, users, nextId, userData);
      && Lookup(u.users[u.userId], "status") == Lookup(users[u.userId], "status")
      && Lookup(u.users[u.userId], "created_time") == Lookup(users[u.userId], "created_time")
      && Lookup(u.users[u.userId], "updated_time") == cfg.dateTime
  {
  }

  /** Upserting the same data twice: the second call finds the row the first one left and
      updates it, so no second row is created and the same user is signed in. */
  lemma {:induction false} UpsertTwiceAddsNoRow(cfg: Config, users: map<int, Row>, nextId: int, userData: Row)
    requires StoreValid(users, nextId)
    requires "user_id" !in userData
    ensures var u1 := Upsert(cfg, users, nextId, userData);
      var u2 := Upsert(cfg, u1.users, u1.nextId, userData);
      && u2.users.Keys == u1.users.Keys && u2.nextId == u1.nextId
      && u2.userId == u1.userId
  {
    var u1 := Upsert(cfg, users, nextId, userData);
    var email := Lookup(userData, "email");
    assert Registered(u1.users, email);
    var u2 := Upsert(cfg, u1.users, u1.nextId, userData);
    assert u2.userId <= u1.userId;
    if u2.userId != u1.userId {
      assert u2.userId in users && u1.users[u2.userId] == users[u2.userId];
      assert Registered(users, email);
    }
  }

  /** `fb_login` never hands `social_registration` an empty profile, so an authenticated
      request always ends on the dashboard with the user in the session. */
  lemma ProfileNeverEmpty(fbUser: map<string, Value>)
    ensures Profile(fbUser) != map[]
  {
    assert "email" in Profile(fbUser);
  }

  /** As written, a callback that carries the provider's error (the user declined) and no
      token still signs somebody in: the error array counts as authenticated, the profile
      request fails for want of a token, and the all-empty profile is registered under the
      empty email. */
  lemma {:induction false} DeniedConsentSignsInBlankAccount(cfg: Config, users: map<int, Row>, nextId: int,
                                                            session: map<string, Value>, p: Provider)
    requires StoreValid(users, nextId)
    requires !Truthy(Lookup(session, TOKEN_KEY))
    requires p.extraction == NoToken && Truthy(p.errors.error)
    requires !p.graph.Decoded?
    ensures var o := Login(cfg, users, nextId, session, p);
      && o.response == Redirect(Dashboard(cfg))
      && USER_KEY in o.session && o.session[USER_KEY].Arr?
      && EmailOf(o.session[USER_KEY].m) == Str("")
  {
    var a := SignInAttempt(session, p);
    assert Authentication(session, p).completion == Return(Arr(ErrorMap(p.errors)));
    var fbUser := RequestResult(p.graph);
    assert !NonEmpty(fbUser, "email");
    var userData := Profile(fbUser);
    assert userData["email"] == Str("");
    ProfileNeverEmpty(fbUser);
    var u := Upsert(cfg, users, nextId, userData);
    assert EmailOf(u.users[u.userId]) == Str("");
  }

  /** The sign-in attempt produced an access token and the Graph API returned a profile. */
  predicate TokenAndProfile(session: map<string, Value>, p: Provider) {
    var a := SignInAttempt(session, p);
    a.completion.Return? && (a.completion.value.Str? || a.completion.value.Obj?) && p.graph.Decoded?
  }

  /** `fb_login` as evidently intended: only a token counts as authenticated and only a
      profile the Graph API returned is registered; an error array or a failed profile
      request sends the user back to the provider's login page without writing anything. */
  function IntendedLogin(cfg: Config, users: map<int, Row>, nextId: int, session: map<string, Value>, p: Provider): (o: Outcome)
    requires StoreValid(users, nextId)
    ensures StoreValid(o.users, o.nextId)
    // nobody is signed in and no row is written unless a token and a profile were obtained
    ensures (Lookup(o.session, USER_KEY) != Lookup(session, USER_KEY) || o.users != users || o.nextId != nextId) ==>
      TokenAndProfile(session, p)
    // with a token and a profile it behaves exactly as written
    ensures TokenAndProfile(session, p) ==> o == Login(cfg, users, nextId, session, p)
    ensures forall k :: k != TOKEN_KEY && k != USER_KEY ==> Lookup(o.session, k) == Lookup(session, k)
  {
    var a := SignInAttempt(session, p);
    if a.completion.Abort? then Outcome(users, nextId, a.session, Fault)
    else if TokenAndProfile(session, p) then
      Registration(cfg, users, nextId, a.session, Profile(p.graph.body))
    else Outcome(users, nextId, a.session, Redirect(p.loginUrl))
  }

  /** The intended login turns the declined-consent callback away. */
  lemma IntendedLoginTurnsAwayDeniedConsent(cfg: Config, users: map<int, Row>, nextId: int,
                                            session: map<string, Value>, p: Provider)
    requires StoreValid(users, nextId)
    requires !Truthy(Lookup(session, TOKEN_KEY))
    requires p.extraction == NoToken && Truthy(p.errors.error)
    ensures var o := IntendedLogin(cfg, users, nextId, session, p);
      && o.users == users && o.nextId == nextId && o.session == session
      && o.response == Redirect(p.loginUrl)
  {
  }

  /** The controller, holding the `user` table and the shared session. */
  class Auth {
    const cfg: Config
    const session: Session
    var users: map<int, Row>
    var nextId: int

    ghost predicate Valid()
      reads this
    {
      StoreValid(users, nextId)
    }

    constructor (cfg: Config, session: Session, users: map<int, Row>, nextId: int)
      requires StoreValid(users, nextId)
      ensures Valid()
      ensures this.cfg == cfg && this.session == session && this.users == users && this.nextId == nextId
    {
      this.cfg := cfg;
      this.session := session;
      this.users := users;
      this.nextId := nextId;
    }

    /** `social_registration`. */
    method SocialRegistration(userData: Row) returns (r: Response)
      requires Valid()
      requires "user_id" !in userData
      modifies this`users, this`nextId, session
      ensures Valid()
      ensures var o := Registration(cfg, old(users), old(nextId), old(session.data), userData);
        users == o.users && nextId == o.nextId && session.data == o.session && r == o.response
      ensures session.live == old(session.live)
    {
      if userData == map[] {
        return Redirect(cfg.baseUrl);
      }
      var data := userData;
      if Lookup(data, "id") != Null {
        data := data - {"id"};
      }
      assert data == UnsetId(userData);
      var already := Select(users, Lookup(data, "email"), 1, nextId);
      var userId;
      if already != [] {
        assert already[0] in already;
        userId := Lookup(users[already[0]], "user_id").i;
        data := data["updated_time" := cfg.dateTime];
        users := users[userId := users[userId] + data];
      } else {
        data := data["status" := cfg.statusActive];
        data := data["created_time" := cfg.dateTime];
        userId := nextId;
        users := users[userId := data["user_id" := Int(userId)]];
        nextId := nextId + 1;
      }
      var details := Fetch(users, userId);
      session.Set(USER_KEY, Arr(details[0]));
      r := Redirect(Dashboard(cfg));
    }

    /** The start of `fb_login`: build the library, whose constructor authenticates, and
        ask it `is_authenticated()` unless the constructor already failed. */
    method Attempt(p: Provider) returns (facebook: Facebookauth, c: Completion)
      modifies session
      ensures fresh(facebook) && facebook.provider == p
      ensures var a := SignInAttempt(old(session.data), p);
        c == a.completion && session.data == a.session
      ensures session.live == old(session.live)
    {
      facebook := new Facebookauth(session, p);
      if facebook.aborted {
        return facebook, Abort;
      }
      c := facebook.IsAuthenticated();
    }

    /** The signed-in branch of `fb_login`: read the profile, normalise it, register it. */
    method Welcome(facebook: Facebookauth) returns (r: Response)
      requires Valid()
      modifies this`users, this`nextId, session, facebook`log
      ensures Valid()
      ensures var o := Registration(cfg, old(users), old(nextId), old(session.data), Profile(RequestResult(facebook.provider.graph)));
        users == o.users && nextId == o.nextId && session.data == o.session && r == o.response
      ensures session.live == old(session.live)
    {
      var fbUser := facebook.GetUserInfo();
      var userData := Normalise(fbUser);
      r := SocialRegistration(userData);
    }

    /** `fb_login`. */
    method FbLogin(p: Provider) returns (r: Response)
      requires Valid()
      modifies this`users, this`nextId, session
      ensures Valid()
      ensures var o := Login(cfg, old(users), old(nextId), old(session.data), p);
        users == o.users && nextId == o.nextId && session.data == o.session && r == o.response
      ensures session.live == old(session.live)
    {
      var facebook, authenticated := Attempt(p);
      if authenticated.Abort? {
        return Fault;
      }
      if Truthy(authenticated.value) {
        r := Welcome(facebook);
      } else {
        r := Redirect(p.loginUrl);
      }
    }

    /** `logout`. */
    method Logout(p: Provider) returns (r: Response)
      modifies session
      ensures var o := SignOut(cfg, old(session.data), p);
        && session.data == o.session && r == o.response
        && session.live == (old(session.live) && !o.destroyed)
    {
      var user := session.Get(USER_KEY);
      if !LooselyBlank(user) {
        session.Destroy();
        var facebook := new Facebookauth(session, p);
        if facebook.aborted {
          return Fault;
        }
        facebook.DestroySession();
      }
      r := Redirect(cfg.baseUrl);
    }
  }
}
