/** server.js: the upload pipeline behind a session login. A session is either anonymous or
    logged in; `checkAuth` lets a request through only in the second state. */
module Server {
  import opened Options
  import opened Http
  import opened StoredNames
  import opened Extraction
  import App

  const LoginPath := "/login"
  const FormPath := "/form"
  const ConfirmationPath := "/confirmation"

  const LoginPage := "public/login.html"
  const FormPage := "public/form.html"
  const ConfirmationPage := "public/confirmation.html"

  /** The one credential pair the server accepts. */
  const AdminUser := "admin"
  const AdminPassword := "admin"
  const InvalidCredentials := "Invalid username or password. <a href='/login'>Try again</a>"

  /** The caller's session: whether the store still holds it, and its `loggedIn` flag. */
  datatype SessionState = SessionState(stored: bool, loggedIn: bool)

  /** Only a stored session can carry the flag. */
  predicate ValidSession(s: SessionState)
  {
    s.loggedIn ==> s.stored
  }

  /** The session express-session creates for a request without a live one
      (`saveUninitialized: true`); `loggedIn` is unset. */
  const NewSession := SessionState(true, false)

  /** The session as the handlers see it: the stored one, or a new one in its place when the
      cookie names a destroyed session. */
  function Attached(s: SessionState): (a: SessionState)
    ensures a.stored && ValidSession(a)
    ensures a.loggedIn <==> s.stored && s.loggedIn
    ensures s.stored ==> a == s
  {
    if s.stored then s else NewSession
  }

  /** The state the login state machine is in: logged in. */
  predicate Authenticated(s: SessionState)
  {
    s.stored && s.loggedIn
  }

  /** The routes server.js serves; `formData` is the body sent alongside the image or the form. */
  datatype Request =
    | GetRoot
    | GetLogin
    | PostLogin(username: Option<string>, password: Option<string>)
    | GetForm
    | PostUpload(file: Option<FilePart>, formData: map<string, string>)
    | PostSubmitForm(formData: map<string, string>)
    | GetConfirmation
    | GetLogout

  /** The routes that have `checkAuth` in front of them, leaving out `/upload`, which has
      multer in front of `checkAuth`. */
  predicate IsProtected(req: Request)
  {
    req.GetForm? || req.PostSubmitForm? || req.GetConfirmation?
  }

  /** `checkAuth`: `next()` when the flag is set, `res.redirect("/login")` otherwise. */
  predicate CheckAuth(s: SessionState)
  {
    s.loggedIn
  }

  /** `username === "admin" && password === "admin"`: an absent field is `undefined`,
      which is never equal to a string. */
  predicate IsAdmin(username: Option<string>, password: Option<string>)
  {
    username == Some(AdminUser) && password == Some(AdminPassword)
  }

  /** `POST /upload`: multer writes the file first, then `checkAuth` runs, then the handler. */
  function Upload(s: SessionState, file: Option<FilePart>, o: Outcomes): (r: UploadResult)
    ensures r.storedAs == Store(file, o)
    ensures !CheckAuth(s) ==> r.response == Redirect(LoginPath) && !r.encoderCalled && !r.serviceCalled
    ensures CheckAuth(s) ==> r == HandleUpload(Store(file, o), file, o)
  {
    var storedAs := Store(file, o);
    if CheckAuth(s) then HandleUpload(storedAs, file, o)
    else UploadResult(storedAs, false, false, Redirect(LoginPath))
  }

  /** The session after a request and the response to it. */
  datatype Transition = Transition(session: SessionState, response: Response)

  /** One request from one client. `destroyOk` is whether `req.session.destroy` succeeds. */
  function Step(s: SessionState, req: Request, o: Outcomes, destroyOk: bool): (t: Transition)
    ensures ValidSession(t.session)
    ensures IsProtected(req) ==> t.session == Attached(s)
    ensures IsProtected(req) ==> (t.response == Redirect(LoginPath) <==> !Authenticated(s))
    ensures Authenticated(t.session) && !Authenticated(s) ==> req.PostLogin? && IsAdmin(req.username, req.password)
    ensures Authenticated(s) && !Authenticated(t.session) ==> req.GetLogout? && destroyOk
  {
    var a := Attached(s);
    match req
    case GetRoot =>
      Transition(a, if !a.loggedIn then Redirect(LoginPath) else Redirect(FormPath))
    case GetLogin =>
      Transition(a, Page(LoginPage))
    case PostLogin(username, password) =>
      if IsAdmin(username, password) then Transition(a.(loggedIn := true), Redirect(FormPath))
      else Transition(a, Text(200, InvalidCredentials))
    case GetForm =>
      Transition(a, if CheckAuth(a) then Page(FormPage) else Redirect(LoginPath))
    case PostUpload(file, _) =>
      Transition(a, Upload(a, file, o).response)
    case PostSubmitForm(_) =>
      Transition(a, if CheckAuth(a) then Redirect(ConfirmationPath) else Redirect(LoginPath))
    case GetConfirmation =>
      Transition(a, if CheckAuth(a) then Page(ConfirmationPage) else Redirect(LoginPath))
    case GetLogout =>
      if destroyOk then Transition(SessionState(false, false), Redirect(LoginPath))
      else Transition(a, Redirect(FormPath))
  }

  /** The response a protected route gives once `checkAuth` lets it through. */
  function ProtectedHandler(req: Request): Response
    requires IsProtected(req)
  {
    match req
    case GetForm => Page(FormPage)
    case PostSubmitForm(_) => Redirect(ConfirmationPath)
    case GetConfirmation => Page(ConfirmationPage)
  }

  /** A protected route runs its handler exactly when the session is logged in, and is
      redirected to the login page otherwise; it never changes the session's flag. */
  lemma ProtectedRouteGate(s: SessionState, req: Request, o: Outcomes, destroyOk: bool)
    requires IsProtected(req)
    ensures Step(s, req, o, destroyOk).response
         == if Authenticated(s) then ProtectedHandler(req) else Redirect(LoginPath)
    ensures Authenticated(Step(s, req, o, destroyOk).session) == Authenticated(s)
  {
  }

  /** `GET /` sends a logged-in session to the form and any other to the login page, and
      leaves the session as it is. */
  lemma RootRedirects(s: SessionState, o: Outcomes, destroyOk: bool)
    ensures Step(s, GetRoot, o, destroyOk).response
         == Redirect(if Authenticated(s) then FormPath else LoginPath)
    ensures Step(s, GetRoot, o, destroyOk).session == Attached(s)
  {
  }

  /** `POST /login` with admin/admin logs the session in and redirects to the form; any
      other pair leaves the session as it is and answers with the inline failure text. */
  lemma LoginOutcome(s: SessionState, username: Option<string>, password: Option<string>, o: Outcomes, destroyOk: bool)
    ensures var t := Step(s, PostLogin(username, password), o, destroyOk);
            if IsAdmin(username, password)
            then Authenticated(t.session) && t.response == Redirect(FormPath)
            else t.session == Attached(s) && t.response == Text(200, InvalidCredentials) && !t.response.Redirect?
  {
  }

  /** After a successful login, the next request for the form is served. */
  lemma LoginThenForm(s: SessionState, o: Outcomes, destroyOk: bool)
    ensures var t := Step(s, PostLogin(Some(AdminUser), Some(AdminPassword)), o, destroyOk);
            Step(t.session, GetForm, o, destroyOk).response == Page(FormPage)
  {
  }

  /** A failed login from an anonymous session leaves the form out of reach. */
  lemma FailedLoginThenForm(s: SessionState, username: Option<string>, password: Option<string>, o: Outcomes, destroyOk: bool)
    requires !Authenticated(s) && !IsAdmin(username, password)
    ensures var t := Step(s, PostLogin(username, password), o, destroyOk);
            Step(t.session, GetForm, o, destroyOk).response == Redirect(LoginPath)
  {
  }

  /** A logout whose destroy succeeds removes the session and redirects to the login
      page; whatever protected route comes next is redirected there too. */
  lemma LogoutThenProtected(s: SessionState, req: Request, o: Outcomes, o': Outcomes, destroyOk': bool)
    requires IsProtected(req)
    ensures var t := Step(s, GetLogout, o, true);
            !t.session.stored && t.response == Redirect(LoginPath)
            && Step(t.session, req, o', destroyOk').response == Redirect(LoginPath)
  {
  }

  /** A logout whose destroy fails keeps the session and redirects to the form: a logged-in
      session stays logged in and its next protected request is served (fail-open). */
  lemma FailedLogoutStaysOpen(s: SessionState, req: Request, o: Outcomes, o': Outcomes)
    requires IsProtected(req) && Authenticated(s)
    ensures var t := Step(s, GetLogout, o, false);
            t.session == s && t.response == Redirect(FormPath)
            && Step(t.session, req, o', false).response == ProtectedHandler(req)
  {
  }

  /** An anonymous upload has its file written to disk, is redirected to the login page,
      is never answered with 400, and never reaches the encoder or the service. */
  lemma AnonymousUpload(s: SessionState, file: Option<FilePart>, o: Outcomes)
    requires !Authenticated(s)
    ensures var r := Upload(Attached(s), file, o);
            (r.storedAs.Some? <==> file.Some?)
            && r.response == Redirect(LoginPath) && StatusCode(r.response) != 400
            && !r.encoderCalled && !r.serviceCalled
  {
  }

  /** Once through the gate, the upload route of server.js behaves exactly like the ungated
      one of app.js. */
  lemma GatedUploadMatchesApp(s: SessionState, file: Option<FilePart>, o: Outcomes)
    requires Authenticated(s)
    ensures Upload(Attached(s), file, o) == App.Upload(file, o)
  {
  }

  /** The form fields sent alongside the image never reach the response. */
  lemma UploadIgnoresFormData(s: SessionState, file: Option<FilePart>, d1: map<string, string>, d2: map<string, string>,
                              o: Outcomes, destroyOk: bool)
    ensures Step(s, PostUpload(file, d1), o, destroyOk) == Step(s, PostUpload(file, d2), o, destroyOk)
  {
  }

  /** A logged-in upload whose service reply parses is answered with exactly the parsed
      value. */
  lemma UploadReturnsParsedValue(s: SessionState, file: FilePart, formData: map<string, string>,
                                 o: Outcomes, destroyOk: bool)
    requires Authenticated(s) && !IsFalsy(o.encode) && Extracted(o)
    ensures Step(s, PostUpload(Some(file), formData), o, destroyOk).response == JsonBody(o.service.parse.value)
  {
  }

  /** The session of one client, updated in place by the login and logout handlers. */
  class Session {
    var stored: bool
    var loggedIn: bool

    ghost predicate Valid()
      reads this
    {
      ValidSession(State())
    }

    function State(): SessionState
      reads this
    {
      SessionState(stored, loggedIn)
    }

    /** The session express-session creates for a first request. */
    constructor ()
      ensures Valid() && State() == NewSession
    {
      stored, loggedIn := true, false;
    }

    /** express-session at the start of a request: a destroyed session is replaced. */
    method Attach()
      requires Valid()
      modifies this
      ensures Valid() && State() == Attached(old(State()))
    {
      if !stored {
        stored, loggedIn := true, false;
      }
    }

    /** `POST /login`. */
    method Login(username: Option<string>, password: Option<string>) returns (resp: Response)
      requires Valid() && stored
      modifies this
      ensures Valid() && stored
      ensures loggedIn == (old(loggedIn) || IsAdmin(username, password))
      ensures resp == if IsAdmin(username, password) then Redirect(FormPath) else Text(200, InvalidCredentials)
    {
      if username == Some(AdminUser) && password == Some(AdminPassword) {
        loggedIn := true;
        resp := Redirect(FormPath);
      } else {
        resp := Text(200, InvalidCredentials);
      }
    }

    /** `GET /logout`: `destroyOk` is whether `req.session.destroy` succeeded. */
    method Logout(destroyOk: bool) returns (resp: Response)
      requires Valid()
      modifies this
      ensures Valid()
      ensures destroyOk ==> !stored && !loggedIn && resp == Redirect(LoginPath)
      ensures !destroyOk ==> State() == old(State()) && resp == Redirect(FormPath)
    {
      if destroyOk {
        stored, loggedIn := false, false;
        resp := Redirect(LoginPath);
      } else {
        resp := Redirect(FormPath);
      }
    }

    /** One request against this session. */
    method Handle(req: Request, o: Outcomes, destroyOk: bool) returns (resp: Response)
      requires Valid()
      modifies this
      ensures Valid()
      ensures Transition(State(), resp) == Step(old(State()), req, o, destroyOk)
    {
      Attach();
      match req
      case GetRoot =>
        resp := if !loggedIn then Redirect(LoginPath) else Redirect(FormPath);
      case GetLogin =>
        resp := Page(LoginPage);
      case PostLogin(username, password) =>
        resp := Login(username, password);
      case GetForm =>
        resp := if CheckAuth(State()) then Page(FormPage) else Redirect(LoginPath);
      case PostUpload(file, _) =>
        resp := Upload(State(), file, o).response;
      case PostSubmitForm(_) =>
        resp := if CheckAuth(State()) then Redirect(ConfirmationPath) else Redirect(LoginPath);
      case GetConfirmation =>
        resp := if CheckAuth(State()) then Page(ConfirmationPage) else Redirect(LoginPath);
      case GetLogout =>
        resp := Logout(destroyOk);
    }
  }
}
