# Intake-form upload server: request dispatch model

The repository is a small Express application. A user uploads the photograph of a paper
intake form. The server writes the file to disk, encodes it in base64 and sends it to an
extraction service. It returns the JSON the service produced. Two entry points exist:

- `server.js` puts the pipeline behind a session login (a fixed admin/admin pair).
- `app.js` serves the same upload route with no login.

This Dafny project models the request dispatch of both files. It has three parts.

1. **Session gate** (`server.js`). A session is anonymous or logged in. `checkAuth` admits a
   request only when `loggedIn` is set.
   - `POST /login` sets the flag for admin/admin only.
   - `/logout` destroys the session. If the destroy fails, it redirects back to the form
     (fail-open).
   - `Server.Step` is the pure specification of one request. The `Server.Session` class
     keeps `stored` and `loggedIn` as mutable fields. Its `Login`, `Logout` and `Attach`
     methods update them in place, and `Handle` is proved to agree with `Step`.
2. **Upload decision chain** (both files). The chain is a series of early returns:
   - no file: 400;
   - a falsy base64 result: 500 with the encoding message;
   - a service failure or a reply that `JSON.parse` rejects: 500 with the generic message;
   - otherwise: the parsed value, unchanged.
   The encoder, the service and the parser are not modelled; their results are inputs
   (`Extraction.Outcomes`). In `server.js` multer runs before `checkAuth`. An anonymous
   upload is therefore written to disk and then redirected.
3. **Stored names** (both files). The storage callback builds
   `fieldname + "-" + Date.now() + "-" + Math.round(Math.random() * 1e9) + extname`.
   The clock reading, the random integer and the extension are inputs. A parser
   (`ParseStoredName`) inverts the name. The round trip proves that, for one field, the name
   determines the timestamp, the random integer and the extension.

Files: `options.dfy` (Option), `http.dfy` (JSON values and responses), `stored_names.dfy`,
`extraction.dfy` (the shared upload chain), `app.dfy`, `server.dfy`.

## Model

| member | source | states |
|---|---|---|
| StoredNames.Decimal | app.js:39 | The text a timestamp or random integer takes in the concatenation is non-empty, all digits, with no leading zero |
| StoredNames.DecimalRoundTrip | app.js:39 | Reading the decimal text back gives the number it was written from |
| StoredNames.DecimalWidth | server.js:63 | A number below 10^k is written with at most k digits |
| StoredNames.RandomPartWidth | app.js:39-42 | The random part, at most 10^9, is one to ten digits long |
| StoredNames.StoredName | app.js:38-44 | The stored name starts with the field name and a dash and ends with the original extension |
| StoredNames.StoredNameRoundTrip | server.js:62-68 | Parsing a stored name recovers exactly the timestamp, random integer and extension it was built from |
| StoredNames.StoredNameInjective | app.js:39-43 | For one field, distinct (timestamp, random, extension) triples give distinct names, with extensions empty or starting with a dot |
| Extraction.Store | server.js:54-71 | multer writes a file exactly when one is present, under a name whose parts are the clock reading, the random integer and its extension |
| Extraction.HandleUpload | app.js:55-195 | No file iff 400; encoder called iff a file; falsy base64 (undefined or empty) iff 500 encode message; service called iff a file and a truthy encoding; service error or parse failure iff 500 generic message; otherwise exactly the parsed value; never a redirect |
| Extraction.MalformedReplyHidden | app.js:188-195 | A reply that fails to parse gets the generic 500 whatever its text, so the malformed text never reaches the client |
| App.Upload | app.js:52-198 | No gate: never a redirect; a file is stored iff present, under a name starting with "imagen-"; every request with a file is encoded; the responses of the handler chain |
| Server.Attached | server.js:23-30 | A request always sees a stored session; it is logged in iff its stored session was; a destroyed session is replaced by a new anonymous one |
| Server.Upload | server.js:105-123 | The file is stored before the gate; an anonymous request is redirected to /login without encoding or calling the service; a logged-in one runs the handler chain |
| Server.Step | server.js:74-277 | Sessions stay valid; protected routes keep the session and redirect to /login iff not logged in; anonymous becomes logged in only by admin/admin; logged in becomes anonymous only by a logout whose destroy succeeds |
| Server.ProtectedRouteGate | server.js:37-43 | A protected route runs its handler iff the session is logged in, otherwise redirects to /login, and does not change the login state |
| Server.RootRedirects | server.js:74-80 | `GET /` redirects to /form when logged in, to /login otherwise, and leaves the session unchanged |
| Server.LoginOutcome | server.js:88-97 | admin/admin logs in and redirects to /form; any other pair leaves the session unchanged and answers 200 with the inline failure text, not a redirect |
| Server.LoginThenForm | server.js:91-102 | After a successful login the next `GET /form` serves the form page |
| Server.FailedLoginThenForm | server.js:94-102 | After a failed login from an anonymous session the next `GET /form` redirects to /login |
| Server.LogoutThenProtected | server.js:270-275 | A logout whose destroy succeeds removes the session and redirects to /login, and the next protected request redirects to /login |
| Server.FailedLogoutStaysOpen | server.js:271-274 | A logout whose destroy fails keeps the session, redirects to /form, and the next protected request is served |
| Server.AnonymousUpload | server.js:105-114 | An anonymous upload is stored iff it has a file, is redirected to /login, never gets 400, and reaches neither the encoder nor the service |
| Server.GatedUploadMatchesApp | server.js:105-251 | Past the gate, the upload route of server.js gives exactly the result of the app.js route |
| Server.UploadIgnoresFormData | server.js:242-247 | The form fields sent with the image do not affect the session or the response |
| Server.UploadReturnsParsedValue | server.js:242-251 | A logged-in upload whose reply parses is answered with exactly the parsed value |
| Server.Session.constructor | server.js:24-29 | A new session is stored and not logged in |
| Server.Session.Attach | server.js:23-30 | Updates the fields to the attached session of `Server.Attached` |
| Server.Session.Login | server.js:88-97 | Sets `loggedIn` for admin/admin only, never clears it; the redirect or the inline failure text |
| Server.Session.Logout | server.js:270-277 | A successful destroy clears both fields and redirects to /login; a failed one changes nothing and redirects to /form |
| Server.Session.Handle | server.js:74-277 | The new fields and the response are exactly those of `Server.Step` |

## Left out

- The extraction service call (server.js:129-240, app.js:75-186) is not modelled. Its result
  is an input: an error, or a reply text together with what `JSON.parse` makes of it. The
  prompt is a constant text. Its day, month, year and gender constraints are only requested
  there and never checked by code, so the model has no schema validator.
- `JSON.parse`, `Buffer.toString("base64")` (section 4 of RFC 4648) and `fs.promises.readFile`
  are library code. The encoder result is an input: `undefined` after a read error, or the
  base64 text. An empty image appears as the empty text.
- JSON numbers are modelled as integers. Non-integer numbers are not modelled.
- `path.extname` is not modelled. The extension is an input, limited to what it returns:
  empty, or starting with a dot.
- `Date.now()` and `Math.random()` are inputs. The clock reading is a natural number, so a
  clock before 1970 is not modelled. The random part is the rounded integer in 0 .. 10^9.
  The floating-point product itself is not modelled.
- The upload route is modelled with the file field fixed to `imagen`. A file sent under
  another field name makes multer raise an error, and Express's default error handler
  answers it. Neither is modelled.
- express-session internals are not modelled: cookies, the signing secret, session ids,
  expiry and the store. Only the `loggedIn` flag, whether the session is still stored, and
  whether `destroy` succeeds are modelled.
- Filesystem plumbing is not modelled:
  - the lazy creation of `./uploads`;
  - the disk write itself;
  - the difference between the cwd-relative write path and the `__dirname`-based read path
    (server.js:56, 116).
- Startup and serving are not modelled: static files under `public/` and `/uploads`,
  `dotenv`, `listen`, console logging, and Express's 404 for unrouted paths. `GET /login`
  and the protected pages are modelled only as "this page is sent".
- Concurrency is not modelled: the handlers' async interleaving, the missing timeout on the
  service call and concurrent requests on one session. Each request is one atomic step.
