/** The values an Express handler hands back to the client. */
module Http {

  /** A JSON value as `JSON.parse` produces it and `res.json` sends it back.
      Object members keep their order, as JavaScript objects keep insertion order. */
  datatype Json =
    | JNull
    | JBool(b: bool)
    | JNumber(n: int)
    | JString(s: string)
    | JArray(items: seq<Json>)
    | JObject(members: seq<(string, Json)>)

  /** What a handler answers with. */
  datatype Response =
    | Redirect(location: string)       // res.redirect(location): 302 Found
    | Text(status: nat, body: string)  // res.status(status).send(body), or res.send(body) with 200
    | JsonBody(value: Json)            // res.json(value): 200 with the serialised value
    | Page(file: string)               // res.sendFile(file): 200 with a static page

  /** The HTTP status code each kind of response goes out with. */
  function StatusCode(r: Response): nat
  {
    match r
    case Redirect(_) => 302
    case Text(status, _) => status
    case JsonBody(_) => 200
    case Page(_) => 200
  }
}
