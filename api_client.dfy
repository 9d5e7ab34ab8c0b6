/**
 * `ApiService`, the front end's client of the REST back end. Everything goes through
 * `fetchWithAuth`, which turns a response into a value or a thrown `Error`; the read wrappers
 * swallow errors and answer a safe default, the write wrappers let them propagate.
 *
 * The transport is not modelled: a call is given the response it gets (its `ok` flag, its
 * `content-type` header, its body text, and what `JSON.parse` makes of that text, `None` when it
 * throws) or the network error `fetch` rejects with.
 */
module ApiClient {
  import opened Common
  import opened JsonValues
  import opened JsText

  datatype HttpResponse = HttpResponse(ok: bool, contentType: Option<string>, text: string, parsed: Option<Json>)

  datatype Fetched = Received(response: HttpResponse) | NetworkError(message: string)

  /** `contentType?.includes('application/json')`. */
  predicate IsJson(contentType: Option<string>)
  {
    contentType.Some? && Includes(contentType.value, "application/json")
  }

  /**
   * The message of the error a non-2xx response raises: the parsed body's `error` if truthy,
   * else its `message` if truthy, else the raw text (also when the body is not JSON, or is JSON
   * `null`, whose property access throws and is caught).
   */
  function ErrorMessage(r: HttpResponse): (m: string)
    ensures r.parsed.None? || !r.parsed.value.JObj? ==> m == r.text
    ensures r.parsed.Some? && TruthyOpt(Prop(r.parsed.value, "error")) ==>
      m == ToJsString(Prop(r.parsed.value, "error").value)
    ensures r.parsed.Some? && !TruthyOpt(Prop(r.parsed.value, "error")) ==>
      m == if TruthyOpt(Prop(r.parsed.value, "message")) then ToJsString(Prop(r.parsed.value, "message").value)
           else r.text
  {
    if r.parsed.None? then r.text
    else
      var d := r.parsed.value;
      if TruthyOpt(Prop(d, "error")) then ToJsString(Prop(d, "error").value)
      else if TruthyOpt(Prop(d, "message")) then ToJsString(Prop(d, "message").value)
      else r.text
  }

  /**
   * `fetchWithAuth`: a network error or a non-2xx response throws; a 2xx response answers `null`
   * for an empty body, the text itself for a body that is not declared JSON, and otherwise the
   * parsed body, or the text when it does not parse.
   */
  function FetchWithAuth(f: Fetched): (o: Outcome<Json>)
    ensures o.Threw? <==> f.NetworkError? || !f.response.ok
    ensures f.NetworkError? ==> o.message == f.message
    ensures f.Received? && !f.response.ok ==> o.message == ErrorMessage(f.response)
    ensures f.Received? && f.response.ok && f.response.text == "" ==> o == Done(JNull)
    ensures f.Received? && f.response.ok && f.response.text != "" ==>
      if IsJson(f.response.contentType) && f.response.parsed.Some? then o == Done(f.response.parsed.value)
      else o == Done(JStr(f.response.text))
  {
    match f
    case NetworkError(m) => Threw(m)
    case Received(r) =>
      if !r.ok then Threw(ErrorMessage(r))
      else if r.text == "" || !IsJson(r.contentType) then (if r.text == "" then Done(JNull) else Done(JStr(r.text)))
      else if r.parsed.Some? then Done(r.parsed.value)
      else Done(JStr(r.text))
  }

  /**
   * The soft-fail list readers `getSessions`, `getSessionsByFormateur` and `getFormateurs`:
   * the answer when it is an array, and an empty list for any other answer or any error.
   */
  function ReadList(f: Fetched): (items: seq<Json>)
    ensures FetchWithAuth(f).Done? && FetchWithAuth(f).value.JArr? ==> items == FetchWithAuth(f).value.items
    ensures FetchWithAuth(f).Threw? ==> items == []
    ensures FetchWithAuth(f).Done? && !FetchWithAuth(f).value.JArr? ==> items == []
  {
    match FetchWithAuth(f)
    case Done(JArr(items)) => items
    case _ => []
  }

  /** `isFormateurInSession`: true iff the answer is `true` or the text `'true'`; false on any error. */
  function IsFormateurInSession(f: Fetched): (b: bool)
    ensures b <==> FetchWithAuth(f) == Done(JBool(true)) || FetchWithAuth(f) == Done(JStr("true"))
    ensures FetchWithAuth(f).Threw? ==> !b
  {
    match FetchWithAuth(f)
    case Done(v) => v == JBool(true) || v == JStr("true")
    case Threw(_) => false
  }

  const NotAuthenticated: Json := JObj(map["authenticated" := JBool(false)])

  /** `checkAuth`: the answer as it is, or `{authenticated: false}` on any error. */
  function CheckAuth(f: Fetched): (v: Json)
    ensures FetchWithAuth(f).Done? ==> v == FetchWithAuth(f).value
    ensures FetchWithAuth(f).Threw? ==> v == NotAuthenticated && !TruthyOpt(Prop(v, "authenticated"))
  {
    match FetchWithAuth(f)
    case Done(v) => v
    case Threw(_) => NotAuthenticated
  }

  /**
   * The writers that `await` the call and answer nothing (`affecterFormateurSession`,
   * `retirerFormateurSession`, and `deleteUser`, whose catch block rethrows the same error):
   * they throw exactly when the call throws, with the same message.
   */
  function WriteVoid(f: Fetched): (o: Outcome<()>)
    ensures o.Threw? <==> FetchWithAuth(f).Threw?
    ensures o.Threw? ==> o.message == FetchWithAuth(f).message
  {
    match FetchWithAuth(f)
    case Done(_) => Done(())
    case Threw(m) => Threw(m)
  }

  /**
   * What the browser receives from a Spring `ResponseEntity`: `ok` for a 2xx status; a null
   * body arrives as an empty text without a content type; any other body as JSON text `text`,
   * which parses back to that body.
   */
  function Delivered(status: int, body: Option<Json>, text: string): HttpResponse
  {
    if body.None? then HttpResponse(200 <= status <= 299, None, "", None)
    else HttpResponse(200 <= status <= 299, Some("application/json"), text, Some(body.value))
  }

  /**
   * Across the two tiers: the client throws exactly on a non-2xx status; the error of a null-body
   * error response has an empty message; a 2xx JSON body arrives as the value the server sent.
   */
  lemma ClientSeesServerStatus(status: int, body: Option<Json>, text: string)
    requires body.Some? ==> text != ""
    ensures FetchWithAuth(Received(Delivered(status, body, text))).Threw? <==> !(200 <= status <= 299)
    ensures !(200 <= status <= 299) && body.None? ==>
      FetchWithAuth(Received(Delivered(status, body, text))) == Threw("")
    ensures 200 <= status <= 299 && body.Some? ==>
      FetchWithAuth(Received(Delivered(status, body, text))) == Done(body.value)
  {
    assert Includes("application/json", "application/json") by {
      assert OccursAt("application/json", "application/json", 0);
    }
  }

  /**
   * The check endpoint's answers, 200 with the boolean or 500 with `false`, reach the caller of
   * `isFormateurInSession` as exactly the boolean the server sent.
   */
  lemma CheckAnswerReachesClient(status: int, answer: bool, text: string)
    requires status == 200 || (status == 500 && !answer)
    requires text != ""
    ensures IsFormateurInSession(Received(Delivered(status, Some(JBool(answer)), text))) == answer
  {
    ClientSeesServerStatus(status, Some(JBool(answer)), text);
  }

  /** A list reader answers the array the server sent, and nothing when the server failed. */
  lemma ListReachesClient(status: int, body: Option<Json>, text: string)
    requires body.Some? ==> text != ""
    ensures 200 <= status <= 299 && body.Some? && body.value.JArr? ==>
      ReadList(Received(Delivered(status, body, text))) == body.value.items
    ensures !(200 <= status <= 299) ==> ReadList(Received(Delivered(status, body, text))) == []
  {
    ClientSeesServerStatus(status, body, text);
  }

  /** A template-literal substitution `${v}`; `undefined` prints as such. */
  function Interpolated(v: Option<Json>): string
  {
    if v.None? then "undefined" else ToJsString(v.value)
  }

  /** The path `getSessionsByFormateur(formateurId)` fetches, `/sessions/formateur/${formateurId}`. */
  function TrainerSessionsPath(formateurId: Option<Json>): (path: string)
    ensures |path| >= 20 && path[..20] == "/sessions/formateur/"
    ensures formateurId.Some? && formateurId.value.JNum? ==> ParseInt(path[20..]) == Some(formateurId.value.n)
  {
    var path := "/sessions/formateur/" + Interpolated(formateurId);
    assert path[20..] == Interpolated(formateurId);
    if formateurId.Some? && formateurId.value.JNum? then ParseIntOfDecimal(formateurId.value.n); path else path
  }

  /** The path names the trainer: two different numeric ids are fetched at two different paths. */
  lemma TrainerPathNamesTrainer(m: int, n: int)
    requires m != n
    ensures TrainerSessionsPath(Some(JNum(m))) != TrainerSessionsPath(Some(JNum(n)))
  {
    var pm, pn := TrainerSessionsPath(Some(JNum(m))), TrainerSessionsPath(Some(JNum(n)));
    assert ParseInt(pm[20..]) == Some(m) && ParseInt(pn[20..]) == Some(n);
  }
}
