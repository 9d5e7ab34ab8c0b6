/**
 * `SessionManager`, the coordinator's session screen: it lists the sessions with their trainers,
 * creates and edits sessions through a form, assigns and removes trainers, and deletes sessions.
 *
 * The component state is the class's fields; `State()` reads them as one `View` value, and each
 * handler is proved to move the state exactly as a transition function on `View` says. The
 * answers of the calls the handlers await are inputs (`Fetched`), and so are the outcome of
 * `confirm()` and the time values of the dates (`None` for an Invalid Date).
 */
module SessionManager {
  import opened Common
  import opened JsonValues
  import opened JsText
  import opened Dates
  import opened SessionEntity
  import opened ApiClient
  import SC = SessionController

  /**
   * The form fields. Typed input gives strings; `handleEdit` copies whatever the session row
   * holds, `None` standing for `undefined`.
   */
  datatype FormData = FormData(
    classe: Option<Json>, specialite: Option<Json>, promotion: Option<Json>, niveau: Option<Json>,
    semestre: Option<Json>, dateD: Option<Json>, dateF: Option<Json>, formateurId: Option<Json>)

  const Blank: Option<Json> := Some(JStr(""))

  /** The form as `resetForm` leaves it and as the component starts: every field ''. */
  const EmptyForm: FormData := FormData(Blank, Blank, Blank, Blank, Blank, Blank, Blank, Blank)

  /** The component state; `editingSession` is `JNull` when no session is being edited. */
  datatype View = View(
    sessions: seq<Json>, formateurs: seq<Json>, loading: bool, loadingFormateurs: bool,
    error: string, success: string, showForm: bool, editingSession: Json, formateursLoaded: bool,
    form: FormData)

  const Initial: View := View([], [], false, false, "", "", false, JNull, false, EmptyForm)

  /** No loaded row is null: the logging loop run on every load reads a property of each row. */
  predicate NoNullRows(v: View)
  {
    JNull !in v.sessions && JNull !in v.formateurs
  }

  const LoadErrorPrefix: string := "Erreur de chargement: "
  const ErrorPrefix: string := "Erreur: "
  const DeleteErrorPrefix: string := "Erreur de suppression: "
  const Assigned: string := "Formateur affecté avec succès !"
  const Removed: string := "Formateur retiré avec succès !"
  const Modified: string := "Session modifiée avec succès !"
  const Created: string := "Session créée avec succès !"
  const Deleted: string := "Session supprimée avec succès !"
  const StartTooEarly: string := "La date de début doit être supérieure ou égale à aujourd'hui"
  const EndNotAfterStart: string := "La date de fin doit être supérieure à la date de début"

  /**
   * A list reader's answer followed by the logging pass over it, which reads `prop` of every
   * row: the list itself, or the `TypeError` of the first null row.
   */
  function ReadRows(f: Fetched, prop: string): (r: Outcome<seq<Json>>)
    ensures r.Done? <==> JNull !in ReadList(f)
    ensures r.Done? ==> r.value == ReadList(f)
    ensures r.Threw? ==> r.message == NullRead(prop)
  {
    var rows := ReadList(f);
    if JNull in rows then Threw(NullRead(prop)) else Done(rows)
  }

  /**
   * `loadSessions`: the rows read, or no rows and the error banner; the banner is cleared on
   * success and `loading` ends false either way. Nothing else changes.
   */
  function SessionsLoaded(v: View, f: Fetched): (w: View)
    ensures w == v.(sessions := w.sessions, error := w.error, loading := false)
    ensures ReadRows(f, "idSession").Done? ==> w.sessions == ReadList(f) && w.error == ""
    ensures ReadRows(f, "idSession").Threw? ==>
      w.sessions == [] && w.error == LoadErrorPrefix + NullRead("idSession")
    ensures JNull !in w.sessions
    ensures JNull !in v.formateurs ==> NoNullRows(w)
  {
    match ReadRows(f, "idSession")
    case Done(rows) => v.(sessions := rows, error := "", loading := false)
    case Threw(m) => v.(sessions := [], error := LoadErrorPrefix + m, loading := false)
  }

  /**
   * `loadFormateurs`: the trainers read, or none when the logging pass throws; either way the
   * trainers count as loaded afterwards, and no error is shown.
   */
  function FormateursLoaded(v: View, f: Fetched): (w: View)
    ensures w == v.(formateurs := w.formateurs, formateursLoaded := true, loadingFormateurs := false)
    ensures w.formateurs == if ReadRows(f, "id").Done? then ReadList(f) else []
    ensures JNull !in w.formateurs
    ensures JNull !in v.sessions ==> NoNullRows(w)
  {
    match ReadRows(f, "id")
    case Done(rows) => v.(formateurs := rows, formateursLoaded := true, loadingFormateurs := false)
    case Threw(_) => v.(formateurs := [], formateursLoaded := true, loadingFormateurs := false)
  }

  /**
   * The visibility effect: nothing while hidden; once visible, the sessions are reloaded and the
   * trainers are loaded unless they were loaded before.
   */
  function Shown(v: View, isVisible: bool, sessionsAnswer: Fetched, formateursAnswer: Fetched): (w: View)
    ensures !isVisible ==> w == v
    ensures isVisible ==> w.formateursLoaded && !w.loading
    ensures isVisible ==> w.sessions == SessionsLoaded(v, sessionsAnswer).sessions
    ensures isVisible && v.formateursLoaded ==> w.formateurs == v.formateurs
    ensures NoNullRows(v) ==> NoNullRows(w)
  {
    if !isVisible then v
    else
      var w := SessionsLoaded(v, sessionsAnswer);
      if !v.formateursLoaded then FormateursLoaded(w, formateursAnswer) else w
  }

  /** The message of an awaited call that threw, if it did. */
  function Thrown<T>(o: Outcome<T>): (m: Option<string>)
    ensures m.Some? <==> o.Threw?
    ensures m.Some? ==> m.value == o.message
  {
    if o.Threw? then Some(o.message) else None
  }

  /**
   * The common end of a write handler: a thrown call shows `prefix` and its message and leaves the
   * list as it was; a completed one shows `done` and reloads the list.
   */
  function Completed(v: View, failure: Option<string>, prefix: string, done: string, reload: Fetched): (w: View)
    ensures failure.Some? ==> w == v.(error := prefix + failure.value)
    ensures failure.None? ==> w == SessionsLoaded(v.(success := done), reload)
    ensures failure.Some? ==> w.sessions == v.sessions
    ensures NoNullRows(v) ==> NoNullRows(w)
  {
    if failure.Some? then v.(error := prefix + failure.value)
    else SessionsLoaded(v.(success := done), reload)
  }

  /** `handleAffecterFormateur`: the assignment, then the success banner and a reload. */
  function AssignDone(v: View, answer: Fetched, reload: Fetched): (w: View)
    ensures WriteVoid(answer).Threw? ==>
      w == v.(error := ErrorPrefix + FetchWithAuth(answer).message)
    ensures WriteVoid(answer).Done? ==>
      w.success == Assigned && w.sessions == SessionsLoaded(v, reload).sessions
    ensures NoNullRows(v) ==> NoNullRows(w)
  {
    Completed(v.(error := ""), Thrown(WriteVoid(answer)), ErrorPrefix, Assigned, reload)
  }

  /** `handleRetirerFormateur`: the removal, then the success banner and a reload. */
  function RemoveDone(v: View, answer: Fetched, reload: Fetched): (w: View)
    ensures FetchWithAuth(answer).Threw? ==>
      w == v.(error := ErrorPrefix + FetchWithAuth(answer).message)
    ensures FetchWithAuth(answer).Done? ==>
      w.success == Removed && w.sessions == SessionsLoaded(v, reload).sessions
    ensures NoNullRows(v) ==> NoNullRows(w)
  {
    Completed(v.(error := ""), Thrown(FetchWithAuth(answer)), ErrorPrefix, Removed, reload)
  }

  /**
   * The two date checks of `handleSubmit`, the start one first. A date that does not parse
   * compares as NaN, which no comparison holds for, so it passes both checks.
   */
  function DateCheck(start: Option<int>, end: Option<int>, today: int): (r: Option<string>)
    ensures r == Some(StartTooEarly) <==> start.Some? && start.value < today
    ensures r == Some(EndNotAfterStart) <==>
      !(start.Some? && start.value < today) && start.Some? && end.Some? && end.value <= start.value
    ensures r.None? <==>
      (start.None? || today <= start.value) && (start.None? || end.None? || start.value < end.value)
  {
    if start.Some? && start.value < today then Some(StartTooEarly)
    else if start.Some? && end.Some? && end.value <= start.value then Some(EndNotAfterStart)
    else None
  }

  /**
   * `formData.formateurId ? parseInt(formData.formateurId as string) : undefined`, as
   * `JSON.stringify` sends it: absent when the field is falsy, the number read, or `null` for NaN.
   */
  function SubmittedTrainer(v: Option<Json>): (r: Option<Json>)
    ensures r.None? <==> !TruthyOpt(v)
    ensures r.Some? && ParseInt(ToJsString(v.value)).Some? ==> r.value == JNum(ParseInt(ToJsString(v.value)).value)
    ensures r.Some? && ParseInt(ToJsString(v.value)).None? ==> r.value == JNull
  {
    if !TruthyOpt(v) then None
    else
      match ParseInt(ToJsString(v.value))
      case Some(n) => Some(JNum(n))
      case None => Some(JNull)
  }

  /** The keys `sessionData` is built with. */
  const BodyKeys: set<string> :=
    {"classe", "specialite", "promotion", "niveau", "semestre", "dateD", "dateF", "formateurId"}

  /** The value `sessionData` holds under `key`; `None` is `undefined`, which `JSON.stringify` drops. */
  function BodyField(form: FormData, key: string): Option<Json>
  {
    if key == "classe" then form.classe
    else if key == "specialite" then form.specialite
    else if key == "promotion" then form.promotion
    else if key == "niveau" then form.niveau
    else if key == "semestre" then form.semestre
    else if key == "dateD" then form.dateD
    else if key == "dateF" then form.dateF
    else if key == "formateurId" then SubmittedTrainer(form.formateurId)
    else None
  }

  /**
   * The body `handleSubmit` sends: the seven form fields and the parsed trainer id, each one
   * exactly when it is defined, and nothing else.
   */
  function SubmitBody(form: FormData): (body: map<string, Json>)
    ensures forall k :: k in body <==> BodyField(form, k).Some?
    ensures forall k :: k in body ==> body[k] == BodyField(form, k).value
    ensures body.Keys <= BodyKeys
  {
    BodyFieldKeys(form);
    map k | k in BodyKeys && BodyField(form, k).Some? :: BodyField(form, k).value
  }

  /** Only the keys `sessionData` is built with can hold a value. */
  lemma BodyFieldKeys(form: FormData)
    ensures forall k :: BodyField(form, k).Some? ==> k in BodyKeys
  {
    forall k | k !in BodyKeys
      ensures BodyField(form, k).None?
    {
      assert k != "classe" && k != "specialite" && k != "promotion" && k != "niveau";
      assert k != "semestre" && k != "dateD" && k != "dateF" && k != "formateurId";
    }
  }

  /**
   * The call a handler made, with the ids it handed to the API client: none, a creation, an
   * update or a deletion of a session, the assignment of a trainer (`affecterFormateurSession`)
   * or the removal of one (`retirerFormateur`).
   */
  datatype Request =
    | NoRequest
    | CreateRequest(body: map<string, Json>)
    | UpdateRequest(id: Option<Json>, body: map<string, Json>)
    | AssignRequest(sessionId: Option<Json>, formateurId: int)
    | RemoveRequest(sessionId: Option<Json>, removedId: Option<Json>)
    | DeleteRequest(id: Option<Json>)

  /** The HTTP method and path the API client calls for a request; no call for `NoRequest`. */
  function Endpoint(r: Request): (e: Option<(string, string)>)
    ensures e.None? <==> r.NoRequest?
    ensures e.Some? ==> e.value.0 in {"POST", "PUT", "DELETE"} && "/sessions" <= e.value.1
    ensures r.CreateRequest? || r.UpdateRequest? || r.DeleteRequest? ==>
      e.value.1 == "/sessions" || e.value.1[..10] == "/sessions/"
    ensures r.DeleteRequest? ==> e == Some(("DELETE", "/sessions/" + Interpolated(r.id)))
    ensures r.AssignRequest? ==> e == Some(("POST", "/sessions/" + Interpolated(r.sessionId) + "/affecter"))
    ensures r.RemoveRequest? ==>
      e == Some(("DELETE", "/sessions/" + Interpolated(r.sessionId) + "/retirer/" + Interpolated(r.removedId)))
  {
    match r
    case NoRequest => None
    case CreateRequest(_) => Some(("POST", "/sessions"))
    case UpdateRequest(id, _) => Some(("PUT", "/sessions/" + Interpolated(id)))
    case AssignRequest(sessionId, _) => Some(("POST", "/sessions/" + Interpolated(sessionId) + "/affecter"))
    case RemoveRequest(sessionId, formateurId) =>
      Some(("DELETE", "/sessions/" + Interpolated(sessionId) + "/retirer/" + Interpolated(formateurId)))
    case DeleteRequest(id) => Some(("DELETE", "/sessions/" + Interpolated(id)))
  }

  /** Deleting two different numbered sessions calls two different paths: the path names the session. */
  lemma DeletePathNamesSession(m: int, n: int)
    requires m != n
    ensures Endpoint(DeleteRequest(Some(JNum(m)))) != Endpoint(DeleteRequest(Some(JNum(n))))
  {
    var pm, pn := "/sessions/" + IntToDecimal(m), "/sessions/" + IntToDecimal(n);
    assert pm[10..] == IntToDecimal(m) && pn[10..] == IntToDecimal(n);
    ParseIntOfDecimal(m);
    ParseIntOfDecimal(n);
  }

  /**
   * The call `handleSubmit` makes: none when a date check fails; otherwise an update of the
   * session being edited, or a creation when none is.
   */
  function SubmitRequest(v: View, start: Option<int>, end: Option<int>, today: int): (r: Request)
    ensures r.NoRequest? <==> DateCheck(start, end, today).Some?
    ensures r.UpdateRequest? <==> DateCheck(start, end, today).None? && Truthy(v.editingSession)
    ensures r.NoRequest? || r.CreateRequest? || r.UpdateRequest?
    ensures !r.NoRequest? ==> r.body == SubmitBody(v.form)
    ensures r.UpdateRequest? ==> r.id == Prop(v.editingSession, "idSession")
  {
    if DateCheck(start, end, today).Some? then NoRequest
    else if Truthy(v.editingSession) then UpdateRequest(Prop(v.editingSession, "idSession"), SubmitBody(v.form))
    else CreateRequest(SubmitBody(v.form))
  }

  /** `resetForm`: every field '', no session being edited, the form closed. */
  function FormReset(v: View): (w: View)
    ensures w == v.(form := EmptyForm, editingSession := JNull, showForm := false)
    ensures !Truthy(w.editingSession)
  {
    v.(form := EmptyForm, editingSession := JNull, showForm := false)
  }

  /**
   * `handleSubmit`: a failed date check shows its message and changes nothing else; a call that
   * throws shows the error and keeps the form open as it was; a completed call shows the success
   * banner, resets the form and reloads the list.
   */
  function Submitted(v: View, start: Option<int>, end: Option<int>, today: int, answer: Fetched, reload: Fetched): (w: View)
    ensures DateCheck(start, end, today).Some? ==> w == v.(error := DateCheck(start, end, today).value)
    ensures DateCheck(start, end, today).None? && FetchWithAuth(answer).Threw? ==>
      w == v.(error := ErrorPrefix + FetchWithAuth(answer).message)
    ensures DateCheck(start, end, today).None? && FetchWithAuth(answer).Done? ==>
      w.form == EmptyForm && !w.showForm && w.editingSession == JNull &&
      w.success == (if Truthy(v.editingSession) then Modified else Created) &&
      w.sessions == SessionsLoaded(v, reload).sessions
    ensures NoNullRows(v) ==> NoNullRows(w)
  {
    var v1 := v.(error := "");
    match DateCheck(start, end, today)
    case Some(m) => v1.(error := m)
    case None =>
      var done := if Truthy(v.editingSession) then Modified else Created;
      match FetchWithAuth(answer)
      case Threw(m) => v1.(error := ErrorPrefix + m)
      case Done(_) => SessionsLoaded(FormReset(v1.(success := done)), reload)
  }

  /**
   * `session.formateurs && session.formateurs.length > 0` for the values a parsed body holds:
   * a non-empty array or a non-empty string. A parsed object with its own `length` key is left
   * out of this model; every other value fails the `length` test.
   */
  predicate HasEntries(v: Option<Json>): (h: bool)
    ensures h ==> v.Some? && Truthy(v.value)
    ensures v.Some? && v.value.JArr? ==> (h <==> v.value.items != [])
  {
    v.Some? && ((v.value.JArr? && |v.value.items| > 0) || (v.value.JStr? && v.value.s != ""))
  }

  /**
   * `session.formateurs[0].id` when the list has entries: the first entry's id (`undefined` for a
   * string's first character or an entry without one), or the `TypeError` of a null entry.
   */
  function FirstTrainerId(v: Option<Json>): (r: Outcome<Option<Json>>)
    requires HasEntries(v)
    ensures r.Threw? <==> v.value.JArr? && v.value.items[0].JNull?
    ensures r.Threw? ==> r.message == NullRead("id")
    ensures r.Done? && v.value.JArr? ==> r.value == Prop(v.value.items[0], "id")
    ensures v.value.JStr? ==> r == Done(None)
  {
    if v.value.JStr? then Done(None)
    else if v.value.items[0].JNull? then Threw(NullRead("id"))
    else Done(Prop(v.value.items[0], "id"))
  }

  /** The form `handleEdit` fills from a row: its seven fields, and its first trainer's id or ''. */
  function EditForm(row: Json): (r: Outcome<FormData>)
    ensures r.Threw? <==> HasEntries(Prop(row, "formateurs")) && FirstTrainerId(Prop(row, "formateurs")).Threw?
    ensures r.Done? ==>
      r.value.classe == Prop(row, "classe") && r.value.specialite == Prop(row, "specialite") &&
      r.value.promotion == Prop(row, "promotion") && r.value.niveau == Prop(row, "niveau") &&
      r.value.semestre == Prop(row, "semestre") && r.value.dateD == Prop(row, "dateD") &&
      r.value.dateF == Prop(row, "dateF")
    ensures r.Done? && !HasEntries(Prop(row, "formateurs")) ==> r.value.formateurId == Blank
    ensures r.Done? && HasEntries(Prop(row, "formateurs")) ==>
      Done(r.value.formateurId) == FirstTrainerId(Prop(row, "formateurs"))
  {
    var first: Outcome<Option<Json>> :=
      if HasEntries(Prop(row, "formateurs")) then FirstTrainerId(Prop(row, "formateurs")) else Done(Blank);
    match first
    case Threw(m) => Threw(m)
    case Done(id) =>
      Done(FormData(Prop(row, "classe"), Prop(row, "specialite"), Prop(row, "promotion"), Prop(row, "niveau"),
                    Prop(row, "semestre"), Prop(row, "dateD"), Prop(row, "dateF"), id))
  }

  /**
   * `handleEdit` on row `i`: the row becomes the session being edited and, unless reading its
   * first trainer throws, the form is filled from it and opened. A null row would throw while
   * being logged, before any state is set; the component's rows are never null.
   */
  function Edited(v: View, i: int): (w: View)
    requires 0 <= i < |v.sessions| && v.sessions[i] != JNull
    ensures w.editingSession == v.sessions[i]
    ensures EditForm(v.sessions[i]).Done? ==>
      w == v.(editingSession := v.sessions[i], form := EditForm(v.sessions[i]).value, showForm := true)
    ensures EditForm(v.sessions[i]).Threw? ==> w == v.(editingSession := v.sessions[i])
    ensures NoNullRows(v) ==> NoNullRows(w)
  {
    var row := v.sessions[i];
    match EditForm(row)
    case Threw(_) => v.(editingSession := row)
    case Done(form) => v.(editingSession := row, form := form, showForm := true)
  }

  /**
   * `handleDelete`: nothing unless the deletion is confirmed; then the call, and the success
   * banner and a reload, or the deletion error with the list as it was.
   */
  function DeleteDone(v: View, confirmed: bool, answer: Fetched, reload: Fetched): (w: View)
    ensures !confirmed ==> w == v
    ensures confirmed && FetchWithAuth(answer).Threw? ==>
      w == v.(error := DeleteErrorPrefix + FetchWithAuth(answer).message)
    ensures confirmed && FetchWithAuth(answer).Done? ==>
      w.success == Deleted && w.sessions == SessionsLoaded(v, reload).sessions
    ensures NoNullRows(v) ==> NoNullRows(w)
  {
    if !confirmed then v
    else Completed(v, Thrown(FetchWithAuth(answer)), DeleteErrorPrefix, Deleted, reload)
  }

  /** A row offers the assignment selector, rather than its trainers, when it lists no trainer. */
  predicate ShowsSelector(row: Json): (shown: bool)
    ensures Prop(row, "formateurs").None? ==> shown
    ensures Prop(row, "formateurs") == Some(JArr([])) ==> shown
    ensures !shown ==> Prop(row, "formateurs").Some? && Truthy(Prop(row, "formateurs").value)
  {
    !HasEntries(Prop(row, "formateurs"))
  }

  /** The selector's `onChange`: `parseInt(value)`, acted on only when it is a number other than 0. */
  function SelectedTrainer(value: string): (r: Option<int>)
    ensures r.Some? <==> ParseInt(value).Some? && ParseInt(value).value != 0
    ensures r.Some? ==> ParseInt(value) == r
  {
    match ParseInt(value)
    case Some(n) => if n != 0 then Some(n) else None
    case None => None
  }

  class SessionManager {
    var sessions: seq<Json>
    var formateurs: seq<Json>
    var loading: bool
    var loadingFormateurs: bool
    var error: string
    var success: string
    var showForm: bool
    var editingSession: Json
    var formateursLoaded: bool
    var formData: FormData

    function State(): View
      reads this
    {
      View(sessions, formateurs, loading, loadingFormateurs, error, success, showForm, editingSession,
           formateursLoaded, formData)
    }

    predicate Valid()
      reads this
    {
      NoNullRows(State())
    }

    constructor ()
      ensures State() == Initial && Valid()
    {
      sessions, formateurs := [], [];
      loading, loadingFormateurs := false, false;
      error, success := "", "";
      showForm, editingSession, formateursLoaded := false, JNull, false;
      formData := EmptyForm;
    }

    method LoadSessions(f: Fetched)
      modifies this
      ensures State() == SessionsLoaded(old(State()), f)
    {
      loading := true;
      error := "";
      var sessionsData := ReadList(f);
      if JNull in sessionsData {
        error := LoadErrorPrefix + NullRead("idSession");
        sessions := [];
      } else {
        sessions := sessionsData;
      }
      loading := false;
    }

    method LoadFormateurs(f: Fetched)
      modifies this
      ensures State() == FormateursLoaded(old(State()), f)
    {
      loadingFormateurs := true;
      var formateursData := ReadList(f);
      if JNull in formateursData {
        formateurs := [];
        formateursLoaded := true;
      } else {
        formateurs := formateursData;
        formateursLoaded := true;
      }
      loadingFormateurs := false;
    }

    method OnVisible(isVisible: bool, sessionsAnswer: Fetched, formateursAnswer: Fetched)
      modifies this
      ensures State() == Shown(old(State()), isVisible, sessionsAnswer, formateursAnswer)
    {
      if isVisible {
        LoadSessions(sessionsAnswer);
        if !formateursLoaded {
          LoadFormateurs(formateursAnswer);
        }
      }
    }

    method HandleAffecterFormateur(sessionId: Option<Json>, formateurId: int, answer: Fetched, reload: Fetched)
      returns (sent: Request)
      modifies this
      ensures sent == AssignRequest(sessionId, formateurId)
      ensures State() == AssignDone(old(State()), answer, reload)
    {
      error := "";
      sent := AssignRequest(sessionId, formateurId);
      var outcome := WriteVoid(answer);
      if outcome.Threw? {
        error := ErrorPrefix + outcome.message;
        return;
      }
      success := Assigned;
      LoadSessions(reload);
    }

    method HandleRetirerFormateur(sessionId: Option<Json>, formateurId: Option<Json>, answer: Fetched, reload: Fetched)
      returns (sent: Request)
      modifies this
      ensures sent == RemoveRequest(sessionId, formateurId)
      ensures State() == RemoveDone(old(State()), answer, reload)
    {
      error := "";
      sent := RemoveRequest(sessionId, formateurId);
      var outcome := FetchWithAuth(answer);
      if outcome.Threw? {
        error := ErrorPrefix + outcome.message;
        return;
      }
      success := Removed;
      LoadSessions(reload);
    }

    method ResetForm()
      modifies this
      ensures State() == FormReset(old(State()))
    {
      formData := EmptyForm;
      editingSession := JNull;
      showForm := false;
    }

    /** `start` and `end` are the time values of `new Date(dateD)` and `new Date(dateF)`, `today` that of today's midnight. */
    method HandleSubmit(start: Option<int>, end: Option<int>, today: int, answer: Fetched, reload: Fetched)
      returns (sent: Request)
      modifies this
      ensures sent == SubmitRequest(old(State()), start, end, today)
      ensures State() == Submitted(old(State()), start, end, today, answer, reload)
    {
      error := "";
      if start.Some? && start.value < today {
        error := StartTooEarly;
        return NoRequest;
      }
      if start.Some? && end.Some? && end.value <= start.value {
        error := EndNotAfterStart;
        return NoRequest;
      }
      var sessionData := SubmitBody(formData);
      var outcome;
      if Truthy(editingSession) {
        sent := UpdateRequest(Prop(editingSession, "idSession"), sessionData);
        outcome := FetchWithAuth(answer);
        if outcome.Done? {
          success := Modified;
        }
      } else {
        sent := CreateRequest(sessionData);
        outcome := FetchWithAuth(answer);
        if outcome.Done? {
          success := Created;
        }
      }
      if outcome.Threw? {
        error := ErrorPrefix + outcome.message;
        return;
      }
      ResetForm();
      LoadSessions(reload);
    }

    /** Edit on row `i` of the list, the only rows the component offers to edit. */
    method HandleEdit(i: int)
      requires Valid() && 0 <= i < |sessions|
      modifies this
      ensures State() == Edited(old(State()), i)
    {
      var session := sessions[i];
      editingSession := session;
      var premier: Option<Json> := Blank;
      if HasEntries(Prop(session, "formateurs")) {
        var first := FirstTrainerId(Prop(session, "formateurs"));
        if first.Threw? {
          return;
        }
        premier := first.value;
      }
      formData := FormData(Prop(session, "classe"), Prop(session, "specialite"), Prop(session, "promotion"),
                           Prop(session, "niveau"), Prop(session, "semestre"), Prop(session, "dateD"),
                           Prop(session, "dateF"), premier);
      showForm := true;
    }

    method HandleDelete(id: Option<Json>, confirmed: bool, answer: Fetched, reload: Fetched) returns (sent: Request)
      modifies this
      ensures sent == if confirmed then DeleteRequest(id) else NoRequest
      ensures State() == DeleteDone(old(State()), confirmed, answer, reload)
    {
      sent := NoRequest;
      if confirmed {
        sent := DeleteRequest(id);
        var outcome := FetchWithAuth(answer);
        if outcome.Threw? {
          error := DeleteErrorPrefix + outcome.message;
          return;
        }
        success := Deleted;
        LoadSessions(reload);
      }
    }

    /**
     * The selector of row `i` changed to `value`: the assignment of the trainer `SelectedTrainer`
     * reads to the session of that row, or no call.
     */
    method SelectTrainer(i: int, value: string, answer: Fetched, reload: Fetched) returns (sent: Request)
      requires 0 <= i < |sessions|
      modifies this
      ensures SelectedTrainer(value).Some? ==>
        sent == AssignRequest(Prop(old(sessions)[i], "idSession"), SelectedTrainer(value).value) &&
        State() == AssignDone(old(State()), answer, reload)
      ensures SelectedTrainer(value).None? ==> sent == NoRequest && State() == old(State())
    {
      var formateurId := ParseInt(value);
      sent := NoRequest;
      if formateurId.Some? && formateurId.value != 0 {
        sent := HandleAffecterFormateur(Prop(sessions[i], "idSession"), formateurId.value, answer, reload);
      }
    }

    /** The timer that clears the success banner three seconds after it was shown. */
    method ExpireSuccess()
      modifies this
      ensures State() == old(State()).(success := "")
    {
      success := "";
    }
  }

  /** Every handler keeps the rows non-null, so the component's own invariant holds throughout. */
  lemma HandlersKeepRowsNonNull(v: View, f: Fetched, g: Fetched, s: Option<int>, e: Option<int>, t: int, i: int, c: bool)
    requires NoNullRows(v)
    ensures NoNullRows(SessionsLoaded(v, f)) && NoNullRows(FormateursLoaded(v, f))
    ensures NoNullRows(AssignDone(v, f, g)) && NoNullRows(RemoveDone(v, f, g))
    ensures NoNullRows(Submitted(v, s, e, t, f, g)) && NoNullRows(DeleteDone(v, c, f, g))
    ensures 0 <= i < |v.sessions| ==> NoNullRows(Edited(v, i))
  {
  }

  /** A row the server built with its trainers offers the selector exactly when the session has none. */
  lemma SelectorOnlyForUnassigned(r: SessionRecord)
    ensures ShowsSelector(SC.SessionSummary(r, true)) <==> TrainersOf(r) == []
  {
    SC.SummaryListsEveryTrainer(r);
  }

  /** Choosing the option of trainer `id` asks to assign exactly that trainer; the placeholder asks nothing. */
  lemma OptionSelectsTrainer(id: int)
    requires id != 0
    ensures SelectedTrainer(IntToDecimal(id)) == Some(id)
    ensures SelectedTrainer("") == None
  {
    ParseIntOfDecimal(id);
  }

  /**
   * Editing a row the server sent for a session whose first trainer has a nonzero id, then
   * submitting with valid dates, updates that session and sends that trainer's id.
   */
  lemma EditThenSubmitKeepsTrainer(v: View, i: int, r: SessionRecord, start: Option<int>, end: Option<int>, today: int)
    requires 0 <= i < |v.sessions| && v.sessions[i] == SC.SessionSummary(r, true)
    requires TrainersOf(r) != [] && TrainersOf(r)[0].id != 0 && r.idSession.Some?
    requires DateCheck(start, end, today).None?
    ensures SubmitRequest(Edited(v, i), start, end, today) ==
      UpdateRequest(Some(JNum(r.idSession.value)), SubmitBody(Edited(v, i).form))
    ensures "formateurId" in SubmitBody(Edited(v, i).form) &&
      SubmitBody(Edited(v, i).form)["formateurId"] == JNum(TrainersOf(r)[0].id)
  {
    EditedSummaryForm(v, i, r);
    TrainerFieldSent(Edited(v, i).form, TrainersOf(r)[0].id);
  }

  /** Editing a row the server built for a session with a trainer edits that session and fills the form with that trainer's id. */
  lemma EditedSummaryForm(v: View, i: int, r: SessionRecord)
    requires 0 <= i < |v.sessions| && v.sessions[i] == SC.SessionSummary(r, true)
    requires TrainersOf(r) != []
    ensures Truthy(Edited(v, i).editingSession)
    ensures Prop(Edited(v, i).editingSession, "idSession") ==
      Some(if r.idSession.Some? then JNum(r.idSession.value) else JNull)
    ensures Edited(v, i).form.formateurId == Some(JNum(TrainersOf(r)[0].id))
  {
    var row := v.sessions[i];
    var ts := Prop(row, "formateurs");
    assert ts.value.items[0] == SC.TrainerSummary(TrainersOf(r)[0]);
    assert FirstTrainerId(ts) == Done(Some(JNum(TrainersOf(r)[0].id)));
    assert EditForm(row).Done?;
  }

  /** A form holding a nonzero trainer id sends that id as a number. */
  lemma TrainerFieldSent(form: FormData, n: int)
    requires form.formateurId == Some(JNum(n)) && n != 0
    ensures "formateurId" in SubmitBody(form) && SubmitBody(form)["formateurId"] == JNum(n)
  {
    ParseIntOfDecimal(n);
    assert SubmittedTrainer(Some(JNum(n))) == Some(JNum(n));
    assert BodyField(form, "formateurId") == Some(JNum(n));
  }

  /**
   * A form typed in with all seven fields and dates the back end can parse is accepted by its
   * create endpoint with exactly those values.
   */
  lemma SubmittedFormIsCreated(form: FormData, c: string, sp: string, p: string, n: string, se: string, d: string, f: string)
    requires form.classe == Some(JStr(c)) && form.specialite == Some(JStr(sp)) && form.promotion == Some(JStr(p))
    requires form.niveau == Some(JStr(n)) && form.semestre == Some(JStr(se))
    requires form.dateD == Some(JStr(d)) && form.dateF == Some(JStr(f))
    requires ParseIso(d).Some? && ParseIso(f).Some?
    ensures SC.ReadNewSession(SubmitBody(form)) ==
      Ok(SC.NewSession(Some(c), Some(sp), Some(p), Some(n), Some(se), ParseIso(d).value, ParseIso(f).value))
  {
    var body := SubmitBody(form);
    assert BodyField(form, "classe") == Some(JStr(c));
    assert BodyField(form, "specialite") == Some(JStr(sp));
    assert BodyField(form, "promotion") == Some(JStr(p));
    assert BodyField(form, "niveau") == Some(JStr(n));
    assert BodyField(form, "semestre") == Some(JStr(se));
    assert BodyField(form, "dateD") == Some(JStr(d));
    assert BodyField(form, "dateF") == Some(JStr(f));
    assert SC.StringField(body, "classe") == Ok(Some(c));
    assert SC.StringField(body, "specialite") == Ok(Some(sp));
    assert SC.StringField(body, "promotion") == Ok(Some(p));
    assert SC.StringField(body, "niveau") == Ok(Some(n));
    assert SC.StringField(body, "semestre") == Ok(Some(se));
    assert SC.DateField(body, "dateD") == Ok(ParseIso(d).value);
    assert SC.DateField(body, "dateF") == Ok(ParseIso(f).value);
  }

  /** The trainer picked in the form plays no part in what the create endpoint stores. */
  lemma PickedTrainerIgnoredOnCreate(form: FormData)
    ensures SC.ReadNewSession(SubmitBody(form)) == SC.ReadNewSession(SubmitBody(form.(formateurId := Blank)))
  {
    BlankTrainerBody(form);
    TrainerKeyUnread(SubmitBody(form));
  }

  /** Dropping `formateurId` from a create body changes nothing the endpoint reads. */
  lemma TrainerKeyUnread(body: map<string, Json>)
    ensures SC.ReadNewSession(body - {"formateurId"}) == SC.ReadNewSession(body)
  {
    if "formateurId" in body {
      SC.CreateIgnoresOtherKeys(body - {"formateurId"}, "formateurId", body["formateurId"]);
      assert (body - {"formateurId"})["formateurId" := body["formateurId"]] == body;
    } else {
      assert body - {"formateurId"} == body;
    }
  }

  /** Clearing the trainer field only drops `formateurId` from the body. */
  lemma BlankTrainerBody(form: FormData)
    ensures SubmitBody(form.(formateurId := Blank)) == SubmitBody(form) - {"formateurId"}
  {
    var blank := form.(formateurId := Blank);
    var a, b := SubmitBody(blank), SubmitBody(form) - {"formateurId"};
    forall k
      ensures BodyField(blank, k) == if k == "formateurId" then None else BodyField(form, k)
    {
    }
    assert a.Keys == b.Keys;
    forall k | k in a
      ensures a[k] == b[k]
    {
    }
  }

  /** The session list the server answers, one map per session, is what the screen shows. */
  lemma ServerListIsShown(v: View, rs: seq<SessionRecord>, text: string)
    requires text != ""
    ensures SessionsLoaded(v, Received(Delivered(200, Some(JArr(SC.SessionSummaries(rs, true))), text))).sessions ==
      SC.SessionSummaries(rs, true)
  {
    var items := SC.SessionSummaries(rs, true);
    var f := Received(Delivered(200, Some(JArr(items)), text));
    ListReachesClient(200, Some(JArr(items)), text);
    assert JNull !in items by {
      forall j | j in items ensures j != JNull {
        var k :| 0 <= k < |items| && items[k] == j;
      }
    }
  }
}
