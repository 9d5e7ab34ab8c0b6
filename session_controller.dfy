/**
 * `SessionController`, the REST front of the session store under `/api/sessions`. Each handler
 * calls the service inside a try/catch and turns the outcome into a status code; the two list
 * handlers project every session into a JSON map built field by field.
 */
module SessionController {
  import opened Common
  import opened JsonValues
  import opened Dates
  import opened Users
  import opened SessionEntity
  import opened SessionRepository
  import opened SessionService
  import opened Http

  /** `date != null ? date.toString() : null`: absent dates are null, present ones their ISO text. */
  function DateText(d: Option<LocalDate>): (j: Json)
    ensures j.JNull? <==> d.None?
    ensures d.Some? ==> j.JStr?
  {
    if d.Some? then JStr(ToIso(d.value)) else JNull
  }

  /** A listed date's text reads back as the same date. */
  lemma DateTextReadsBack(d: Option<LocalDate>)
    ensures d.Some? ==> ParseIso(DateText(d).s) == d
  {
    if d.Some? {
      ParseOfToIso(d.value);
    }
  }

  /** The `{id, firstName, lastName, email}` map built for each trainer of a session. */
  function TrainerSummary(u: User): (j: Json)
    ensures j.JObj? && j.fields.Keys == {"id", "firstName", "lastName", "email"}
    ensures j.fields["id"] == JNum(u.id) && j.fields["email"] == Text(u.email)
    ensures j.fields["firstName"] == Text(u.firstName) && j.fields["lastName"] == Text(u.lastName)
  {
    JObj(map["id" := JNum(u.id), "firstName" := Text(u.firstName), "lastName" := Text(u.lastName),
             "email" := Text(u.email)])
  }

  /** The trainer stream mapped to summaries: one per trainer, in the set's order. */
  function TrainerSummaries(ts: seq<User>): (js: seq<Json>)
    ensures |js| == |ts|
    ensures forall i :: 0 <= i < |ts| ==> js[i] == TrainerSummary(ts[i])
    decreases ts
  {
    if ts == [] then [] else [TrainerSummary(ts[0])] + TrainerSummaries(ts[1..])
  }

  /** The keys every session map carries. */
  const BaseKeys: set<string> :=
    {"idSession", "classe", "specialite", "promotion", "niveau", "semestre", "dateD", "dateF"}

  /** The fields every session map carries: its id, five strings and two dates. */
  function BaseFields(r: SessionRecord): (m: map<string, Json>)
    ensures m.Keys == BaseKeys
    ensures m["idSession"] == (if r.idSession.Some? then JNum(r.idSession.value) else JNull)
    ensures m["classe"] == Text(r.classe) && m["specialite"] == Text(r.specialite)
    ensures m["promotion"] == Text(r.promotion) && m["niveau"] == Text(r.niveau)
    ensures m["semestre"] == Text(r.semestre)
    ensures m["dateD"] == DateText(r.dateD) && m["dateF"] == DateText(r.dateF)
  {
    map[
      "idSession" := (if r.idSession.Some? then JNum(r.idSession.value) else JNull),
      "classe" := Text(r.classe), "specialite" := Text(r.specialite), "promotion" := Text(r.promotion),
      "niveau" := Text(r.niveau), "semestre" := Text(r.semestre),
      "dateD" := DateText(r.dateD), "dateF" := DateText(r.dateF)]
  }

  /**
   * The map built for a session: its base fields; with `withTrainers`, also the trainer
   * summaries, an empty list when the set is null.
   */
  function SessionSummary(r: SessionRecord, withTrainers: bool): (j: Json)
    ensures j.JObj?
    ensures j.fields.Keys == if withTrainers then BaseKeys + {"formateurs"} else BaseKeys
    ensures j.fields["idSession"] == (if r.idSession.Some? then JNum(r.idSession.value) else JNull)
    ensures j.fields["classe"] == Text(r.classe) && j.fields["specialite"] == Text(r.specialite)
    ensures j.fields["promotion"] == Text(r.promotion) && j.fields["niveau"] == Text(r.niveau)
    ensures j.fields["semestre"] == Text(r.semestre)
    ensures j.fields["dateD"] == DateText(r.dateD) && j.fields["dateF"] == DateText(r.dateF)
    ensures withTrainers ==> j.fields["formateurs"] == JArr(TrainerSummaries(TrainersOf(r)))
  {
    var base := BaseFields(r);
    if withTrainers then JObj(base["formateurs" := JArr(TrainerSummaries(TrainersOf(r)))])
    else JObj(base)
  }

  /** The stream of sessions mapped to their summaries, in order. */
  function SessionSummaries(rs: seq<SessionRecord>, withTrainers: bool): (js: seq<Json>)
    ensures |js| == |rs|
    ensures forall i :: 0 <= i < |rs| ==> js[i] == SessionSummary(rs[i], withTrainers)
    decreases rs
  {
    if rs == [] then [] else [SessionSummary(rs[0], withTrainers)] + SessionSummaries(rs[1..], withTrainers)
  }

  /** A session summary lists exactly as many trainers as the session has, a null set as none. */
  lemma SummaryListsEveryTrainer(r: SessionRecord)
    ensures |SessionSummary(r, true).fields["formateurs"].items| == |TrainersOf(r)|
    ensures r.formateurs.None? ==> SessionSummary(r, true).fields["formateurs"] == JArr([])
  {
  }

  /** A summary built without trainers has no `formateurs` key at all. */
  lemma NoTrainersKey(r: SessionRecord)
    ensures "formateurs" !in SessionSummary(r, false).fields
  {
    assert "formateurs" !in BaseKeys;
  }

  /** `(String) body.get(key)`: absent or null gives null, a non-string fails the cast. */
  function StringField(body: map<string, Json>, key: string): (r: Result<Option<string>>)
    ensures r.Ok? <==> key !in body || body[key].JNull? || body[key].JStr?
    ensures r.Ok? && r.value.Some? ==> key in body && body[key] == JStr(r.value.value)
    ensures r.Ok? && r.value.None? ==> key !in body || body[key].JNull?
  {
    if key !in body || body[key].JNull? then Ok(None)
    else if body[key].JStr? then Ok(Some(body[key].s))
    else Err(Runtime("ClassCastException"))
  }

  /** `LocalDate.parse((String) body.get(key))`: a null text and an unparseable text both fail. */
  function DateField(body: map<string, Json>, key: string): (r: Result<LocalDate>)
    ensures r.Ok? <==> key in body && body[key].JStr? && ParseIso(body[key].s).Some?
    ensures r.Ok? ==> Some(r.value) == ParseIso(body[key].s)
  {
    match StringField(body, key)
    case Err(f) => Err(f)
    case Ok(None) => Err(Runtime("NullPointerException"))
    case Ok(Some(t)) =>
      match ParseIso(t)
      case None => Err(Runtime("DateTimeParseException"))
      case Some(d) => Ok(d)
  }

  /** The seven values `createSession` reads from the request body, in the order it reads them. */
  datatype NewSession = NewSession(
    classe: Option<string>, specialite: Option<string>, promotion: Option<string>,
    niveau: Option<string>, semestre: Option<string>, dateD: LocalDate, dateF: LocalDate)

  /**
   * The body of a create request read into the new session's fields; no other key is looked at.
   * It is accepted iff the five text fields are each absent, null or a string, and both dates are
   * strings that parse.
   */
  function ReadNewSession(body: map<string, Json>): (r: Result<NewSession>)
    ensures r.Ok? <==>
      (forall k :: k in ["classe", "specialite", "promotion", "niveau", "semestre"] ==>
         StringField(body, k).Ok?) &&
      DateField(body, "dateD").Ok? && DateField(body, "dateF").Ok?
    ensures r.Ok? ==>
      Some(r.value.dateD) == ParseIso(body["dateD"].s) && Some(r.value.dateF) == ParseIso(body["dateF"].s)
  {
    var c, sp, p, n, se := StringField(body, "classe"), StringField(body, "specialite"),
      StringField(body, "promotion"), StringField(body, "niveau"), StringField(body, "semestre");
    var dd, df := DateField(body, "dateD"), DateField(body, "dateF");
    if c.Err? then Err(c.failure)
    else if sp.Err? then Err(sp.failure)
    else if p.Err? then Err(p.failure)
    else if n.Err? then Err(n.failure)
    else if se.Err? then Err(se.failure)
    else if dd.Err? then Err(dd.failure)
    else if df.Err? then Err(df.failure)
    else Ok(NewSession(c.value, sp.value, p.value, n.value, se.value, dd.value, df.value))
  }

  /** Reading one key is unaffected by a write to another key. */
  lemma OtherKeyUnread(body: map<string, Json>, key: string, v: Json, k: string)
    requires k != key
    ensures StringField(body[key := v], k) == StringField(body, k)
    ensures DateField(body[key := v], k) == DateField(body, k)
  {
  }

  /** A `formateurId` (or any key other than the seven fields) in the create body changes nothing. */
  lemma CreateIgnoresOtherKeys(body: map<string, Json>, key: string, v: Json)
    requires key != "classe" && key != "specialite" && key != "promotion" && key != "niveau"
    requires key != "semestre" && key != "dateD" && key != "dateF"
    ensures ReadNewSession(body[key := v]) == ReadNewSession(body)
  {
    OtherKeyUnread(body, key, v, "classe");
    OtherKeyUnread(body, key, v, "specialite");
    OtherKeyUnread(body, key, v, "promotion");
    OtherKeyUnread(body, key, v, "niveau");
    OtherKeyUnread(body, key, v, "semestre");
    OtherKeyUnread(body, key, v, "dateD");
    OtherKeyUnread(body, key, v, "dateF");
  }

  /**
   * A created session's dates are listed back as exactly the text the client sent, unless that
   * text wrote its year with leading zeros `toString()` does not print.
   */
  lemma CreatedDatesEchoed(body: map<string, Json>)
    requires ReadNewSession(body).Ok?
    ensures DateText(Some(ReadNewSession(body).value.dateD)) == body["dateD"] <==>
      CanonicalYear(YearPart(body["dateD"].s))
    ensures DateText(Some(ReadNewSession(body).value.dateF)) == body["dateF"] <==>
      CanonicalYear(YearPart(body["dateF"].s))
  {
    ToIsoOfParse(body["dateD"].s);
    ToIsoOfParse(body["dateF"].s);
  }

  class SessionController {
    const service: SessionService

    constructor (service: SessionService)
      ensures this.service == service
    {
      this.service := service;
    }

    /**
     * `GET /api/sessions`: 200 with one summary, trainers included, per stored session; 500 with
     * a null body when reading the store throws (the input `repoFails`).
     */
    method GetAllSessions(repoFails: bool) returns (resp: Response<Json>)
      requires service.Valid()
      ensures repoFails ==> resp == Response(INTERNAL_SERVER_ERROR, None)
      ensures !repoFails ==> (resp.status == OK && resp.body.Some? && resp.body.value.JArr? &&
        resp.body.value.items == SessionSummaries(FindAll(service.rows, service.nextId), true))
      ensures !repoFails ==> (resp.body.Some? && resp.body.value.JArr? &&
        forall j :: j in resp.body.value.items <==>
          exists r :: r in service.rows.Values && j == SessionSummary(r, true))
    {
      if repoFails {
        return Response(INTERNAL_SERVER_ERROR, None);
      }
      var sessions := service.GetAllSessions();
      var formatted := SessionSummaries(sessions, true);
      forall j | j in formatted
        ensures exists r :: r in service.rows.Values && j == SessionSummary(r, true)
      {
        var i :| 0 <= i < |formatted| && formatted[i] == j;
        assert sessions[i] in sessions;
      }
      forall r | r in service.rows.Values ensures SessionSummary(r, true) in formatted {
        var i :| 0 <= i < |sessions| && sessions[i] == r;
        assert formatted[i] == SessionSummary(r, true);
      }
      resp := Response(OK, Some(JArr(formatted)));
    }

    /** `GET /api/sessions/{id}`: 200 with the session, 404 when the service throws. */
    method GetSessionById(id: int) returns (resp: Response<SessionRecord>)
      requires service.Valid()
      ensures resp.status == OK <==> id in service.rows
      ensures resp.status == OK ==> resp.body == Some(service.rows[id])
      ensures resp.status != OK ==> resp == Response(NOT_FOUND, None)
    {
      var r := service.GetSessionById(id);
      if r.Ok? {
        resp := Response(OK, Some(r.value.Snapshot()));
      } else {
        resp := MapOutcome<SessionRecord>(Err(r.failure), OK, NOT_FOUND);
      }
    }

    /**
     * `POST /api/sessions`: reads the body into a new session, stores it and answers 201 with
     * it; a cast or date-parse failure answers 500 and stores nothing.
     */
    method CreateSession(body: map<string, Json>) returns (resp: Response<SessionRecord>)
      requires service.Valid()
      modifies service
      ensures service.Valid() && service.users == old(service.users)
      ensures resp.status == CREATED <==> ReadNewSession(body).Ok?
      ensures resp.status != CREATED ==>
        resp == Response(INTERNAL_SERVER_ERROR, None) && service.rows == old(service.rows) &&
        service.nextId == old(service.nextId)
      ensures resp.status == CREATED ==>
        var n := ReadNewSession(body).value;
        var stored := SessionRecord(Some(old(service.nextId)), n.classe, n.specialite, n.promotion,
                                    n.niveau, n.semestre, Some(n.dateD), Some(n.dateF), Some([]));
        service.rows == old(service.rows)[old(service.nextId) := stored] &&
        service.nextId == old(service.nextId) + 1 && resp.body == Some(stored)
    {
      var read := ReadNewSession(body);
      if read.Err? {
        return Response(INTERNAL_SERVER_ERROR, None);
      }
      var n := read.value;
      var s := new Session();
      s.SetClasse(n.classe);
      s.SetSpecialite(n.specialite);
      s.SetPromotion(n.promotion);
      s.SetNiveau(n.niveau);
      s.SetSemestre(n.semestre);
      s.SetDateD(Some(n.dateD));
      s.SetDateF(Some(n.dateF));
      var saved := service.CreateSession(s);
      resp := Response(CREATED, Some(saved.Snapshot()));
    }

    /** `PUT /api/sessions/{id}`: 200 with the updated session, 404 when there is none. */
    method UpdateSession(id: int, details: Session) returns (resp: Response<SessionRecord>)
      requires service.Valid()
      modifies service
      ensures service.Valid() && service.users == old(service.users) && service.nextId == old(service.nextId)
      ensures resp.status == OK <==> id in old(service.rows)
      ensures resp.status == OK ==>
        service.rows == old(service.rows)[id := WithDetails(old(service.rows[id]), details.Snapshot())] &&
        resp.body == Some(service.rows[id])
      ensures resp.status != OK ==> resp == Response(NOT_FOUND, None) && service.rows == old(service.rows)
    {
      var r := service.UpdateSession(id, details);
      if r.Ok? {
        resp := Response(OK, Some(r.value.Snapshot()));
      } else {
        resp := MapOutcome<SessionRecord>(Err(r.failure), OK, NOT_FOUND);
      }
    }

    /** `DELETE /api/sessions/{id}`: 204 once the session is removed, 404 when there is none. */
    method DeleteSession(id: int) returns (resp: Response<()>)
      requires service.Valid()
      modifies service
      ensures service.Valid() && service.users == old(service.users) && service.nextId == old(service.nextId)
      ensures resp.body.None?
      ensures resp.status == NO_CONTENT <==> id in old(service.rows)
      ensures resp.status == NO_CONTENT ==> service.rows == old(service.rows) - {id}
      ensures resp.status != NO_CONTENT ==> resp.status == NOT_FOUND && service.rows == old(service.rows)
    {
      var r := service.DeleteSession(id);
      var mapped := MapOutcome(r, NO_CONTENT, NOT_FOUND);
      resp := Response(mapped.status, None);
    }

    /**
     * `GET /api/sessions/formateur/{f}`: 200 with a summary, without trainers, per session of
     * `f`; 500 with a null body when the query throws (the input `repoFails`).
     */
    method GetSessionsByFormateur(f: int, repoFails: bool) returns (resp: Response<Json>)
      requires service.Valid()
      ensures repoFails ==> resp == Response(INTERNAL_SERVER_ERROR, None)
      ensures !repoFails ==> (resp.status == OK && resp.body.Some? && resp.body.value.JArr? &&
        resp.body.value.items == SessionSummaries(FindByFormateurId(service.rows, service.nextId, f), false))
      ensures !repoFails ==> (resp.body.Some? && resp.body.value.JArr? &&
        forall j :: j in resp.body.value.items ==> j.JObj? && "formateurs" !in j.fields)
    {
      if repoFails {
        return Response(INTERNAL_SERVER_ERROR, None);
      }
      var sessions := service.GetSessionsByFormateur(f);
      var formatted := SessionSummaries(sessions, false);
      forall i | 0 <= i < |formatted| ensures formatted[i].JObj? && "formateurs" !in formatted[i].fields {
        NoTrainersKey(sessions[i]);
      }
      resp := Response(OK, Some(JArr(formatted)));
    }

    /**
     * `POST /api/sessions/{sid}/affecter` with body `{formateurId}`: 200 with the session, 400
     * when the session or the user is missing. A missing `formateurId` reaches the user lookup
     * as null, which the repository rejects with a runtime exception.
     */
    method AffecterFormateur(sid: int, formateurId: Option<int>) returns (resp: Response<SessionRecord>)
      requires service.Valid()
      modifies service
      ensures service.Valid() && service.users == old(service.users) && service.nextId == old(service.nextId)
      ensures resp.status == OK <==> sid in old(service.rows) && formateurId.Some? && formateurId.value in service.users
      ensures resp.status == OK ==>
        service.rows == Assigned(old(service.rows), sid, service.users[formateurId.value]) &&
        resp.body == Some(service.rows[sid])
      ensures resp.status != OK ==> resp == Response(BAD_REQUEST, None) && service.rows == old(service.rows)
    {
      if formateurId.None? {
        return Response(BAD_REQUEST, None);
      }
      var r := service.AssignerFormateur(sid, formateurId.value);
      if r.Ok? {
        resp := Response(OK, Some(r.value.Snapshot()));
      } else {
        resp := MapOutcome<SessionRecord>(Err(r.failure), OK, BAD_REQUEST);
      }
    }

    /** `DELETE /api/sessions/{sid}/retirer/{fid}`: 200 with the session, 400 when the service refuses. */
    method RetirerFormateur(sid: int, fid: int) returns (resp: Response<SessionRecord>)
      requires service.Valid()
      modifies service
      ensures service.Valid() && service.users == old(service.users) && service.nextId == old(service.nextId)
      ensures resp.status == OK <==>
        sid in old(service.rows) && fid in service.users && fid in Ids(TrainersOf(old(service.rows[sid])))
      ensures resp.status == OK ==>
        service.rows == Unassigned(old(service.rows), sid, fid) && resp.body == Some(service.rows[sid])
      ensures resp.status != OK ==> resp == Response(BAD_REQUEST, None) && service.rows == old(service.rows)
    {
      var r := service.RetirerFormateur(sid, fid);
      if r.Ok? {
        resp := Response(OK, Some(r.value.Snapshot()));
      } else {
        resp := MapOutcome<SessionRecord>(Err(r.failure), OK, BAD_REQUEST);
      }
    }

    /** `GET /api/sessions/{sid}/check-formateur/{fid}`: 200 with the answer, 500 with `false` on error. */
    method IsFormateurInSession(sid: int, fid: int) returns (resp: Response<bool>)
      requires service.Valid()
      ensures resp.status == OK <==> sid in service.rows
      ensures resp.status != OK ==> resp == Response(INTERNAL_SERVER_ERROR, Some(false))
      ensures resp.status == OK ==>
        resp.body == Some(SessionRepository.IsFormateurInSession(service.rows, sid, fid))
    {
      var r := service.IsFormateurInSession(sid, fid);
      if r.Ok? {
        resp := Response(OK, Some(r.value));
      } else {
        resp := Response(INTERNAL_SERVER_ERROR, Some(false));
      }
    }
  }
}
