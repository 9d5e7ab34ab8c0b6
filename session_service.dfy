/**
 * `SessionService`: the training-session store. Every operation loads a managed `Session` entity
 * from the repository, changes it in place through its setters or its trainer set, and saves
 * it back; lookups that miss throw a `RuntimeException` with a fixed message.
 *
 * The session repository is the map `rows` with the identity generator `nextId`; the user
 * repository, which this service only reads, is the map `users` from id to user.
 */
module SessionService {
  import opened Common
  import opened Users
  import opened SessionEntity
  import opened SessionRepository

  /** The record `save` stores: a null trainer collection is stored as an empty one. */
  function Stored(r: SessionRecord): SessionRecord
  {
    r.(formateurs := Some(TrainersOf(r)))
  }

  /** `updateSession`'s seven setter calls: the descriptive fields and dates of `d` over `r`. */
  function WithDetails(r: SessionRecord, d: SessionRecord): (u: SessionRecord)
    ensures u.idSession == r.idSession && u.formateurs == r.formateurs
    ensures u.classe == d.classe && u.specialite == d.specialite && u.promotion == d.promotion
    ensures u.niveau == d.niveau && u.semestre == d.semestre && u.dateD == d.dateD && u.dateF == d.dateF
  {
    r.(classe := d.classe, specialite := d.specialite, promotion := d.promotion, niveau := d.niveau,
       semestre := d.semestre, dateD := d.dateD, dateF := d.dateF)
  }

  /** The table after trainer `u` was added to the set of session `sid`. */
  function Assigned(rows: map<int, SessionRecord>, sid: int, u: User): map<int, SessionRecord>
    requires sid in rows
  {
    rows[sid := rows[sid].(formateurs := Some(AddTrainer(TrainersOf(rows[sid]), u)))]
  }

  /** The table after the trainer with id `fid` was removed from the set of session `sid`. */
  function Unassigned(rows: map<int, SessionRecord>, sid: int, fid: int): map<int, SessionRecord>
    requires sid in rows
  {
    rows[sid := rows[sid].(formateurs := Some(RemoveTrainer(TrainersOf(rows[sid]), fid)))]
  }

  /** The table after the trainer set of session `sid` was cleared. */
  function Cleared(rows: map<int, SessionRecord>, sid: int): map<int, SessionRecord>
    requires sid in rows
  {
    rows[sid := rows[sid].(formateurs := Some([]))]
  }

  function SessionNotFoundWithId(id: int): Failure
  {
    Runtime("Session non trouvée avec l'ID: " + IntToDecimal(id))
  }

  const SessionNotFound: Failure := Runtime("Session non trouvée")
  const FormateurNotFound: Failure := Runtime("Formateur non trouvé")
  const FormateurNotAssigned: Failure := Runtime("Le formateur n'est pas assigné à cette session")

  function FormateurNotFoundWithId(id: int): Failure
  {
    Runtime("Formateur non trouvé avec l'ID: " + IntToDecimal(id))
  }

  class SessionService {
    var rows: map<int, SessionRecord>
    var users: map<int, User>
    var nextId: int

    ghost predicate Valid()
      reads this
    {
      WellFormed(rows, nextId) && nextId >= 1 && forall k :: k in users ==> users[k].id == k
    }

    constructor (users: map<int, User>)
      requires forall k :: k in users ==> users[k].id == k
      ensures Valid() && rows == map[] && nextId == 1 && this.users == users
    {
      rows, nextId := map[], 1;
      this.users := users;
    }

    /** `sessionRepository.findById(id)`: a new entity holding the stored row, or none. */
    method FindById(id: int) returns (s: Session?)
      requires Valid()
      ensures s == null <==> id !in rows
      ensures s != null ==> fresh(s) && s.Valid() && s.formateurs.Some? && s.Snapshot() == rows[id]
    {
      if id !in rows {
        return null;
      }
      var r := rows[id];
      s := new Session.WithFields(r.idSession, r.classe, r.specialite, r.promotion, r.niveau, r.semestre,
                                  r.dateD, r.dateF);
      s.SetFormateurs(r.formateurs);
    }

    /**
     * `sessionRepository.save(s)`: a new entity gets the next identity value and is inserted;
     * a loaded entity overwrites its row.
     */
    method Save(s: Session)
      requires Valid() && s.Valid()
      requires s.idSession.None? || s.idSession.value in rows
      modifies this, s
      ensures Valid() && users == old(users)
      ensures old(s.idSession).None? ==>
        nextId == old(nextId) + 1 &&
        s.Snapshot() == old(s.Snapshot()).(idSession := Some(old(nextId))) &&
        rows == old(rows)[old(nextId) := Stored(s.Snapshot())]
      ensures old(s.idSession).Some? ==>
        nextId == old(nextId) && s.Snapshot() == old(s.Snapshot()) &&
        rows == old(rows)[s.idSession.value := Stored(s.Snapshot())]
    {
      if s.idSession.None? {
        s.SetIdSession(Some(nextId));
        rows := rows[nextId := Stored(s.Snapshot())];
        nextId := nextId + 1;
      } else {
        rows := rows[s.idSession.value := Stored(s.Snapshot())];
      }
    }

    /** `createSession(session)`: stores a new session under a fresh id and returns it. */
    method CreateSession(s: Session) returns (saved: Session)
      requires Valid() && s.Valid() && s.idSession.None?
      modifies this, s
      ensures Valid() && users == old(users) && saved == s
      ensures old(nextId) !in old(rows) && nextId == old(nextId) + 1
      ensures s.Snapshot() == old(s.Snapshot()).(idSession := Some(old(nextId)))
      ensures rows == old(rows)[old(nextId) := Stored(s.Snapshot())]
    {
      Save(s);
      saved := s;
    }

    /** `getAllSessions()`: every stored session. */
    method GetAllSessions() returns (list: seq<SessionRecord>)
      requires Valid()
      ensures list == FindAll(rows, nextId)
      ensures forall r :: r in list <==> r in rows.Values
      ensures AscendingIds(list)
    {
      list := FindAll(rows, nextId);
    }

    /** `getSessionById(id)`: the stored session, or "Session non trouvée avec l'ID: id". */
    method GetSessionById(id: int) returns (r: Result<Session>)
      requires Valid()
      ensures r.Ok? <==> id in rows
      ensures r.Ok? ==> fresh(r.value) && r.value.Valid() && r.value.formateurs.Some? &&
                        r.value.Snapshot() == rows[id]
      ensures r.Err? ==> r.failure == SessionNotFoundWithId(id)
    {
      var s := FindById(id);
      if s == null {
        r := Err(SessionNotFoundWithId(id));
      } else {
        r := Ok(s);
      }
    }

    /**
     * `updateSession(id, details)`: overwrites the five descriptive fields and the two dates of
     * session `id` with those of `details`; its id and trainer set are kept.
     */
    method UpdateSession(id: int, details: Session) returns (r: Result<Session>)
      requires Valid()
      modifies this
      ensures Valid() && users == old(users) && nextId == old(nextId)
      ensures r.Ok? <==> id in old(rows)
      ensures r.Ok? ==>
        rows == old(rows)[id := WithDetails(old(rows[id]), details.Snapshot())] &&
        fresh(r.value) && r.value.Snapshot() == rows[id]
      ensures r.Err? ==> r.failure == SessionNotFoundWithId(id) && rows == old(rows)
    {
      var found := GetSessionById(id);
      if found.Err? {
        return Err(found.failure);
      }
      var s := found.value;
      s.SetClasse(details.classe);
      s.SetSpecialite(details.specialite);
      s.SetPromotion(details.promotion);
      s.SetNiveau(details.niveau);
      s.SetSemestre(details.semestre);
      s.SetDateD(details.dateD);
      s.SetDateF(details.dateF);
      Save(s);
      r := Ok(s);
    }

    /** `deleteSession(id)`: removes session `id`, or fails when there is none. */
    method DeleteSession(id: int) returns (r: Result<()>)
      requires Valid()
      modifies this
      ensures Valid() && users == old(users) && nextId == old(nextId)
      ensures r.Ok? <==> id in old(rows)
      ensures r.Ok? ==> rows == old(rows) - {id}
      ensures r.Err? ==> r.failure == SessionNotFoundWithId(id) && rows == old(rows)
    {
      var found := GetSessionById(id);
      if found.Err? {
        return Err(found.failure);
      }
      rows := rows - {id};
      r := Ok(());
    }

    /** `getSessionsByFormateur(f)`: the sessions trainer `f` is assigned to. */
    method GetSessionsByFormateur(f: int) returns (list: seq<SessionRecord>)
      requires Valid()
      ensures list == FindByFormateurId(rows, nextId, f)
      ensures forall r :: r in list <==> r in rows.Values && f in Ids(TrainersOf(r))
      ensures AscendingIds(list)
    {
      list := FindByFormateurId(rows, nextId, f);
    }

    /**
     * `assignerFormateur(sid, fid)`: adds user `fid` to the trainer set of session `sid`; fails
     * when the session, then the user, is missing.
     */
    method AssignerFormateur(sid: int, fid: int) returns (r: Result<Session>)
      requires Valid()
      modifies this
      ensures Valid() && users == old(users) && nextId == old(nextId)
      ensures sid !in old(rows) ==> r == Err(SessionNotFound) && rows == old(rows)
      ensures sid in old(rows) && fid !in users ==> r == Err(FormateurNotFound) && rows == old(rows)
      ensures sid in old(rows) && fid in users ==>
        r.Ok? && fresh(r.value) && rows == Assigned(old(rows), sid, users[fid]) &&
        r.value.Snapshot() == rows[sid]
    {
      var s := FindById(sid);
      if s == null {
        return Err(SessionNotFound);
      }
      if fid !in users {
        return Err(FormateurNotFound);
      }
      var _ := s.AddFormateur(users[fid]);
      Save(s);
      r := Ok(s);
    }

    /** `retirerFormateur(sid)`: empties the trainer set of session `sid`. */
    method RetirerFormateurs(sid: int) returns (r: Result<Session>)
      requires Valid()
      modifies this
      ensures Valid() && users == old(users) && nextId == old(nextId)
      ensures sid !in old(rows) ==> r == Err(SessionNotFound) && rows == old(rows)
      ensures sid in old(rows) ==>
        r.Ok? && fresh(r.value) && rows == Cleared(old(rows), sid) && r.value.Snapshot() == rows[sid]
    {
      var s := FindById(sid);
      if s == null {
        return Err(SessionNotFound);
      }
      s.ClearFormateurs();
      Save(s);
      r := Ok(s);
    }

    /**
     * `retirerFormateur(sid, fid)`: removes user `fid` from the trainer set of session `sid`;
     * fails when the session is missing, the user is unknown, or the user is not assigned.
     */
    method RetirerFormateur(sid: int, fid: int) returns (r: Result<Session>)
      requires Valid()
      modifies this
      ensures Valid() && users == old(users) && nextId == old(nextId)
      ensures r.Err? ==> rows == old(rows)
      ensures sid !in old(rows) ==> r == Err(SessionNotFoundWithId(sid))
      ensures sid in old(rows) && fid !in users ==> r == Err(FormateurNotFoundWithId(fid))
      ensures sid in old(rows) && fid in users && fid !in Ids(TrainersOf(old(rows[sid]))) ==>
        r == Err(FormateurNotAssigned)
      ensures sid in old(rows) && fid in users && fid in Ids(TrainersOf(old(rows[sid]))) ==>
        r.Ok? && fresh(r.value) && rows == Unassigned(old(rows), sid, fid) &&
        r.value.Snapshot() == rows[sid]
    {
      var found := GetSessionById(sid);
      if found.Err? {
        return Err(found.failure);
      }
      var s := found.value;
      if fid in users {
        if !s.HasFormateur(users[fid].id) {
          return Err(FormateurNotAssigned);
        }
        var _ := s.RemoveFormateur(users[fid].id);
        Save(s);
        r := Ok(s);
      } else {
        r := Err(FormateurNotFoundWithId(fid));
      }
    }

    /**
     * `isFormateurInSession(sid, fid)`: whether some trainer of session `sid` has id `fid`;
     * fails when the session is missing. It agrees with the repository's check query.
     */
    method IsFormateurInSession(sid: int, fid: int) returns (r: Result<bool>)
      requires Valid()
      ensures sid !in rows ==> r == Err(SessionNotFound)
      ensures sid in rows ==> r.Ok? && (r.value <==> exists u :: u in TrainersOf(rows[sid]) && u.id == fid)
      ensures r.Ok? ==> r.value == SessionRepository.IsFormateurInSession(rows, sid, fid)
    {
      var s := FindById(sid);
      if s == null {
        return Err(SessionNotFound);
      }
      r := Ok(AnyHasId(s.formateurs.value, fid));
    }
  }

  /** Assigning a trainer not yet in a session and then removing it gives the table back. */
  lemma AssignThenRemoveRestores(rows: map<int, SessionRecord>, nextId: int, sid: int, u: User)
    requires WellFormed(rows, nextId) && sid in rows
    requires u.id !in Ids(TrainersOf(rows[sid]))
    ensures Unassigned(Assigned(rows, sid, u), sid, u.id) == rows
  {
    RemoveAfterAdd(TrainersOf(rows[sid]), u);
    assert Unassigned(Assigned(rows, sid, u), sid, u.id)[sid] == rows[sid];
  }

  /** Assigning the same trainer twice leaves the table as assigning it once. */
  lemma AssignTwiceIsAssignOnce(rows: map<int, SessionRecord>, sid: int, u: User)
    requires sid in rows
    ensures Assigned(Assigned(rows, sid, u), sid, u) == Assigned(rows, sid, u)
  {
    AddTrainerIdempotent(TrainersOf(rows[sid]), u);
  }

  /**
   * After an assignment the session is found for that trainer, and what every other trainer
   * finds about every other session is unchanged.
   */
  lemma AssignedIsFound(rows: map<int, SessionRecord>, nextId: int, sid: int, u: User)
    requires WellFormed(rows, nextId) && sid in rows
    ensures WellFormed(Assigned(rows, sid, u), nextId)
    ensures SessionRepository.IsFormateurInSession(Assigned(rows, sid, u), sid, u.id)
    ensures Assigned(rows, sid, u)[sid] in FindByFormateurId(Assigned(rows, sid, u), nextId, u.id)
    ensures forall k, f :: k != sid ==>
      SessionRepository.IsFormateurInSession(Assigned(rows, sid, u), k, f) ==
      SessionRepository.IsFormateurInSession(rows, k, f)
  {
    var after := Assigned(rows, sid, u);
    assert after[sid] in after.Values;
  }

  /** After the trainer set of a session is cleared, no trainer query returns that session. */
  lemma ClearedIsNeverFound(rows: map<int, SessionRecord>, nextId: int, sid: int, f: int)
    requires WellFormed(rows, nextId) && sid in rows
    ensures WellFormed(Cleared(rows, sid), nextId)
    ensures forall r :: r in FindByFormateurId(Cleared(rows, sid), nextId, f) ==> r.idSession != Some(sid)
  {
    var after := Cleared(rows, sid);
    forall r | r in FindByFormateurId(after, nextId, f) ensures r.idSession != Some(sid) {
      var k :| k in after && after[k] == r;
    }
  }

  /** The trainers of a set, one id after the other, in the set's order. */
  function IdList(ts: seq<User>): (ids: seq<int>)
    ensures |ids| == |ts| && forall i :: 0 <= i < |ts| ==> ids[i] == ts[i].id
  {
    if ts == [] then [] else [ts[0].id] + IdList(ts[1..])
  }

  /** Removing the trainers with ids `ids`, one after the other. */
  function RemoveAll(ts: seq<User>, ids: seq<int>): seq<User>
    decreases ids
  {
    if ids == [] then ts else RemoveAll(RemoveTrainer(ts, ids[0]), ids[1..])
  }

  /** Removing every listed trainer of a session, one at a time, leaves its trainer set empty. */
  lemma {:induction false} RemovingEveryTrainerEmpties(ts: seq<User>)
    requires DistinctIds(ts)
    ensures RemoveAll(ts, IdList(ts)) == []
    decreases ts
  {
    if ts != [] {
      DistinctIdsOfCons(ts[0], ts[1..]);
      assert ts == [ts[0]] + ts[1..];
      assert RemoveTrainer(ts, ts[0].id) == ts[1..];
      assert IdList(ts)[1..] == IdList(ts[1..]);
      RemovingEveryTrainerEmpties(ts[1..]);
    }
  }

  /** Deleting a session removes it from the list every later `findAll` returns. */
  lemma DeletedIsNotListed(rows: map<int, SessionRecord>, nextId: int, sid: int)
    requires WellFormed(rows, nextId)
    ensures WellFormed(rows - {sid}, nextId)
    ensures forall r :: r in FindAll(rows - {sid}, nextId) ==> r.idSession != Some(sid)
  {
    var after := rows - {sid};
    forall r | r in FindAll(after, nextId) ensures r.idSession != Some(sid) {
      var k :| k in after && after[k] == r;
    }
  }
}
