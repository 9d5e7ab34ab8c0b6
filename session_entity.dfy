/**
 * The `Session` JPA entity: a training session with five descriptive strings, a start and an
 * end date, and a set of assigned trainers. The entity is a mutable object; its setters
 * overwrite one field each, and callers change its trainer set in place through
 * `getFormateurs().add/remove/clear`.
 *
 * The trainer `Set<User>` is a sequence of users without two equal ids (users are identified by
 * their id); the order of the sequence stands for the set's iteration order, which the source
 * leaves unspecified.
 */
module SessionEntity {
  import opened Common
  import opened Dates
  import opened Users

  /** `formateurs.add(u)`: adds `u` unless a trainer with the same id is already there. */
  function AddTrainer(ts: seq<User>, u: User): (r: seq<User>)
    ensures Ids(r) == Ids(ts) + {u.id}
    ensures DistinctIds(ts) ==> DistinctIds(r)
    ensures u.id in Ids(ts) ==> r == ts
    ensures forall v :: v in ts ==> v in r
  {
    if u.id in Ids(ts) then ts else ts + [u]
  }

  /** `formateurs.remove(u)` for the user with id `id`: drops that trainer, keeps the rest in order. */
  function RemoveTrainer(ts: seq<User>, id: int): (r: seq<User>)
    ensures Ids(r) == Ids(ts) - {id}
    ensures forall v :: v in r ==> v in ts
    ensures DistinctIds(ts) ==> DistinctIds(r)
    ensures id !in Ids(ts) ==> r == ts
    decreases ts
  {
    if ts == [] then []
    else
      var rest := RemoveTrainer(ts[1..], id);
      IdsOfCons(ts[0], ts[1..]);
      DistinctIdsOfCons(ts[0], ts[1..]);
      assert ts == [ts[0]] + ts[1..];
      if ts[0].id == id then rest
      else
        IdsOfCons(ts[0], rest);
        DistinctIdsOfCons(ts[0], rest);
        [ts[0]] + rest
  }

  /** `formateurs.stream().anyMatch(f -> f.getId().equals(id))`. */
  function AnyHasId(ts: seq<User>, id: int): (b: bool)
    ensures b <==> id in Ids(ts)
    decreases ts
  {
    if ts == [] then false
    else ts[0].id == id || AnyHasId(ts[1..], id)
  }

  /** Removing a trainer from a set extended with a trainer with a fresh id gives the set back. */
  lemma {:induction false} RemoveAfterAdd(ts: seq<User>, u: User)
    requires u.id !in Ids(ts)
    ensures RemoveTrainer(AddTrainer(ts, u), u.id) == ts
  {
    assert AddTrainer(ts, u) == ts + [u];
    RemoveAppendFresh(ts, u);
  }

  lemma {:induction false} RemoveAppendFresh(ts: seq<User>, u: User)
    requires u.id !in Ids(ts)
    ensures RemoveTrainer(ts + [u], u.id) == ts
    decreases ts
  {
    if ts == [] {
      assert [u][1..] == [];
    } else {
      assert (ts + [u])[1..] == ts[1..] + [u];
      assert ts[0] in ts;
      assert Ids(ts[1..]) <= Ids(ts) by {
        forall v | v in ts[1..] ensures v in ts { }
      }
      RemoveAppendFresh(ts[1..], u);
      assert ts == [ts[0]] + ts[1..];
    }
  }

  /** Adding a trainer twice is the same as adding it once: the collection is a set. */
  lemma AddTrainerIdempotent(ts: seq<User>, u: User)
    ensures AddTrainer(AddTrainer(ts, u), u) == AddTrainer(ts, u)
  {
  }

  /** A value snapshot of every field of a `Session` object. */
  datatype SessionRecord = SessionRecord(
    idSession: Option<int>,
    classe: Option<string>,
    specialite: Option<string>,
    promotion: Option<string>,
    niveau: Option<string>,
    semestre: Option<string>,
    dateD: Option<LocalDate>,
    dateF: Option<LocalDate>,
    formateurs: Option<seq<User>>)

  /** A trainer collection, when present, never holds the same trainer twice. */
  predicate TrainerSetOk(f: Option<seq<User>>)
  {
    f.Some? ==> DistinctIds(f.value)
  }

  /** The trainers of a record, with a null collection read as no trainers. */
  function TrainersOf(r: SessionRecord): seq<User>
  {
    if r.formateurs.Some? then r.formateurs.value else []
  }

  class Session {
    var idSession: Option<int>
    var classe: Option<string>
    var specialite: Option<string>
    var promotion: Option<string>
    var niveau: Option<string>
    var semestre: Option<string>
    var dateD: Option<LocalDate>
    var dateF: Option<LocalDate>
    var formateurs: Option<seq<User>>

    predicate Valid()
      reads this
    {
      TrainerSetOk(formateurs)
    }

    function Snapshot(): SessionRecord
      reads this
    {
      SessionRecord(idSession, classe, specialite, promotion, niveau, semestre, dateD, dateF, formateurs)
    }

    /** `new Session()`: every field null except the trainer set, which starts empty. */
    constructor ()
      ensures Valid()
      ensures Snapshot() == SessionRecord(None, None, None, None, None, None, None, None, Some([]))
    {
      idSession, classe, specialite, promotion := None, None, None, None;
      niveau, semestre, dateD, dateF := None, None, None, None;
      formateurs := Some([]);
    }

    /** The eight-argument constructor: the given values, and an empty trainer set. */
    constructor WithFields(idSession: Option<int>, classe: Option<string>, specialite: Option<string>,
                           promotion: Option<string>, niveau: Option<string>, semestre: Option<string>,
                           dateD: Option<LocalDate>, dateF: Option<LocalDate>)
      ensures Valid()
      ensures Snapshot() ==
        SessionRecord(idSession, classe, specialite, promotion, niveau, semestre, dateD, dateF, Some([]))
    {
      this.idSession, this.classe, this.specialite, this.promotion := idSession, classe, specialite, promotion;
      this.niveau, this.semestre, this.dateD, this.dateF := niveau, semestre, dateD, dateF;
      this.formateurs := Some([]);
    }

    method SetIdSession(v: Option<int>)
      modifies this
      ensures idSession == v && Snapshot() == old(Snapshot()).(idSession := v)
    {
      idSession := v;
    }

    method SetClasse(v: Option<string>)
      modifies this
      ensures classe == v && Snapshot() == old(Snapshot()).(classe := v)
    {
      classe := v;
    }

    method SetSpecialite(v: Option<string>)
      modifies this
      ensures specialite == v && Snapshot() == old(Snapshot()).(specialite := v)
    {
      specialite := v;
    }

    method SetPromotion(v: Option<string>)
      modifies this
      ensures promotion == v && Snapshot() == old(Snapshot()).(promotion := v)
    {
      promotion := v;
    }

    method SetNiveau(v: Option<string>)
      modifies this
      ensures niveau == v && Snapshot() == old(Snapshot()).(niveau := v)
    {
      niveau := v;
    }

    method SetSemestre(v: Option<string>)
      modifies this
      ensures semestre == v && Snapshot() == old(Snapshot()).(semestre := v)
    {
      semestre := v;
    }

    method SetDateD(v: Option<LocalDate>)
      modifies this
      ensures dateD == v && Snapshot() == old(Snapshot()).(dateD := v)
    {
      dateD := v;
    }

    method SetDateF(v: Option<LocalDate>)
      modifies this
      ensures dateF == v && Snapshot() == old(Snapshot()).(dateF := v)
    {
      dateF := v;
    }

    /** `setFormateurs(v)`: a Java `Set` never holds the same trainer twice. */
    method SetFormateurs(v: Option<seq<User>>)
      requires TrainerSetOk(v)
      modifies this
      ensures Valid()
      ensures formateurs == v && Snapshot() == old(Snapshot()).(formateurs := v)
    {
      formateurs := v;
    }

    /**
     * `getFormateurs().add(u)`. The collection is present on every entity a constructor built or
     * the repository loaded, which are the only ones the service changes.
     */
    method AddFormateur(u: User) returns (added: bool)
      requires Valid() && formateurs.Some?
      modifies this
      ensures Valid() && formateurs.Some?
      ensures added <==> u.id !in Ids(old(formateurs.value))
      ensures u.id in Ids(formateurs.value)
      ensures Snapshot() == old(Snapshot()).(formateurs := Some(AddTrainer(old(formateurs.value), u)))
    {
      added := u.id !in Ids(formateurs.value);
      formateurs := Some(AddTrainer(formateurs.value, u));
    }

    /** `getFormateurs().remove(u)` for the user with id `id`. */
    method RemoveFormateur(id: int) returns (removed: bool)
      requires Valid() && formateurs.Some?
      modifies this
      ensures Valid() && formateurs.Some?
      ensures removed <==> id in Ids(old(formateurs.value))
      ensures id !in Ids(formateurs.value)
      ensures Snapshot() == old(Snapshot()).(formateurs := Some(RemoveTrainer(old(formateurs.value), id)))
    {
      removed := id in Ids(formateurs.value);
      formateurs := Some(RemoveTrainer(formateurs.value, id));
    }

    /** `getFormateurs().clear()`. */
    method ClearFormateurs()
      requires formateurs.Some?
      modifies this
      ensures Valid()
      ensures Snapshot() == old(Snapshot()).(formateurs := Some([]))
    {
      formateurs := Some([]);
    }

    /** `getFormateurs().contains(u)` for the user with id `id`. */
    function HasFormateur(id: int): (b: bool)
      reads this
      requires formateurs.Some?
      ensures b <==> exists i :: 0 <= i < |formateurs.value| && formateurs.value[i].id == id
    {
      assert forall v :: v in formateurs.value <==> exists i :: 0 <= i < |formateurs.value| && formateurs.value[i] == v;
      id in Ids(formateurs.value)
    }
  }
}
