/**
 * The session table behind `SessionRepository` and the two declarative queries it adds to the
 * inherited `findAll`/`findById`. The table is a finite map from session id to the stored
 * record; `findAll` and `findByFormateurId` list rows by ascending id (the source leaves the
 * order unspecified; with identity ids this is creation order).
 */
module SessionRepository {
  import opened Common
  import opened Users
  import opened SessionEntity

  /**
   * What the table holds: each row is stored under its own id, ids come from the identity
   * generator (from 1, below `nextId`), and every stored trainer collection is a present set.
   */
  predicate WellFormed(rows: map<int, SessionRecord>, nextId: int)
  {
    forall k :: k in rows ==>
      1 <= k < nextId && rows[k].idSession == Some(k) &&
      rows[k].formateurs.Some? && DistinctIds(rows[k].formateurs.value)
  }

  /** Ids of stored records go up strictly along the sequence. */
  predicate AscendingIds(rs: seq<SessionRecord>)
  {
    (forall i :: 0 <= i < |rs| ==> rs[i].idSession.Some?) &&
    forall i, j :: 0 <= i < j < |rs| ==> rs[i].idSession.value < rs[j].idSession.value
  }

  /** The rows whose ids lie in `[lo, hi)`, by ascending id. */
  function RowsBetween(rows: map<int, SessionRecord>, lo: int, hi: int): (rs: seq<SessionRecord>)
    requires forall k :: k in rows ==> rows[k].idSession == Some(k)
    ensures forall r :: r in rs ==>
      r.idSession.Some? && lo <= r.idSession.value < hi &&
      r.idSession.value in rows && rows[r.idSession.value] == r
    ensures forall k :: k in rows && lo <= k < hi ==> rows[k] in rs
    ensures AscendingIds(rs)
    decreases hi - lo
  {
    if lo >= hi then []
    else
      var rest := RowsBetween(rows, lo + 1, hi);
      if lo in rows then
        ConsAscending(rows[lo], rest);
        [rows[lo]] + rest
      else rest
  }

  /** A record whose id is below every id of an ascending sequence can be put in front of it. */
  lemma ConsAscending(x: SessionRecord, rest: seq<SessionRecord>)
    requires x.idSession.Some? && AscendingIds(rest)
    requires forall r :: r in rest ==> r.idSession.Some? && x.idSession.value < r.idSession.value
    ensures AscendingIds([x] + rest)
  {
    var rs := [x] + rest;
    forall i, j | 0 <= i < j < |rs|
      ensures rs[i].idSession.value < rs[j].idSession.value
    {
      assert rs[j] == rest[j - 1] && rs[j] in rest;
      if i > 0 {
        assert rs[i] == rest[i - 1];
      }
    }
  }

  /** `findAll()`: every stored session, once each, by ascending id. */
  function FindAll(rows: map<int, SessionRecord>, nextId: int): (rs: seq<SessionRecord>)
    requires WellFormed(rows, nextId)
    ensures forall r :: r in rs <==> r in rows.Values
    ensures AscendingIds(rs)
  {
    var rs := RowsBetween(rows, 1, nextId);
    assert forall r :: r in rows.Values ==> exists k :: k in rows && rows[k] == r;
    rs
  }

  /** The records of `rs`, in order, that have a trainer with id `f` (an inner join on the set). */
  function WithTrainer(rs: seq<SessionRecord>, f: int): (out: seq<SessionRecord>)
    ensures forall r :: r in out <==> r in rs && f in Ids(TrainersOf(r))
    decreases rs
  {
    if rs == [] then []
    else
      var rest := WithTrainer(rs[1..], f);
      assert forall r :: r in rs <==> r == rs[0] || r in rs[1..] by {
        assert rs == [rs[0]] + rs[1..];
      }
      if f in Ids(TrainersOf(rs[0])) then [rs[0]] + rest else rest
  }

  /** Filtering keeps the ascending order of ids. */
  lemma {:induction false} WithTrainerAscending(rs: seq<SessionRecord>, f: int)
    requires AscendingIds(rs)
    ensures AscendingIds(WithTrainer(rs, f))
    decreases rs
  {
    if rs != [] {
      var rest := WithTrainer(rs[1..], f);
      assert AscendingIds(rs[1..]);
      WithTrainerAscending(rs[1..], f);
      if f in Ids(TrainersOf(rs[0])) {
        forall r | r in rest
          ensures r.idSession.Some? && rs[0].idSession.value < r.idSession.value
        {
          var j :| 0 <= j < |rs[1..]| && rs[1..][j] == r;
          assert rs[j + 1] == r;
        }
        ConsAscending(rs[0], rest);
      }
    }
  }

  /**
   * `findByFormateurId(f)`: `SELECT s FROM Session s JOIN s.formateurs f WHERE f.id = :f`,
   * the stored sessions that have a trainer with id `f`, once each.
   */
  function FindByFormateurId(rows: map<int, SessionRecord>, nextId: int, f: int): (rs: seq<SessionRecord>)
    requires WellFormed(rows, nextId)
    ensures forall r :: r in rs <==> r in rows.Values && f in Ids(TrainersOf(r))
    ensures AscendingIds(rs)
  {
    WithTrainerAscending(FindAll(rows, nextId), f);
    WithTrainer(FindAll(rows, nextId), f)
  }

  /** How many trainers of `ts` have id `f`. */
  function CountId(ts: seq<User>, f: int): (n: nat)
    ensures n > 0 <==> f in Ids(ts)
    decreases ts
  {
    if ts == [] then 0
    else
      IdsOfCons(ts[0], ts[1..]);
      assert ts == [ts[0]] + ts[1..];
      (if ts[0].id == f then 1 else 0) + CountId(ts[1..], f)
  }

  /** Number of (session `s`, trainer `f`) pairs the join of the check query produces. */
  function PairCount(rows: map<int, SessionRecord>, s: int, f: int): nat
  {
    if s in rows then CountId(TrainersOf(rows[s]), f) else 0
  }

  /** `isFormateurInSession(s, f)`: `CASE WHEN COUNT(s) > 0 THEN true ELSE false END`. */
  function IsFormateurInSession(rows: map<int, SessionRecord>, s: int, f: int): (b: bool)
    ensures b <==> s in rows && f in Ids(TrainersOf(rows[s]))
  {
    PairCount(rows, s, f) > 0
  }

  /** The check query holds exactly when session `s` is among the sessions found for trainer `f`. */
  lemma CheckAgreesWithFind(rows: map<int, SessionRecord>, nextId: int, s: int, f: int)
    requires WellFormed(rows, nextId)
    ensures IsFormateurInSession(rows, s, f) <==>
      exists r :: r in FindByFormateurId(rows, nextId, f) && r.idSession == Some(s)
  {
    var found := FindByFormateurId(rows, nextId, f);
    if IsFormateurInSession(rows, s, f) {
      assert rows[s] in rows.Values;
      assert rows[s] in found && rows[s].idSession == Some(s);
    }
    if exists r :: r in found && r.idSession == Some(s) {
      var r :| r in found && r.idSession == Some(s);
      assert r in rows.Values;
      var k :| k in rows && rows[k] == r;
      assert k == s;
    }
  }

  /** A session without trainers is never returned by the trainer query: the join is an inner join. */
  lemma FindNeverReturnsUnassigned(rows: map<int, SessionRecord>, nextId: int, f: int, r: SessionRecord)
    requires WellFormed(rows, nextId)
    requires r in FindByFormateurId(rows, nextId, f)
    ensures |TrainersOf(r)| > 0
  {
    assert f in Ids(TrainersOf(r));
  }
}
