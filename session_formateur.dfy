/**
 * `SessionFormateur`, the trainer's own view: the sessions a coordinator assigned to the signed-in
 * trainer, each with its length in days, and a summary count.
 *
 * The signed-in user comes from the authentication hook, which is not part of this model; it is
 * the input `authUser` (`None` when nobody is signed in). The answer of the list call is an input
 * as in the other views, and a date is the time value of `new Date(text)`, `None` for an Invalid
 * Date.
 */
module SessionFormateurView {
  import opened Common
  import opened JsonValues
  import opened Users
  import opened SessionEntity
  import opened SessionRepository
  import opened ApiClient
  import SC = SessionController

  /** Milliseconds in a day, `1000 * 60 * 60 * 24`. */
  const DayMs: int := 1000 * 60 * 60 * 24

  /** `Math.ceil(a / d)` for a positive divisor. */
  function CeilDiv(a: int, d: int): (q: int)
    requires d > 0
    ensures (q - 1) * d < a <= q * d
  {
    var n := a + d - 1;
    assert n == (n / d) * d + n % d;
    n / d
  }

  /**
   * The duration shown for a session: the days from start to end, rounded up (a partial day
   * counts as a whole one); NaN, `None` here, when either date is invalid.
   */
  function DurationDays(start: Option<int>, end: Option<int>): (days: Option<int>)
    ensures days.Some? <==> start.Some? && end.Some?
    ensures days.Some? ==> (days.value - 1) * DayMs < end.value - start.value <= days.value * DayMs
  {
    if start.Some? && end.Some? then Some(CeilDiv(end.value - start.value, DayMs)) else None
  }

  /** A session ending exactly `k` whole days after it starts lasts `k` days; one ending when it starts, 0. */
  lemma WholeDays(start: int, k: int)
    ensures DurationDays(Some(start), Some(start + k * DayMs)) == Some(k)
  {
  }

  /** One millisecond past a whole number of days already counts as one more day. */
  lemma PartialDayCountsWhole(start: int, k: int)
    ensures DurationDays(Some(start), Some(start + k * DayMs + 1)) == Some(k + 1)
  {
  }

  /** The summary block: shown only when the trainer has sessions, with their number. */
  function SummaryCount(mesSessions: seq<Json>): (count: Option<nat>)
    ensures count.Some? <==> |mesSessions| > 0
    ensures count.Some? ==> count.value == |mesSessions|
  {
    if |mesSessions| > 0 then Some(|mesSessions|) else None
  }

  class SessionFormateur {
    var mesSessions: seq<Json>
    var loading: bool
    var error: string

    constructor ()
      ensures mesSessions == [] && !loading && error == ""
    {
      mesSessions, loading, error := [], false, "";
    }

    /**
     * `loadMesSessions`: without a signed-in user, no sessions and no call; otherwise a call for
     * the sessions of the user's `id`, then the list it answers, an empty list for any other
     * answer or a failed call, with no error. Answers the path it fetched, if any.
     */
    method LoadMesSessions(authUser: Option<Json>, f: Fetched) returns (sent: Option<string>)
      modifies this
      ensures sent.Some? <==> TruthyOpt(authUser)
      ensures sent.Some? ==> sent.value == TrainerSessionsPath(Prop(authUser.value, "id"))
      ensures mesSessions == if sent.Some? then ReadList(f) else []
      ensures sent.Some? ==> !loading && error == ""
      ensures sent.None? ==> loading == old(loading) && error == old(error)
    {
      if !TruthyOpt(authUser) {
        mesSessions := [];
        return None;
      }
      loading := true;
      error := "";
      sent := Some(TrainerSessionsPath(Prop(authUser.value, "id")));
      var mesSessionsData := ReadList(f);
      mesSessions := mesSessionsData;
      loading := false;
    }

    /** The effect run when the visibility or the signed-in user changes. */
    method OnChange(isVisible: bool, authUser: Option<Json>, f: Fetched) returns (sent: Option<string>)
      modifies this
      ensures sent.Some? <==> isVisible && TruthyOpt(authUser)
      ensures sent.Some? ==> sent.value == TrainerSessionsPath(Prop(authUser.value, "id"))
      ensures mesSessions == if sent.Some? then ReadList(f) else []
      ensures sent.Some? ==> !loading && error == ""
      ensures sent.None? ==> loading == old(loading) && error == old(error)
    {
      if isVisible && TruthyOpt(authUser) {
        sent := LoadMesSessions(authUser, f);
      } else {
        mesSessions := [];
        sent := None;
      }
    }
  }

  /**
   * Across the two tiers: the server reads the trainer from the path the component fetched, so
   * the trainer it serves is the signed-in user; that user sees one entry per session the store
   * lists for them, in the store's order, the summary counts them, and every such session has
   * them assigned.
   */
  lemma TrainerSeesOwnSessions(rows: map<int, SessionRecord>, nextId: int, authUser: Json, served: int, text: string)
    requires WellFormed(rows, nextId) && text != ""
    requires Prop(authUser, "id").Some? && Prop(authUser, "id").value.JNum?
    requires TrainerSessionsPath(Some(JNum(served))) == TrainerSessionsPath(Prop(authUser, "id"))
    ensures served == Prop(authUser, "id").value.n
    ensures var shown := ReadList(Received(Delivered(200,
        Some(JArr(SC.SessionSummaries(FindByFormateurId(rows, nextId, served), false))), text)));
      shown == SC.SessionSummaries(FindByFormateurId(rows, nextId, served), false) &&
      (SummaryCount(shown).Some? ==> SummaryCount(shown).value == |FindByFormateurId(rows, nextId, served)|)
    ensures forall r :: r in FindByFormateurId(rows, nextId, served) ==> Prop(authUser, "id").value.n in Ids(TrainersOf(r))
  {
    if served != Prop(authUser, "id").value.n {
      TrainerPathNamesTrainer(served, Prop(authUser, "id").value.n);
    }
    var items := SC.SessionSummaries(FindByFormateurId(rows, nextId, served), false);
    ListReachesClient(200, Some(JArr(items)), text);
  }
}
