/**
 * The dashboard page: the signed-in user's roles decide which label and colour the page shows;
 * the page loads the user's profile (and, for a coordinator, the list of features) and the
 * trainer's sessions, and saves profile edits.
 *
 * The signed-in user of the authentication hook is the input `authUser`, its roles the input
 * `roles` (`None` when there is no user or the user has no roles); answers of awaited calls are
 * inputs as in the other views: the list readers take the response, the profile and feature
 * calls the outcome `FetchWithAuth` gives for theirs.
 */
module Dashboard {
  import opened Common
  import opened JsonValues
  import opened JsText
  import opened Users
  import opened Validators
  import opened ApiClient

  /** `role.includes("FORMATEUR")`. */
  predicate FormateurRole(role: string)
  {
    Includes(role, "FORMATEUR")
  }

  /** `role.includes("COORDINATEUR") || role.includes("ADMIN")`. */
  predicate CoordinateurRole(role: string)
  {
    Includes(role, "COORDINATEUR") || Includes(role, "ADMIN")
  }

  /** `role.includes("ADMIN")`. */
  predicate AdminRole(role: string)
  {
    Includes(role, "ADMIN")
  }

  /**
   * `authUser?.roles?.some(...)` for each of the three tests; no user or no roles is falsy, and
   * a user holding the back end's role for a test passes it.
   */
  predicate IsFormateur(roles: Option<seq<string>>): (b: bool)
    ensures b ==> roles.Some? && roles.value != []
    ensures roles.Some? && RoleName(RoleFormateur) in roles.value ==> b
  {
    IncludesAt(RoleName(RoleFormateur), "FORMATEUR", 5);
    roles.Some? && exists r :: r in roles.value && FormateurRole(r)
  }

  predicate IsCoordinateur(roles: Option<seq<string>>): (b: bool)
    ensures b ==> roles.Some? && roles.value != []
    ensures roles.Some? && (RoleName(RoleCoordinateur) in roles.value || RoleName(RoleAdmin) in roles.value) ==> b
  {
    IncludesAt(RoleName(RoleCoordinateur), "COORDINATEUR", 5);
    IncludesAt(RoleName(RoleAdmin), "ADMIN", 5);
    roles.Some? && exists r :: r in roles.value && CoordinateurRole(r)
  }

  predicate IsAdministrateur(roles: Option<seq<string>>): (b: bool)
    ensures b ==> roles.Some? && roles.value != []
    ensures roles.Some? && RoleName(RoleAdmin) in roles.value ==> b
  {
    IncludesAt(RoleName(RoleAdmin), "ADMIN", 5);
    roles.Some? && exists r :: r in roles.value && AdminRole(r)
  }

  /** Every administrator is also a coordinator: the coordinator test accepts "ADMIN" too. */
  lemma AdminIsCoordinator(roles: Option<seq<string>>)
    ensures IsAdministrateur(roles) ==> IsCoordinateur(roles)
  {
    if IsAdministrateur(roles) {
      var r :| r in roles.value && AdminRole(r);
      assert CoordinateurRole(r);
    }
  }

  /** `getDisplayRole`: the first of Administrateur, Coordinateur, Formateur that applies, else Utilisateur. */
  function DisplayRole(roles: Option<seq<string>>): (shown: string)
    ensures shown == "Administrateur" <==> IsAdministrateur(roles)
    ensures shown == "Coordinateur" <==> IsCoordinateur(roles) && !IsAdministrateur(roles)
    ensures shown == "Formateur" <==> IsFormateur(roles) && !IsCoordinateur(roles)
    ensures shown == "Utilisateur" <==> !IsFormateur(roles) && !IsCoordinateur(roles)
  {
    AdminIsCoordinator(roles);
    if IsAdministrateur(roles) then "Administrateur"
    else if IsCoordinateur(roles) then "Coordinateur"
    else if IsFormateur(roles) then "Formateur"
    else "Utilisateur"
  }

  /** `getRoleColor`: the colour of the label the page shows, by the same priority. */
  function RoleColor(roles: Option<seq<string>>): (color: string)
    ensures color == "from-red-500 to-pink-500" <==> DisplayRole(roles) == "Administrateur"
    ensures color == "from-blue-500 to-cyan-500" <==> DisplayRole(roles) == "Coordinateur"
    ensures color == "from-green-500 to-teal-500" <==> DisplayRole(roles) == "Formateur"
    ensures color == "from-cyan-500 to-purple-500" <==> DisplayRole(roles) == "Utilisateur"
  {
    if IsAdministrateur(roles) then "from-red-500 to-pink-500"
    else if IsCoordinateur(roles) then "from-blue-500 to-cyan-500"
    else if IsFormateur(roles) then "from-green-500 to-teal-500"
    else "from-cyan-500 to-purple-500"
  }

  /** A text that occurs in a string at some position is included in it. */
  lemma IncludesAt(s: string, sub: string, i: int)
    requires OccursAt(s, sub, i)
    ensures Includes(s, sub)
  {
  }

  /** The back end's role names are recognised by the tests meant for them. */
  lemma BackendRoleNamesRecognised()
    ensures FormateurRole(RoleName(RoleFormateur))
    ensures CoordinateurRole(RoleName(RoleCoordinateur)) && CoordinateurRole(RoleName(RoleAdmin))
    ensures AdminRole(RoleName(RoleAdmin))
    ensures DisplayRole(Some([RoleName(RoleAdmin)])) == "Administrateur"
  {
    IncludesAt("ROLE_FORMATEUR", "FORMATEUR", 5);
    IncludesAt("ROLE_COORDINATEUR", "COORDINATEUR", 5);
    IncludesAt("ROLE_ADMIN", "ADMIN", 5);
    assert RoleName(RoleAdmin) in [RoleName(RoleAdmin)];
  }

  /** The label of a role badge, `role.replace('ROLE_', '')`: its first "ROLE_" removed. */
  function RoleBadge(role: string): (shown: string)
    ensures !Includes(role, "ROLE_") ==> shown == role
    ensures Includes(role, "ROLE_") ==> |shown| == |role| - 5
  {
    ReplaceFirst(role, "ROLE_", "")
  }

  /** A role named with the "ROLE_" prefix is shown without it, whatever follows. */
  lemma BadgeStripsPrefix(rest: string)
    ensures RoleBadge("ROLE_" + rest) == rest
  {
    var s := "ROLE_" + rest;
    assert s[0..5] == "ROLE_";
    assert IndexFrom(s, "ROLE_", 0) == Some(0);
    assert s[5..] == rest;
  }

  /** The features a coordinator's dashboard falls back to. */
  const DefaultFonctionnalites: Json := JObj(map[
    "GESTION_FORMATEURS" := JStr("Gestion des formateurs"),
    "SUIVI_FORMATIONS" := JStr("Suivi des formations"),
    "VALIDATION_DOSSIERS" := JStr("Validation des dossiers"),
    "RAPPORTS_STATISTIQUES" := JStr("Rapports statistiques"),
    "GESTION_UTILISATEURS" := JStr("Gestion des utilisateurs")])

  /** A usable feature list: a value `typeof` calls an object that is not null. */
  predicate FeatureObject(v: Json)
  {
    Truthy(v) && TypeofObject(v)
  }

  /**
   * The features `loadUserData` keeps: none (`{}`) for a profile that is not a coordinator's;
   * for a coordinator, the fetched value when it is a non-null object, the defaults otherwise.
   */
  function FonctionnalitesFor(coordinator: bool, fetched: Outcome<Json>): (v: Json)
    ensures !coordinator ==> v == JObj(map[])
    ensures coordinator ==> FeatureObject(v)
    ensures v.JObj? || v.JArr?
    ensures coordinator && fetched.Done? && FeatureObject(fetched.value) ==> v == fetched.value
    ensures coordinator && (fetched.Threw? || !FeatureObject(fetched.value)) ==> v == DefaultFonctionnalites
  {
    if !coordinator then JObj(map[])
    else
      match fetched
      case Threw(_) => DefaultFonctionnalites
      case Done(v) => if FeatureObject(v) then v else DefaultFonctionnalites
  }

  /** The message of the `TypeError` calling a value that is not a function raises. */
  function NotAFunction(expr: string): string
  {
    expr + " is not a function"
  }

  /**
   * One entry of `roles` under `role.includes("COORDINATEUR") || role.includes("ADMIN")`: a string
   * is searched for the substrings; an array has `includes` too, which asks whether one of its
   * elements is exactly that string.
   */
  predicate CoordinatorEntry(role: Json)
  {
    match role
    case JStr(s) => CoordinateurRole(s)
    case JArr(elems) => JStr("COORDINATEUR") in elems || JStr("ADMIN") in elems
    case _ => false
  }

  /**
   * `roles.some(role => role.includes("COORDINATEUR") || role.includes("ADMIN"))` over a parsed
   * array: it stops at the first coordinator role; a null entry, or a number, boolean or object
   * (none has an `includes` method), reached before it throws.
   */
  function SomeCoordinatorRole(items: seq<Json>): (r: Outcome<bool>)
    ensures (forall i :: 0 <= i < |items| ==> items[i].JStr? || items[i].JArr?) ==>
      r == Done(exists i :: 0 <= i < |items| && CoordinatorEntry(items[i]))
    ensures (forall i :: 0 <= i < |items| ==> items[i].JStr?) ==>
      r == Done(exists i :: 0 <= i < |items| && CoordinateurRole(items[i].s))
    ensures r == Done(true) ==> exists i :: 0 <= i < |items| && CoordinatorEntry(items[i])
    ensures r.Threw? ==> exists i :: 0 <= i < |items| && !items[i].JStr? && !items[i].JArr?
    decreases |items|
  {
    if items == [] then Done(false)
    else
      var here := items[0];
      assert forall i :: 1 <= i < |items| ==> items[i] == items[1..][i - 1];
      if here.JStr? || here.JArr? then
        if CoordinatorEntry(here) then Done(true)
        else SomeCoordinatorRole(items[1..])
      else if here.JNull? then Threw(NullRead("includes"))
      else Threw(NotAFunction("role.includes"))
  }

  /** An entry that is itself an array holding "ADMIN" makes the profile a coordinator's; one holding only "ROLE_ADMIN" does not. */
  lemma ArrayRoleEntries()
    ensures SomeCoordinatorRole([JArr([JStr("ADMIN")])]) == Done(true)
    ensures SomeCoordinatorRole([JArr([JStr("ROLE_ADMIN")])]) == Done(false)
    ensures SomeCoordinatorRole([JStr("ROLE_ADMIN"), JNum(1)]) == Done(true)
    ensures SomeCoordinatorRole([JNum(1), JStr("ROLE_ADMIN")]).Threw?
  {
    assert JStr("ADMIN") != JStr("COORDINATEUR");
    assert JStr("ROLE_ADMIN") != JStr("COORDINATEUR") && JStr("ROLE_ADMIN") != JStr("ADMIN");
    assert CoordinateurRole("ROLE_ADMIN") by { assert OccursAt("ROLE_ADMIN", "ADMIN", 5); }
  }

  /**
   * `profileData.roles?.some(...)`: a null profile throws; absent or null roles are falsy; an
   * array is searched; any other value has no `some` method and throws.
   */
  function ProfileIsCoordinator(profile: Json): (r: Outcome<bool>)
    ensures profile.JNull? ==> r == Threw(NullRead("roles"))
    ensures !profile.JNull? && (Prop(profile, "roles").None? || Prop(profile, "roles") == Some(JNull)) ==>
      r == Done(false)
    ensures !profile.JNull? && Prop(profile, "roles").Some? && Prop(profile, "roles").value.JArr? ==>
      r == SomeCoordinatorRole(Prop(profile, "roles").value.items)
  {
    if profile.JNull? then Threw(NullRead("roles"))
    else
      match Prop(profile, "roles")
      case None => Done(false)
      case Some(JNull) => Done(false)
      case Some(JArr(items)) => SomeCoordinatorRole(items)
      case Some(_) => Threw(NotAFunction("profileData.roles?.some"))
  }

  /** A profile whose roles are strings is a coordinator's by the same test as the signed-in user. */
  lemma ProfileTestAgreesWithUserTest(profile: Json, roles: seq<string>)
    requires profile.JObj? && Prop(profile, "roles") == Some(JArr(seq(|roles|, i requires 0 <= i < |roles| => JStr(roles[i]))))
    ensures ProfileIsCoordinator(profile) == Done(IsCoordinateur(Some(roles)))
  {
    var items := Prop(profile, "roles").value.items;
    assert forall i :: 0 <= i < |items| ==> items[i] == JStr(roles[i]);
    if IsCoordinateur(Some(roles)) {
      var r :| r in roles && CoordinateurRole(r);
      var i :| 0 <= i < |roles| && roles[i] == r;
      assert CoordinateurRole(items[i].s);
    }
  }

  /** The "profile completed" status: "100%" when CIN, RIB and bank name are all filled in. */
  function ProfileStatus(userData: Json): (status: string)
    ensures status == "100%" <==>
      TruthyOpt(Prop(userData, "cin")) && TruthyOpt(Prop(userData, "rib")) && TruthyOpt(Prop(userData, "bankName"))
    ensures status == "100%" || status == "En cours"
  {
    if TruthyOpt(Prop(userData, "cin")) && TruthyOpt(Prop(userData, "rib")) && TruthyOpt(Prop(userData, "bankName"))
    then "100%" else "En cours"
  }

  /** A profile holding a valid CIN, a valid RIB and a bank name counts as complete. */
  lemma ValidProfileIsComplete(userData: Json, cin: string, rib: string, bankName: string)
    requires userData.JObj?
    requires Prop(userData, "cin") == Some(JStr(cin)) && ValidateCIN(cin)
    requires Prop(userData, "rib") == Some(JStr(rib)) && ValidateRIB(rib)
    requires Prop(userData, "bankName") == Some(JStr(bankName)) && bankName != ""
    ensures ProfileStatus(userData) == "100%"
  {
    assert cin != [] && rib != [];
  }

  const LoadErrorPrefix: string := "Erreur de chargement: "
  const ProfileSaved: string := "Profil mis à jour avec succès !"

  /** The profile the page shows before its profile has loaded. */
  const BlankProfile: Json := JObj(map[
    "id" := JNum(0), "firstName" := JStr(""), "lastName" := JStr(""), "email" := JStr(""),
    "roles" := JArr([]), "cin" := JStr(""), "rib" := JStr(""), "bankName" := JStr(""),
    "fonctionnalite" := JStr("")])

  /** The page state. */
  datatype Page = Page(
    userData: Json, loading: bool, error: string, success: string, isEditing: bool,
    cinModified: bool, nameModified: bool, fonctionnalites: Json, mesSessions: seq<Json>)

  const Initial: Page := Page(BlankProfile, true, "", "", false, false, false, JObj(map[]), [])

  /**
   * `loadUserData`: the profile, then the features for a coordinator; the profile is shown, a
   * CIN marks the CIN as filled and both names mark the name as filled; a failure of the profile
   * call or of the role test only shows the error. `loading` ends false.
   */
  function UserDataLoaded(p: Page, profile: Outcome<Json>, features: Outcome<Json>): (q: Page)
    ensures !q.loading
    ensures profile.Threw? ==>
      q == p.(error := LoadErrorPrefix + profile.message, loading := false)
    ensures profile.Done? && ProfileIsCoordinator(profile.value).Threw? ==>
      q == p.(error := LoadErrorPrefix + ProfileIsCoordinator(profile.value).message, loading := false)
    ensures profile.Done? && ProfileIsCoordinator(profile.value).Done? ==>
      var profile := profile.value;
      q.userData == profile && q.error == "" &&
      q.fonctionnalites == FonctionnalitesFor(ProfileIsCoordinator(profile).value, features) &&
      q.cinModified == (p.cinModified || TruthyOpt(Prop(profile, "cin"))) &&
      q.nameModified == (p.nameModified || (TruthyOpt(Prop(profile, "firstName")) && TruthyOpt(Prop(profile, "lastName")))) &&
      q.success == p.success && q.isEditing == p.isEditing && q.mesSessions == p.mesSessions
  {
    match profile
    case Threw(m) => p.(error := LoadErrorPrefix + m, loading := false)
    case Done(profile) =>
      match ProfileIsCoordinator(profile)
      case Threw(m) => p.(error := LoadErrorPrefix + m, loading := false)
      case Done(coordinator) =>
        p.(userData := profile, error := "", loading := false,
           fonctionnalites := FonctionnalitesFor(coordinator, features),
           cinModified := p.cinModified || TruthyOpt(Prop(profile, "cin")),
           nameModified := p.nameModified || (TruthyOpt(Prop(profile, "firstName")) && TruthyOpt(Prop(profile, "lastName"))))
  }

  /**
   * `handleSaveProfile`: once the update call completes, the submitted data is shown, both
   * "modified" flags are set and editing closes; a failed call only shows its message.
   */
  function ProfileSaveDone(p: Page, updated: Json, saved: Outcome<Json>): (q: Page)
    ensures saved.Threw? ==> q == p.(error := saved.message)
    ensures saved.Done? ==>
      q == p.(userData := updated, cinModified := true, nameModified := true, success := ProfileSaved,
              isEditing := false)
  {
    match saved
    case Threw(m) => p.(error := m)
    case Done(_) =>
      p.(userData := updated, cinModified := true, nameModified := true, success := ProfileSaved, isEditing := false)
  }

  class DashboardPage {
    var userData: Json
    var loading: bool
    var error: string
    var success: string
    var isEditing: bool
    var cinModified: bool
    var nameModified: bool
    var fonctionnalites: Json
    var mesSessions: seq<Json>

    function State(): Page
      reads this
    {
      Page(userData, loading, error, success, isEditing, cinModified, nameModified, fonctionnalites, mesSessions)
    }

    /** The features held are always an object the page can list entries of. */
    predicate Valid()
      reads this
    {
      fonctionnalites.JObj? || fonctionnalites.JArr?
    }

    constructor ()
      ensures State() == Initial && Valid()
    {
      userData := BlankProfile;
      loading := true;
      error, success := "", "";
      isEditing, cinModified, nameModified := false, false, false;
      fonctionnalites := JObj(map[]);
      mesSessions := [];
    }

    method LoadUserData(profile: Outcome<Json>, features: Outcome<Json>)
      requires Valid()
      modifies this
      ensures Valid()
      ensures State() == UserDataLoaded(old(State()), profile, features)
    {
      error := "";
      loading := true;
      if profile.Threw? {
        error := LoadErrorPrefix + profile.message;
        loading := false;
        return;
      }
      var profileData := profile.value;
      var userIsCoordinateur := ProfileIsCoordinator(profileData);
      if userIsCoordinateur.Threw? {
        error := LoadErrorPrefix + userIsCoordinateur.message;
        loading := false;
        return;
      }
      var fonctionnalitesData := FonctionnalitesFor(userIsCoordinateur.value, features);
      userData := profileData;
      fonctionnalites := fonctionnalitesData;
      MarkModified(profileData);
      loading := false;
    }

    /** The two "modified" flags `loadUserData` raises from a loaded profile, and never lowers. */
    method MarkModified(profileData: Json)
      modifies this
      ensures State() == old(State()).(cinModified := old(cinModified) || TruthyOpt(Prop(profileData, "cin")),
        nameModified := old(nameModified) ||
          (TruthyOpt(Prop(profileData, "firstName")) && TruthyOpt(Prop(profileData, "lastName"))))
    {
      if TruthyOpt(Prop(profileData, "cin")) {
        cinModified := true;
      }
      if TruthyOpt(Prop(profileData, "firstName")) && TruthyOpt(Prop(profileData, "lastName")) {
        nameModified := true;
      }
    }

    /**
     * `loadMesSessions`, run by its effect: only for a signed-in trainer, a call for the sessions
     * of the user's `id`, whose list the reader answers. Answers the path it fetched, if any.
     */
    method LoadMesSessions(authUser: Option<Json>, roles: Option<seq<string>>, f: Fetched) returns (sent: Option<string>)
      modifies this
      ensures sent.Some? <==> TruthyOpt(authUser) && IsFormateur(roles)
      ensures sent.Some? ==> sent.value == TrainerSessionsPath(Prop(authUser.value, "id"))
      ensures State() == if sent.Some? then old(State()).(mesSessions := ReadList(f)) else old(State())
    {
      sent := None;
      if TruthyOpt(authUser) && IsFormateur(roles) {
        sent := Some(TrainerSessionsPath(Prop(authUser.value, "id")));
        var sessionsData := ReadList(f);
        mesSessions := sessionsData;
      }
    }

    method HandleSaveProfile(updated: Json, saved: Outcome<Json>)
      modifies this
      ensures Valid() <==> old(Valid())
      ensures State() == ProfileSaveDone(old(State()), updated, saved)
    {
      var outcome := saved;
      if outcome.Threw? {
        error := outcome.message;
        return;
      }
      userData := updated;
      cinModified := true;
      nameModified := true;
      success := ProfileSaved;
      isEditing := false;
    }

    /** The timer that clears the success banner three seconds after a save. */
    method ExpireSuccess()
      modifies this
      ensures State() == old(State()).(success := "")
    {
      success := "";
    }
  }

  /** Reloading the profile never takes away a flag an earlier load or a save has set. */
  lemma FlagsOnlyRise(p: Page, profile: Outcome<Json>, features: Outcome<Json>)
    ensures p.cinModified ==> UserDataLoaded(p, profile, features).cinModified
    ensures p.nameModified ==> UserDataLoaded(p, profile, features).nameModified
  {
  }
}
