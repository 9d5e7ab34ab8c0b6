/**
 * `AdminController`, the REST front of the admin service under `/api/admin`. Only the trainer
 * list is reshaped, into one map per user with its role names; the other handlers hand the
 * service's answer on as it is.
 */
module AdminController {
  import opened Common
  import opened JsonValues
  import opened Users
  import opened AdminService
  import opened Http

  /**
   * `roles.stream().map(role -> role.getName().name())`: the enum name of every role, in order;
   * a role whose name is null makes `.name()` throw, which `None` stands for.
   */
  function RoleNames(roles: seq<Role>): (r: Option<seq<Json>>)
    ensures r.None? <==> exists x :: x in roles && x.name.None?
    ensures r.Some? ==> |r.value| == |roles|
    ensures r.Some? ==> forall i :: 0 <= i < |roles| ==> r.value[i] == JStr(RoleName(roles[i].name.value))
    decreases roles
  {
    if roles == [] then Some([])
    else
      assert forall x :: x in roles <==> x == roles[0] || x in roles[1..] by {
        assert roles == [roles[0]] + roles[1..];
      }
      if roles[0].name.None? then None
      else
        match RoleNames(roles[1..])
        case None => None
        case Some(rest) => Some([JStr(RoleName(roles[0].name.value))] + rest)
  }

  /** Every user map carries these keys. */
  const UserKeys: set<string> := {"id", "firstName", "lastName", "email", "roles"}

  /**
   * The map built for one trainer: id, names and email copied from the user, and its role names,
   * an empty list when the role collection is null.
   */
  function UserSummary(u: User): (j: Option<Json>)
    ensures j.None? <==> u.roles.Some? && RoleNames(u.roles.value).None?
    ensures j.Some? ==> j.value.JObj? && j.value.fields.Keys == UserKeys
    ensures j.Some? ==>
      j.value.fields["id"] == JNum(u.id) && j.value.fields["email"] == Text(u.email) &&
      j.value.fields["firstName"] == Text(u.firstName) && j.value.fields["lastName"] == Text(u.lastName)
    ensures j.Some? && u.roles.None? ==> j.value.fields["roles"] == JArr([])
    ensures j.Some? && u.roles.Some? ==> j.value.fields["roles"] == JArr(RoleNames(u.roles.value).value)
  {
    var roles := if u.roles.None? then Some([]) else RoleNames(u.roles.value);
    if roles.None? then None
    else
      Some(JObj(map["id" := JNum(u.id), "firstName" := Text(u.firstName), "lastName" := Text(u.lastName),
                    "email" := Text(u.email), "roles" := JArr(roles.value)]))
  }

  /** The stream of users mapped to their maps: one per user, in order, or an exception. */
  function UserSummaries(us: seq<User>): (r: Option<seq<Json>>)
    ensures r.None? <==> exists u :: u in us && UserSummary(u).None?
    ensures r.Some? ==> |r.value| == |us|
    ensures r.Some? ==> forall i :: 0 <= i < |us| ==> Some(r.value[i]) == UserSummary(us[i])
    decreases us
  {
    if us == [] then Some([])
    else
      assert forall u :: u in us <==> u == us[0] || u in us[1..] by {
        assert us == [us[0]] + us[1..];
      }
      match (UserSummary(us[0]), UserSummaries(us[1..]))
      case (Some(head), Some(rest)) => Some([head] + rest)
      case _ => None
  }

  /** A trainer's map lists `ROLE_FORMATEUR` among its roles. */
  lemma FormateurSummaryNamesRole(u: User)
    requires HasRole(u, RoleFormateur) && UserSummary(u).Some?
    ensures JStr("ROLE_FORMATEUR") in UserSummary(u).value.fields["roles"].items
  {
    var x :| x in u.roles.value && x.name == Some(RoleFormateur);
    var i :| 0 <= i < |u.roles.value| && u.roles.value[i] == x;
    assert UserSummary(u).value.fields["roles"].items[i] == JStr(RoleName(RoleFormateur));
  }

  const DeleteDone: string := "Utilisateur supprimé avec succès"

  class AdminController {
    const service: AdminService

    constructor (service: AdminService)
      ensures this.service == service
    {
      this.service := service;
    }

    /** `GET /api/admin/users`: the service's list as it is. */
    method GetAllUsers(repoFails: bool) returns (list: seq<User>)
      ensures list == if repoFails then [] else service.users
    {
      list := service.GetAllUsers(repoFails);
    }

    /**
     * `GET /api/admin/formateurs`: 200 with one map per trainer, in the service's order; 500 with
     * a null body when a role name is null.
     */
    method GetFormateurs(repoFails: bool) returns (resp: Response<Json>)
      ensures var list := if repoFails then [] else RoleQuery(service.users, RoleFormateur);
        (resp.status == OK <==> UserSummaries(list).Some?) &&
        (resp.status == OK ==> resp.body == Some(JArr(UserSummaries(list).value))) &&
        (resp.status != OK ==> resp == Response(INTERNAL_SERVER_ERROR, None))
      ensures resp.status == OK ==> forall j :: j in resp.body.value.items ==>
        JStr("ROLE_FORMATEUR") in j.fields["roles"].items
    {
      var formateurs := service.GetFormateurs(repoFails);
      var formatted := UserSummaries(formateurs);
      if formatted.None? {
        return Response(INTERNAL_SERVER_ERROR, None);
      }
      forall j | j in formatted.value ensures JStr("ROLE_FORMATEUR") in j.fields["roles"].items {
        var i :| 0 <= i < |formatted.value| && formatted.value[i] == j;
        assert formateurs[i] in formateurs;
        FormateurSummaryNamesRole(formateurs[i]);
      }
      resp := Response(OK, Some(JArr(formatted.value)));
    }

    /** `GET /api/admin/coordinateurs`: the service's list as it is. */
    method GetCoordinateurs(repoFails: bool) returns (list: seq<User>)
      ensures list == if repoFails then [] else RoleQuery(service.users, RoleCoordinateur)
    {
      list := service.GetCoordinateurs(repoFails);
    }

    /**
     * `DELETE /api/admin/users/{id}`: the success text once the service has deleted the user;
     * the service's exception propagates out of the handler.
     */
    method DeleteUser(id: int) returns (r: Result<string>)
      requires service.Valid()
      modifies service
      ensures service.Valid()
      ensures r.Ok? <==> id in Ids(old(service.users))
      ensures r.Ok? ==> r.value == DeleteDone && service.users == WithoutUser(old(service.users), id)
      ensures r.Err? ==> r == Err(DeleteNotFound) && service.users == old(service.users)
    {
      var done := service.DeleteUser(id);
      if done.Err? {
        return Err(done.failure);
      }
      r := Ok(DeleteDone);
    }
  }
}
