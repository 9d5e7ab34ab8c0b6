/**
 * `AdminService`: reads of the user table by role, and user deletion. The user table is the
 * sequence `users` in `findAll()` order, without two users of the same id.
 *
 * A failing database call is the input `repoFails`; the service catches it and answers an empty
 * list.
 */
module AdminService {
  import opened Common
  import opened Users

  /** `user.getRoles().stream().anyMatch(role -> role.getName() == e)` for a user whose roles are present. */
  predicate HasRole(u: User, e: ERole)
  {
    u.roles.Some? && exists x :: x in u.roles.value && x.name == Some(e)
  }

  /**
   * `findByRoles_Name(e)`: the users joined to a role named `e`, in table order. A user with null
   * roles has no row in the join.
   */
  function RoleQuery(us: seq<User>, e: ERole): (r: seq<User>)
    ensures forall u :: u in r <==> u in us && HasRole(u, e)
    ensures |r| <= |us|
    decreases us
  {
    if us == [] then []
    else
      assert forall u :: u in us <==> u == us[0] || u in us[1..] by {
        assert us == [us[0]] + us[1..];
      }
      (if HasRole(us[0], e) then [us[0]] else []) + RoleQuery(us[1..], e)
  }

  const NullRoles: Failure := Runtime("NullPointerException")

  /**
   * The fallback stream `allUsers.stream().filter(user -> user.getRoles().stream()...)`: the
   * first user whose role collection is null makes `getRoles().stream()` throw; otherwise it
   * keeps the same users as the role query, in the same order.
   */
  function FilterByRole(us: seq<User>, e: ERole): (r: Result<seq<User>>)
    ensures r.Err? <==> exists u :: u in us && u.roles.None?
    ensures r.Err? ==> r.failure == NullRoles
    ensures r.Ok? ==> r.value == RoleQuery(us, e)
    decreases us
  {
    if us == [] then Ok([])
    else
      assert forall u :: u in us <==> u == us[0] || u in us[1..] by {
        assert us == [us[0]] + us[1..];
      }
      if us[0].roles.None? then Err(NullRoles)
      else
        match FilterByRole(us[1..], e)
        case Err(f) => Err(f)
        case Ok(rest) => Ok((if HasRole(us[0], e) then [us[0]] else []) + rest)
  }

  /** `userRepository.deleteById(id)`: the table without the user of that id, the rest in order. */
  function WithoutUser(us: seq<User>, id: int): (r: seq<User>)
    ensures Ids(r) == Ids(us) - {id}
    ensures forall v :: v in r <==> v in us && v.id != id
    ensures id !in Ids(us) ==> r == us
    decreases us
  {
    if us == [] then []
    else
      var rest := WithoutUser(us[1..], id);
      IdsOfCons(us[0], us[1..]);
      assert us == [us[0]] + us[1..];
      if us[0].id == id then rest
      else
        IdsOfCons(us[0], rest);
        [us[0]] + rest
  }

  const DeleteNotFound: Failure := Runtime("Erreur lors de la suppression: Utilisateur non trouvé")

  class AdminService {
    var users: seq<User>

    predicate Valid()
      reads this
    {
      DistinctIds(users)
    }

    constructor (users: seq<User>)
      requires DistinctIds(users)
      ensures Valid() && this.users == users
    {
      this.users := users;
    }

    /** `getAllUsers()`: the whole table, or an empty list when the repository fails. */
    method GetAllUsers(repoFails: bool) returns (list: seq<User>)
      ensures !repoFails ==> list == users
      ensures repoFails ==> list == []
    {
      if repoFails {
        return [];
      }
      list := users;
    }

    /**
     * The body `getFormateurs` and `getCoordinateurs` share for their role `e`: the role query,
     * and when it finds nobody the fallback filter over `findAll()`; any exception, the
     * fallback's null-roles exception included, gives an empty list.
     */
    method UsersWithRole(e: ERole, repoFails: bool) returns (list: seq<User>)
      ensures list == if repoFails then [] else RoleQuery(users, e)
      ensures forall u :: u in list <==> !repoFails && u in users && HasRole(u, e)
    {
      if repoFails {
        return [];
      }
      list := RoleQuery(users, e);
      if list == [] {
        var filtered := FilterByRole(users, e);
        if filtered.Err? {
          return [];
        }
        list := filtered.value;
      }
    }

    /** `getFormateurs()`: the users holding `ROLE_FORMATEUR`, in table order. */
    method GetFormateurs(repoFails: bool) returns (list: seq<User>)
      ensures list == if repoFails then [] else RoleQuery(users, RoleFormateur)
      ensures forall u :: u in list ==> HasRole(u, RoleFormateur)
    {
      list := UsersWithRole(RoleFormateur, repoFails);
    }

    /** `getCoordinateurs()`: the users holding `ROLE_COORDINATEUR`, in table order. */
    method GetCoordinateurs(repoFails: bool) returns (list: seq<User>)
      ensures list == if repoFails then [] else RoleQuery(users, RoleCoordinateur)
      ensures forall u :: u in list ==> HasRole(u, RoleCoordinateur)
    {
      list := UsersWithRole(RoleCoordinateur, repoFails);
    }

    /**
     * `deleteUser(id)`: removes the user with id `id`; an absent id throws "Utilisateur non
     * trouvé", which the catch block rethrows with the "Erreur lors de la suppression: " prefix.
     */
    method DeleteUser(id: int) returns (r: Result<()>)
      requires Valid()
      modifies this
      ensures Valid()
      ensures r.Ok? <==> id in Ids(old(users))
      ensures r.Ok? ==> users == WithoutUser(old(users), id) && id !in Ids(users)
      ensures r.Err? ==> r == Err(DeleteNotFound) && users == old(users)
    {
      if id in Ids(users) {
        users := WithoutUser(users, id);
        WithoutUserKeepsDistinct(old(users), id);
        r := Ok(());
      } else {
        r := Err(DeleteNotFound);
      }
    }
  }

  /** Deleting from a table of distinct ids leaves a table of distinct ids. */
  lemma {:induction false} WithoutUserKeepsDistinct(us: seq<User>, id: int)
    requires DistinctIds(us)
    ensures DistinctIds(WithoutUser(us, id))
    decreases us
  {
    if us != [] {
      DistinctIdsOfCons(us[0], us[1..]);
      assert us == [us[0]] + us[1..];
      WithoutUserKeepsDistinct(us[1..], id);
      if us[0].id != id {
        DistinctIdsOfCons(us[0], WithoutUser(us[1..], id));
      }
    }
  }
}
