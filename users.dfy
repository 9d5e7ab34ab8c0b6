/**
 * The user entity as far as the session and admin code reads it: an id, the three contact
 * fields and a (possibly null) collection of roles, each role holding a (possibly null) enum name.
 * The Role and User source files are not part of this model; only the members the session and
 * admin code call are represented.
 */
module Users {
  import opened Common

  /** The role constants the code names (`Role.ERole`), plus any other constant by its name. */
  datatype ERole = RoleFormateur | RoleCoordinateur | RoleAdmin | OtherRole(constant: string)

  /** `ERole.name()`, the constant's declared name. */
  function RoleName(e: ERole): string
  {
    match e
    case RoleFormateur => "ROLE_FORMATEUR"
    case RoleCoordinateur => "ROLE_COORDINATEUR"
    case RoleAdmin => "ROLE_ADMIN"
    case OtherRole(c) => c
  }

  datatype Role = Role(name: Option<ERole>)

  datatype User = User(
    id: int,
    firstName: Option<string>,
    lastName: Option<string>,
    email: Option<string>,
    roles: Option<seq<Role>>)

  /** No two users of the sequence share an id: a set of users whose identity is the id. */
  predicate DistinctIds(us: seq<User>)
  {
    forall i, j :: 0 <= i < j < |us| ==> us[i].id != us[j].id
  }

  function Ids(us: seq<User>): set<int>
  {
    set u | u in us :: u.id
  }

  lemma IdsOfCons(x: User, rest: seq<User>)
    ensures Ids([x] + rest) == {x.id} + Ids(rest)
  {
    assert forall v :: v in [x] + rest <==> v == x || v in rest;
  }

  /** A sequence with a first element has distinct ids iff the rest does and misses the head's id. */
  lemma DistinctIdsOfCons(x: User, rest: seq<User>)
    ensures DistinctIds([x] + rest) <==> x.id !in Ids(rest) && DistinctIds(rest)
  {
    var s := [x] + rest;
    if DistinctIds(s) {
      forall v | v in rest ensures v.id != x.id {
        var j :| 0 <= j < |rest| && rest[j] == v;
        assert s[0] == x && s[j + 1] == v;
        assert 0 < j + 1 < |s|;
      }
      forall i, j | 0 <= i < j < |rest| ensures rest[i].id != rest[j].id {
        assert s[i + 1] == rest[i] && s[j + 1] == rest[j];
      }
    }
    if x.id !in Ids(rest) && DistinctIds(rest) {
      forall i, j | 0 <= i < j < |s| ensures s[i].id != s[j].id {
        if i == 0 {
          assert s[j] == rest[j - 1] && s[j] in rest;
        } else {
          assert s[i] == rest[i - 1] && s[j] == rest[j - 1];
        }
      }
    }
  }
}
