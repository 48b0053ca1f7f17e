/**
 * src/models/user.rs: the `User` record, its JSON form (which skips the
 * password and the GitHub token), identity decoding, and the `users` table
 * with the SQL statements of `impl User` as methods on it.
 */
module Users {
  import opened Wrappers
  import opened Db
  import opened Json
  import opened Roles
  import opened Listing

  /**
   * A row of the `users` table. `R` is the type of the role column: `Role`
   * for the Rust struct `User`, `int` for the stored row, which holds the
   * role's i16 discriminant.
   */
  datatype UserRecord<R> = UserRecord(
    id: Uuid,
    username: string,
    email: Option<string>,
    password: Option<string>,
    name: Option<string>,
    avatarUrl: Option<string>,
    gravatarId: Option<string>,
    githubId: Option<I64>,
    githubToken: Option<string>,
    role: R,
    createdAt: Timestamp,
    updatedAt: Timestamp)

  type User = UserRecord<Role>
  type UserRow = UserRecord<int>

  /** `UserRequest`: the body of `POST /user` and `PUT /user/{id}`. */
  datatype UserRequest = UserRequest(
    username: string,
    email: Option<string>,
    password: Option<string>,
    name: Option<string>,
    avatarUrl: Option<string>,
    gravatarId: Option<string>,
    githubId: Option<I64>,
    githubToken: Option<string>,
    role: Role,
    createdAt: Timestamp,
    updatedAt: Timestamp)

  function UserId(u: User): Uuid
  {
    u.id
  }

  function CreatedAt(u: User): int
  {
    u.createdAt
  }

  /** Binding a `User` as a row: the role becomes `role as i16`. */
  function ToRow(u: User): (row: UserRow)
    ensures row.id == u.id
    ensures 1 <= row.role <= 7 && DeclarationOrder[row.role - 1] == u.role
  {
    UserRecord(u.id, u.username, u.email, u.password, u.name, u.avatarUrl, u.gravatarId,
               u.githubId, u.githubToken, Ordinal(u.role), u.createdAt, u.updatedAt)
  }

  /** Reading a row back as a `User` (`role as "role: Role"`); fails on a discriminant outside the enum. */
  function FromRow(row: UserRow): (u: Option<User>)
    ensures u.Some? <==> 1 <= row.role <= 7
    ensures u.Some? ==> ToRow(u.value) == row
  {
    match FromOrdinal(row.role)
    case None => None
    case Some(r) =>
      Some(UserRecord(row.id, row.username, row.email, row.password, row.name, row.avatarUrl,
                      row.gravatarId, row.githubId, row.githubToken, r, row.createdAt, row.updatedAt))
  }

  /** A user survives being stored and read back, role included. */
  lemma RowRoundTrip(u: User)
    ensures FromRow(ToRow(u)) == Some(u)
  {
    OrdinalRoundTrip(u.role);
  }

  /** The fields `#[derive(Serialize)]` writes: every field but `password` and `github_token`. */
  const PublicFields: set<string> :=
    {"id", "username", "email", "name", "avatar_url", "gravatar_id", "github_id",
     "role", "created_at", "updated_at"}

  /** `serde_json::to_string(&user)`, with the two `#[serde(skip_serializing)]` fields left out. */
  function EncodeUser(u: User): (o: JsonObject)
    ensures o.Keys == PublicFields
    ensures "password" !in o && "github_token" !in o
  {
    map[
      "id" := JUuid(u.id),
      "username" := JString(u.username),
      "email" := OptString(u.email),
      "name" := OptString(u.name),
      "avatar_url" := OptString(u.avatarUrl),
      "gravatar_id" := OptString(u.gravatarId),
      "github_id" := (match u.githubId case None => JNull case Some(g) => JInt(g)),
      "role" := JString(Slug(u.role)),
      "created_at" := JTime(u.createdAt),
      "updated_at" := JTime(u.updatedAt)
    ]
  }

  /** The fields that are not `Option`, which deserialisation requires. */
  const RequiredFields: set<string> := {"id", "username", "role", "created_at", "updated_at"}

  /**
   * `serde_json::from_str::<User>`: the required fields must be present with
   * the right shape, `Option` fields may be absent, unknown fields are ignored,
   * and the role goes through the slug deserialiser.
   */
  function DecodeUser(o: JsonObject): (u: Option<User>)
    ensures u.Some? ==> forall f :: f in RequiredFields ==> f in o
    ensures u.Some? ==> o["id"] == JUuid(u.value.id) && o["username"] == JString(u.value.username)
                        && o["created_at"] == JTime(u.value.createdAt)
                        && o["updated_at"] == JTime(u.value.updatedAt)
    ensures u.Some? ==> o["role"].JString? && (o["role"].text !in NamedSlugs ==> u.value.role == Guest)
    ensures u.Some? && "password" !in o ==> u.value.password.None?
    ensures u.Some? && "github_token" !in o ==> u.value.githubToken.None?
  {
    if "id" in o && o["id"].JUuid?
       && "username" in o && o["username"].JString?
       && "role" in o && o["role"].JString?
       && "created_at" in o && o["created_at"].JTime?
       && "updated_at" in o && o["updated_at"].JTime?
       && ReadOptString(o, "email").Some?
       && ReadOptString(o, "password").Some?
       && ReadOptString(o, "name").Some?
       && ReadOptString(o, "avatar_url").Some?
       && ReadOptString(o, "gravatar_id").Some?
       && ReadOptI64(o, "github_id").Some?
       && ReadOptString(o, "github_token").Some?
    then
      Some(UserRecord(
        o["id"].uuid,
        o["username"].text,
        ReadOptString(o, "email").value,
        ReadOptString(o, "password").value,
        ReadOptString(o, "name").value,
        ReadOptString(o, "avatar_url").value,
        ReadOptString(o, "gravatar_id").value,
        ReadOptI64(o, "github_id").value,
        ReadOptString(o, "github_token").value,
        FromSlug(o["role"].text),
        o["created_at"].time,
        o["updated_at"].time))
    else None
  }

  /** What survives a trip through the JSON form: everything but the two skipped fields. */
  function PublicView(u: User): User
  {
    u.(password := None, githubToken := None)
  }

  /**
   * Decoding the JSON form of a user gives the user back with `password` and
   * `github_token` cleared, because serialisation skipped them.
   */
  lemma DecodeEncode(u: User)
    ensures DecodeUser(EncodeUser(u)) == Some(PublicView(u))
  {
    SlugRoundTrip(u.role);
  }

  /** `ToUser::user`: the identity's payload decoded as a user, if present and well formed. */
  function ToUser(identity: Option<JsonObject>): (u: Option<User>)
    ensures u.Some? <==> identity.Some? && DecodeUser(identity.value).Some?
  {
    match identity
    case None => None
    case Some(payload) => DecodeUser(payload)
  }

  /** The user a `UserRequest` describes, stored under the database-generated `id`. */
  function NewUser(id: Uuid, req: UserRequest): (u: User)
  {
    UserRecord(id, req.username, req.email, req.password, req.name, req.avatarUrl,
               req.gravatarId, req.githubId, req.githubToken, req.role, req.createdAt, req.updatedAt)
  }

  /** The `users` table. */
  class UsersTable {
    var rows: map<Uuid, UserRow>

    /** Every row is keyed by its own id and holds a role discriminant that decodes. */
    ghost predicate Valid()
      reads this
    {
      forall k :: k in rows ==> rows[k].id == k && 1 <= rows[k].role <= 7
    }

    /** `us` lists every row exactly once, decoded, in `created_at` order. */
    ghost predicate IsListing(us: seq<User>)
      reads this
    {
      ListsRows(us, rows, rows.Keys, UserId, ToRow, CreatedAt)
    }

    /** Some row has this GitHub id. */
    predicate HasGithubId(g: I64)
      reads this
    {
      exists k :: k in rows && rows[k].githubId == Some(g)
    }

    constructor ()
      ensures Valid() && rows == map[]
    {
      rows := map[];
    }

    /** `User::find_all`: `SELECT ... FROM users ORDER BY created_at`. */
    method FindAll() returns (users: seq<User>)
      requires Valid()
      ensures IsListing(users)
    {
      users := [];
      var done: set<Uuid> := {};
      while done != rows.Keys
        invariant ListsRows(users, rows, done, UserId, ToRow, CreatedAt)
        decreases rows.Keys - done
      {
        assert rows.Keys - done != {};
        var k :| k in rows.Keys - done;
        var u := FromRow(rows[k]).value;
        ListsRowsInsert(users, rows, done, UserId, ToRow, CreatedAt, u);
        users := InsertBy(users, u, CreatedAt);
        done := done + {k};
      }
    }

    /** `User::find_by_id`: `SELECT ... WHERE id = $1` with `fetch_one`. */
    method FindById(id: Uuid) returns (r: Result<User, DbError>)
      requires Valid()
      ensures r.Ok? <==> id in rows
      ensures r.Ok? ==> r.value.id == id && ToRow(r.value) == rows[id]
      ensures r.Err? ==> r.error == RowNotFound
    {
      if id in rows {
        r := Ok(FromRow(rows[id]).value);
      } else {
        r := Err(RowNotFound);
      }
    }

    /** `User::find_by_github_id`: `fetch_one` returns one of the matching rows, if any. */
    method FindByGithubId(g: I64) returns (r: Result<User, DbError>)
      requires Valid()
      ensures r.Ok? <==> HasGithubId(g)
      ensures r.Ok? ==> r.value.githubId == Some(g) && r.value.id in rows && ToRow(r.value) == rows[r.value.id]
      ensures r.Err? ==> r.error == RowNotFound
    {
      if HasGithubId(g) {
        var k :| k in rows && rows[k].githubId == Some(g);
        r := Ok(FromRow(rows[k]).value);
      } else {
        r := Err(RowNotFound);
      }
    }

    /**
     * `User::create`: INSERT every request field, the role as its
     * discriminant, under the id the database generates (`newId`).
     */
    method Create(req: UserRequest, newId: Uuid) returns (r: Result<User, DbError>)
      requires Valid()
      modifies this
      ensures Valid()
      ensures newId in old(rows) ==> r == Err(UniqueViolation) && rows == old(rows)
      ensures newId !in old(rows) ==> r == Ok(NewUser(newId, req)) && rows == old(rows)[newId := ToRow(r.value)]
    {
      if newId in rows {
        r := Err(UniqueViolation);
      } else {
        var u := NewUser(newId, req);
        rows := rows[newId := ToRow(u)];
        r := Ok(u);
      }
    }

    /**
     * `User::update`: overwrites username, email, password, name, avatar_url,
     * gravatar_id, github_token and role, and sets updated_at to `now`; id,
     * github_id and created_at keep their stored values.
     */
    method Update(id: Uuid, req: UserRequest, now: Timestamp) returns (r: Result<User, DbError>)
      requires Valid()
      modifies this
      ensures Valid()
      ensures id !in old(rows) ==> r == Err(RowNotFound) && rows == old(rows)
      ensures id in old(rows) ==>
        && r.Ok?
        && rows == old(rows)[id := ToRow(r.value)]
        && rows[id] == old(rows)[id].(username := req.username, email := req.email,
             password := req.password, name := req.name, avatarUrl := req.avatarUrl,
             gravatarId := req.gravatarId, githubToken := req.githubToken,
             role := Ordinal(req.role), updatedAt := now)
      ensures r.Ok? ==>
        && r.value.id == id
        && r.value.githubId == old(rows)[id].githubId
        && r.value.createdAt == old(rows)[id].createdAt
        && r.value.role == req.role
    {
      if id !in rows {
        r := Err(RowNotFound);
      } else {
        var row := rows[id].(username := req.username, email := req.email,
             password := req.password, name := req.name, avatarUrl := req.avatarUrl,
             gravatarId := req.gravatarId, githubToken := req.githubToken,
             role := Ordinal(req.role), updatedAt := now);
        rows := rows[id := row];
        r := Ok(FromRow(row).value);
        OrdinalRoundTrip(req.role);
      }
    }

    /** `User::delete`: the number of rows removed. */
    method Delete(id: Uuid) returns (count: nat)
      requires Valid()
      modifies this
      ensures Valid()
      ensures count == if id in old(rows) then 1 else 0
      ensures rows == old(rows) - {id}
    {
      count := if id in rows then 1 else 0;
      rows := rows - {id};
    }
  }

  /** Deleting twice: the first call removes the row, the second finds nothing, and the lookup fails. */
  method DeleteTwice(table: UsersTable, id: Uuid) returns (first: nat, second: nat, found: Result<User, DbError>)
    requires table.Valid()
    modifies table
    ensures first == (if id in old(table.rows) then 1 else 0) && second == 0
    ensures found == Err(RowNotFound)
  {
    first := table.Delete(id);
    second := table.Delete(id);
    found := table.FindById(id);
  }
}
