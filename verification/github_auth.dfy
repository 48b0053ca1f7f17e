/**
 * src/handlers/github_oauth2/auth_handler.rs: the OAuth callback that finds
 * or creates the local user for a GitHub account and remembers it in the
 * identity slot, and the `LoggedUser` extractor. The token exchange and the
 * profile fetch are network calls: their results, the access token and the
 * profile, are inputs here. src/handlers/github_oauth2/logout_handler.rs is
 * modelled too, as clearing the identity slot.
 */
module GithubAuth {
  import opened Wrappers
  import opened Db
  import opened Json
  import opened Roles
  import opened Http
  import opened Users
  import Session

  /** The fields of `GithubUserInfo` the callback uses. */
  datatype GithubUserInfo = GithubUserInfo(
    login: string,
    id: U64,
    avatarUrl: Option<string>,
    gravatarId: string,
    name: Option<string>,
    email: Option<string>)

  const TwoTo63: int := 0x8000_0000_0000_0000
  const TwoTo64: int := 0x1_0000_0000_0000_0000

  /** `x as i64` for a `u64`: two's-complement reinterpretation of the same 64 bits. */
  function AsI64(x: U64): (r: I64)
    ensures (r - x) % TwoTo64 == 0
    ensures r == x <==> x < TwoTo63
  {
    if x < TwoTo63 then x else x - TwoTo64
  }

  /** The `UserRequest` built for a first-time GitHub login. */
  function NewUserRequest(info: GithubUserInfo, token: string, createdAt: Timestamp, updatedAt: Timestamp): (req: UserRequest)
    ensures req.githubId.Some? && (req.githubId.value - info.id) % TwoTo64 == 0
    ensures req.githubId == Some(info.id as int) <==> info.id < TwoTo63
    ensures req.role == Subscriber && req.password.None? && req.githubToken == Some(token)
  {
    UserRequest(
      username := info.login,
      email := info.email,
      password := None,
      name := info.name,
      avatarUrl := info.avatarUrl,
      gravatarId := Some(info.gravatarId),
      githubId := Some(AsI64(info.id)),
      githubToken := Some(token),
      role := Subscriber,
      createdAt := createdAt,
      updatedAt := updatedAt)
  }

  /**
   * `auth`: look the account up by its GitHub id; if there is none, create a
   * Subscriber for it with the access token and no password; remember the
   * chosen user and redirect to `/`. A failed create answers 400 and leaves
   * the identity alone. `state` is read from the query and discarded.
   * `newId` is the id the database would generate, `createdAt` and
   * `updatedAt` the two clock readings.
   */
  method Auth(identity: Session.Identity, users: UsersTable, state: string, token: string,
              info: GithubUserInfo, newId: Uuid, createdAt: Timestamp, updatedAt: Timestamp)
    returns (resp: Response)
    requires users.Valid()
    modifies identity, users
    ensures users.Valid()
    ensures old(users.HasGithubId(AsI64(info.id))) ==>
      && resp == Found("/")
      && users.rows == old(users.rows)
      && exists u: User :: && u.githubId == Some(AsI64(info.id)) && u.id in users.rows
                     && ToRow(u) == users.rows[u.id] && identity.payload == Some(EncodeUser(u))
    ensures !old(users.HasGithubId(AsI64(info.id))) && newId !in old(users.rows) ==>
      var u := NewUser(newId, NewUserRequest(info, token, createdAt, updatedAt));
      && resp == Found("/")
      && users.rows == old(users.rows)[newId := ToRow(u)]
      && identity.payload == Some(EncodeUser(u))
    ensures !old(users.HasGithubId(AsI64(info.id))) && newId in old(users.rows) ==>
      && resp == BadRequest("Failed to find or create user")
      && users.rows == old(users.rows)
      && identity.payload == old(identity.payload)
    ensures resp.Found? ==>
      && ToUser(identity.payload).Some?
      && ToUser(identity.payload).value.githubId == Some(AsI64(info.id))
      && ToUser(identity.payload).value.githubToken == None
  {
    var user: User;
    var found := users.FindByGithubId(AsI64(info.id));
    match found {
      case Ok(u) =>
        user := u;
      case Err(_) =>
        var created := users.Create(NewUserRequest(info, token, createdAt, updatedAt), newId);
        match created {
          case Ok(u) =>
            user := u;
          case Err(_) =>
            return BadRequest("Failed to find or create user");
        }
    }
    identity.Remember(EncodeUser(user));
    DecodeEncode(user);
    resp := Found("/");
  }

  /**
   * Two callbacks for a GitHub account with no local user: the first creates
   * exactly one user, the second reuses it, and both leave it remembered.
   */
  method CallbackTwice(identity: Session.Identity, users: UsersTable, token: string, info: GithubUserInfo,
                       newId: Uuid, otherId: Uuid, t1: Timestamp, t2: Timestamp, t3: Timestamp, t4: Timestamp)
    returns (first: Response, second: Response)
    requires users.Valid()
    requires !users.HasGithubId(AsI64(info.id)) && newId !in users.rows
    modifies identity, users
    ensures first == Found("/") && second == Found("/")
    ensures users.rows == old(users.rows)[newId := ToRow(NewUser(newId, NewUserRequest(info, token, t1, t2)))]
    ensures |users.rows| == |old(users.rows)| + 1
    ensures ToUser(identity.payload).Some? && ToUser(identity.payload).value.id == newId
  {
    var g := AsI64(info.id);
    ghost var row := ToRow(NewUser(newId, NewUserRequest(info, token, t1, t2)));
    first := Auth(identity, users, "", token, info, newId, t1, t2);
    assert users.rows == old(users.rows)[newId := row];
    assert users.rows[newId].githubId == Some(g);
    second := Auth(identity, users, "", token, info, otherId, t3, t4);
    var u: User :| && u.githubId == Some(g) && u.id in users.rows
                   && ToRow(u) == users.rows[u.id] && identity.payload == Some(EncodeUser(u));
    OnlyNewRowHasGithubId(old(users.rows), newId, row, g, u.id);
    DecodeEncode(u);
    assert users.rows.Keys == old(users.rows).Keys + {newId};
  }

  /** After inserting one row into a table with no row for `g`, only that row has `g`. */
  lemma OnlyNewRowHasGithubId(before: map<Uuid, UserRow>, newId: Uuid, row: UserRow, g: I64, k: Uuid)
    requires forall j :: j in before ==> before[j].githubId != Some(g)
    requires k in before[newId := row] && before[newId := row][k].githubId == Some(g)
    ensures k == newId
  {
  }

  /**
   * `LoggedUser::from_request`: the user in the identity, or a 401 when the
   * identity is absent or does not decode.
   */
  function LoggedUser(payload: Option<JsonObject>): (r: Result<User, Response>)
    ensures r.Err? <==> ToUser(payload).None?
    ensures r.Err? ==> r.error == Unauthorized("Unauthorized")
    ensures r.Ok? ==> ToUser(payload) == Some(r.value)
  {
    if payload.Some? && DecodeUser(payload.value).Some? then Ok(DecodeUser(payload.value).value)
    else Err(Unauthorized("Unauthorized"))
  }

  /** A user logged in through `Auth` is what `LoggedUser` extracts, minus the skipped fields. */
  lemma LoggedUserAfterRemember(u: User)
    ensures LoggedUser(Some(EncodeUser(u))) == Ok(PublicView(u))
  {
    DecodeEncode(u);
  }

  /** `logout`: forget the identity and redirect to `/`. */
  method Logout(identity: Session.Identity) returns (resp: Response)
    modifies identity
    ensures identity.payload == None
    ensures resp == Found("/")
  {
    identity.Forget();
    resp := Found("/");
  }
}
