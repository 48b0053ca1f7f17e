/**
 * src/handlers/user_handlers.rs: how each `/user` endpoint chooses its
 * status and body. None of them consults the identity or the role.
 * `parseUuid` stands for `Uuid::parse_str`, which is not part of this model.
 */
module UserHandlers {
  import opened Wrappers
  import opened Db
  import opened Json
  import opened Http
  import opened Users
  import opened Roles

  /**
   * The JSON array of users: one object per user, in order, each of which
   * decodes back to that user without password and token.
   */
  function EncodeAll(us: seq<User>): (os: seq<JsonObject>)
    ensures |os| == |us|
    ensures forall i :: 0 <= i < |os| ==> DecodeUser(os[i]) == Some(PublicView(us[i]))
    ensures forall i :: 0 <= i < |os| ==> "password" !in os[i] && "github_token" !in os[i]
  {
    var os := seq(|us|, i requires 0 <= i < |us| => EncodeUser(us[i]));
    assert forall i :: 0 <= i < |os| ==> DecodeUser(os[i]) == Some(PublicView(us[i])) by {
      forall i | 0 <= i < |os|
        ensures DecodeUser(os[i]) == Some(PublicView(us[i]))
      {
        DecodeEncode(us[i]);
      }
    }
    os
  }

  /** `GET /users`: every user in creation order, none of them showing a password or token. */
  method FindAll(users: UsersTable) returns (resp: Response)
    requires users.Valid()
    ensures resp.Success? && resp.body.UserList?
    ensures exists us :: users.IsListing(us) && resp.body.users == EncodeAll(us)
    ensures forall i :: 0 <= i < |resp.body.users| ==>
              "password" !in resp.body.users[i] && "github_token" !in resp.body.users[i]
  {
    var listed := users.FindAll();
    resp := Success(UserList(EncodeAll(listed)));
  }

  /** `GET /user/{uuid}`. */
  method Find(users: UsersTable, path: string, parseUuid: string -> Option<Uuid>) returns (resp: Response)
    requires users.Valid()
    ensures parseUuid(path).None? ==> resp == BadRequest("Invalid User ID")
    ensures parseUuid(path).Some? && parseUuid(path).value !in users.rows ==>
              resp == BadRequest("User not found")
    ensures resp.Status() == 200 <==> parseUuid(path).Some? && parseUuid(path).value in users.rows
    ensures resp.Success? ==>
              exists u :: ToRow(u) == users.rows[parseUuid(path).value] && resp == Success(UserBody(EncodeUser(u)))
  {
    match parseUuid(path)
    case None =>
      return BadRequest("Invalid User ID");
    case Some(id) =>
      var result := users.FindById(id);
      match result
      case Ok(user) =>
        resp := Success(UserBody(EncodeUser(user)));
      case Err(_) =>
        resp := BadRequest("User not found");
  }

  /** `POST /user`: the request is stored as it is; a failed insert is reported. */
  method Create(users: UsersTable, req: UserRequest, newId: Uuid) returns (resp: Response)
    requires users.Valid()
    modifies users
    ensures users.Valid()
    ensures newId in old(users.rows) ==>
              resp == BadRequest("Error trying to create new user") && users.rows == old(users.rows)
    ensures newId !in old(users.rows) ==>
              && resp == Success(UserBody(EncodeUser(NewUser(newId, req))))
              && users.rows == old(users.rows)[newId := ToRow(NewUser(newId, req))]
  {
    var result := users.Create(req, newId);
    match result
    case Ok(user) =>
      resp := Success(UserBody(EncodeUser(user)));
    case Err(_) =>
      resp := BadRequest("Error trying to create new user");
  }

  /** `PUT /user/{uuid}`. */
  method Update(users: UsersTable, path: string, parseUuid: string -> Option<Uuid>,
                req: UserRequest, now: Timestamp) returns (resp: Response)
    requires users.Valid()
    modifies users
    ensures users.Valid()
    ensures parseUuid(path).None? ==>
              resp == BadRequest("Invalid User ID") && users.rows == old(users.rows)
    ensures parseUuid(path).Some? && parseUuid(path).value !in old(users.rows) ==>
              resp == BadRequest("User not found") && users.rows == old(users.rows)
    ensures parseUuid(path).Some? && parseUuid(path).value in old(users.rows) ==>
      var id := parseUuid(path).value;
      && users.rows == old(users.rows)[id := old(users.rows)[id].(username := req.username, email := req.email,
           password := req.password, name := req.name, avatarUrl := req.avatarUrl,
           gravatarId := req.gravatarId, githubToken := req.githubToken,
           role := Ordinal(req.role), updatedAt := now)]
      && users.rows[id].githubId == old(users.rows)[id].githubId
      && users.rows[id].createdAt == old(users.rows)[id].createdAt
      && FromRow(users.rows[id]).Some?
      && FromRow(users.rows[id]).value.role == req.role
      && resp == Success(UserBody(EncodeUser(FromRow(users.rows[id]).value)))
  {
    match parseUuid(path)
    case None =>
      return BadRequest("Invalid User ID");
    case Some(id) =>
      var result := users.Update(id, req, now);
      match result
      case Ok(user) =>
        resp := Success(UserBody(EncodeUser(user)));
      case Err(_) =>
        resp := BadRequest("User not found");
  }

  /** `DELETE /user/{uuid}`. */
  method Delete(users: UsersTable, path: string, parseUuid: string -> Option<Uuid>) returns (resp: Response)
    requires users.Valid()
    modifies users
    ensures users.Valid()
    ensures parseUuid(path).None? ==>
              resp == BadRequest("Invalid User ID") && users.rows == old(users.rows)
    ensures parseUuid(path).Some? ==>
      var id := parseUuid(path).value;
      && users.rows == old(users.rows) - {id}
      && (id in old(users.rows) ==> resp == Success(Text(DeletedMessage(1))))
      && (id !in old(users.rows) ==> resp == BadRequest("User not found"))
  {
    match parseUuid(path)
    case None =>
      return BadRequest("Invalid User ID");
    case Some(id) =>
      var rows := users.Delete(id);
      if rows > 0 {
        resp := Success(Text(DeletedMessage(rows)));
      } else {
        resp := BadRequest("User not found");
      }
  }
}
