/**
 * src/handlers/post_handlers.rs: how each `/post` endpoint chooses its
 * status and body. `parseUuid` stands for `Uuid::parse_str` and `slugify`
 * for the slug crate; neither is part of this model.
 */
module PostHandlers {
  import opened Wrappers
  import opened Db
  import opened Roles
  import opened Http
  import opened Posts
  import Users
  import Session

  /** `GET /posts`: every post, ordered by creation time. */
  method FindAll(posts: PostsTable) returns (resp: Response)
    requires posts.Valid()
    ensures resp.Success? && resp.body.PostList? && posts.IsListing(resp.body.posts)
  {
    var listed := posts.FindAll();
    resp := Success(PostList(listed));
  }

  /** `GET /post/{uuid}`. */
  method Find(posts: PostsTable, path: string, parseUuid: string -> Option<Uuid>) returns (resp: Response)
    requires posts.Valid()
    ensures parseUuid(path).None? ==> resp == BadRequest("Invalid Post ID")
    ensures parseUuid(path).Some? && parseUuid(path).value !in posts.rows ==>
              resp == BadRequest("Post not found")
    ensures resp.Status() == 200 <==> parseUuid(path).Some? && parseUuid(path).value in posts.rows
    ensures resp.Success? ==> resp == Success(PostBody(posts.rows[parseUuid(path).value]))
  {
    match parseUuid(path)
    case None =>
      return BadRequest("Invalid Post ID");
    case Some(id) =>
      var result := posts.FindById(id);
      match result
      case Ok(post) =>
        resp := Success(PostBody(post));
      case Err(_) =>
        resp := BadRequest("Post not found");
  }

  /**
   * The role guard of `POST /post` as written: a disjunction of three
   * inequalities, which no role can make false.
   */
  predicate RoleGateRejectsAsWritten(r: Role)
  {
    r != Admin || r != SuperAdmin || r != Author
  }

  /** Every role is turned away by the guard as written, including the three it names. */
  lemma RoleGateRejectsEveryRole(r: Role)
    ensures RoleGateRejectsAsWritten(r)
  {
  }

  /** The evident intent of the guard: reject every role other than Admin, SuperAdmin and Author. */
  predicate RoleGateRejectsIntended(r: Role)
  {
    r != Admin && r != SuperAdmin && r != Author
  }

  lemma IntendedGateAdmitsExactlyThree(r: Role)
    ensures !RoleGateRejectsIntended(r) <==> r in {Admin, SuperAdmin, Author}
  {
  }

  /**
   * `POST /post` as written: a missing or undecodable identity is refused,
   * and so is every decoded user, because the role guard cannot be false.
   * The call to `Post::create` after the guard is unreachable, so the table
   * is only read.
   */
  method Create(posts: PostsTable, identity: Session.Identity, req: PostRequest) returns (resp: Response)
    ensures resp == Unauthorized("Unauthorized")
  {
    match identity.payload
    case None =>
      return Unauthorized("Unauthorized");
    case Some(payload) =>
      match Users.DecodeUser(payload)
      case None =>
        return Unauthorized("Unauthorized");
      case Some(loggedUser) =>
        if RoleGateRejectsAsWritten(loggedUser.role) {
          return Unauthorized("Unauthorized");
        }
        assert false;
  }

  /**
   * `POST /post` with the guard as evidently intended: a user whose identity
   * decodes and whose role is Admin, SuperAdmin or Author creates the post.
   */
  method CreateWithIntendedGate(posts: PostsTable, identity: Session.Identity, req: PostRequest,
                                slugify: string -> string, newId: Uuid, now: Timestamp)
    returns (resp: Response)
    requires posts.Valid()
    modifies posts
    ensures posts.Valid()
    ensures Users.ToUser(identity.payload).None? ==>
              resp == Unauthorized("Unauthorized") && posts.rows == old(posts.rows)
    ensures Users.ToUser(identity.payload).Some? ==>
      var user := Users.ToUser(identity.payload).value;
      && (RoleGateRejectsIntended(user.role) ==>
            resp == Unauthorized("Unauthorized") && posts.rows == old(posts.rows))
      && (!RoleGateRejectsIntended(user.role) && newId !in old(posts.rows) ==>
            var post := NewPost(newId, req, user, slugify(req.title), now);
            resp == Success(PostBody(post)) && posts.rows == old(posts.rows)[newId := post])
      && (!RoleGateRejectsIntended(user.role) && newId in old(posts.rows) ==>
            resp == BadRequest("Error trying to create new post") && posts.rows == old(posts.rows))
  {
    match identity.payload
    case None =>
      return Unauthorized("Unauthorized");
    case Some(payload) =>
      match Users.DecodeUser(payload)
      case None =>
        return Unauthorized("Unauthorized");
      case Some(loggedUser) =>
        if RoleGateRejectsIntended(loggedUser.role) {
          return Unauthorized("Unauthorized");
        }
        var result := posts.Create(req, loggedUser, slugify, newId, now);
        match result
        case Ok(post) =>
          resp := Success(PostBody(post));
        case Err(_) =>
          resp := BadRequest("Error trying to create new post");
  }

  /** `PUT /post/{uuid}`: no identity or ownership check. */
  method Update(posts: PostsTable, path: string, parseUuid: string -> Option<Uuid>, req: PostRequest)
    returns (resp: Response)
    requires posts.Valid()
    modifies posts
    ensures posts.Valid()
    ensures parseUuid(path).None? ==>
              resp == BadRequest("Invalid Post ID") && posts.rows == old(posts.rows)
    ensures parseUuid(path).Some? && parseUuid(path).value !in old(posts.rows) ==>
              resp == BadRequest("Post not found") && posts.rows == old(posts.rows)
    ensures parseUuid(path).Some? && parseUuid(path).value in old(posts.rows) ==>
      var id := parseUuid(path).value;
      && posts.rows == old(posts.rows)[id := old(posts.rows)[id].(title := req.title, content := req.content,
                                                                  excerpt := Excerpt(req.content))]
      && resp == Success(PostBody(posts.rows[id]))
      && posts.rows[id].slug == old(posts.rows)[id].slug
      && posts.rows[id].userId == old(posts.rows)[id].userId
      && posts.rows[id].createdAt == old(posts.rows)[id].createdAt
      && posts.rows[id].updatedAt == old(posts.rows)[id].updatedAt
  {
    match parseUuid(path)
    case None =>
      return BadRequest("Invalid Post ID");
    case Some(id) =>
      var result := posts.Update(id, req);
      match result
      case Ok(post) =>
        resp := Success(PostBody(post));
      case Err(_) =>
        resp := BadRequest("Post not found");
  }

  /** `DELETE /post/{uuid}`: no identity or ownership check. */
  method Delete(posts: PostsTable, path: string, parseUuid: string -> Option<Uuid>) returns (resp: Response)
    requires posts.Valid()
    modifies posts
    ensures posts.Valid()
    ensures parseUuid(path).None? ==>
              resp == BadRequest("Invalid Post ID") && posts.rows == old(posts.rows)
    ensures parseUuid(path).Some? ==>
      var id := parseUuid(path).value;
      && posts.rows == old(posts.rows) - {id}
      && (id in old(posts.rows) ==> resp == Success(Text(DeletedMessage(1))))
      && (id !in old(posts.rows) ==> resp == BadRequest("Post not found"))
  {
    match parseUuid(path)
    case None =>
      return BadRequest("Invalid Post ID");
    case Some(id) =>
      var rows := posts.Delete(id);
      if rows > 0 {
        resp := Success(Text(DeletedMessage(rows)));
      } else {
        resp := BadRequest("Post not found");
      }
  }
}
