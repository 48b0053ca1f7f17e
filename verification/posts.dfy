/**
 * src/models/post.rs: the `Post` record, the excerpt computed from the
 * content, and the `posts` table with the SQL statements of `impl Post` as
 * methods on it.
 */
module Posts {
  import opened Wrappers
  import opened Db
  import opened Words
  import opened Listing
  import Users

  /** `PostRequest`: the body of `POST /post` and `PUT /post/{id}`. */
  datatype PostRequest = PostRequest(title: string, content: string)

  datatype Post = Post(
    id: Uuid,
    userId: Uuid,
    title: string,
    slug: string,
    excerpt: string,
    content: string,
    createdAt: Timestamp,
    updatedAt: Timestamp)

  function PostId(p: Post): Uuid
  {
    p.id
  }

  function CreatedAt(p: Post): int
  {
    p.createdAt
  }

  function Same(p: Post): Post
  {
    p
  }

  /** How many `' '`-separated pieces the excerpt keeps. */
  const ExcerptPieces: nat := 55

  /**
   * `content.split(' ').take(55).collect::<Vec<&str>>().join(" ")`: always a
   * prefix of the content.
   */
  function Excerpt(content: string): (e: string)
    ensures e <= content
  {
    var pieces := Split(content);
    var n := if |pieces| <= ExcerptPieces then |pieces| else ExcerptPieces;
    assert Take(pieces, ExcerptPieces) == pieces[..n];
    JoinPrefix(pieces, n);
    JoinSplit(content);
    Join(Take(pieces, ExcerptPieces))
  }

  /** The excerpt consists of the first (at most) 55 pieces of the content, unchanged. */
  lemma ExcerptPiecesAreLeadingPieces(content: string)
    ensures Split(Excerpt(content)) == Take(Split(content), ExcerptPieces)
    ensures |Split(Excerpt(content))| <= ExcerptPieces
  {
    var kept := Take(Split(content), ExcerptPieces);
    assert forall k :: 0 <= k < |kept| ==> kept[k] == Split(content)[k];
    SplitJoin(kept);
  }

  /** The excerpt is the whole content exactly when the content has at most 55 pieces. */
  lemma ExcerptIsContentIffShort(content: string)
    ensures Excerpt(content) == content <==> |Split(content)| <= ExcerptPieces
  {
    JoinSplit(content);
    if Excerpt(content) == content {
      ExcerptPiecesAreLeadingPieces(content);
    }
  }

  /** The post a request creates. */
  function NewPost(id: Uuid, req: PostRequest, author: Users.User, slug: string, now: Timestamp): Post
  {
    Post(id, author.id, req.title, slug, Excerpt(req.content), req.content, now, now)
  }

  /** The `posts` table. */
  class PostsTable {
    var rows: map<Uuid, Post>

    /** Every row is keyed by its own id and carries the excerpt of its own content. */
    ghost predicate Valid()
      reads this
    {
      forall k :: k in rows ==> rows[k].id == k && rows[k].excerpt == Excerpt(rows[k].content)
    }

    /** `ps` lists every row exactly once, in `created_at` order. */
    ghost predicate IsListing(ps: seq<Post>)
      reads this
    {
      ListsRows(ps, rows, rows.Keys, PostId, Same, CreatedAt)
    }

    constructor ()
      ensures Valid() && rows == map[]
    {
      rows := map[];
    }

    /** `Post::find_all`: `SELECT ... FROM posts ORDER BY created_at`. */
    method FindAll() returns (posts: seq<Post>)
      requires Valid()
      ensures IsListing(posts)
    {
      posts := [];
      var done: set<Uuid> := {};
      while done != rows.Keys
        invariant ListsRows(posts, rows, done, PostId, Same, CreatedAt)
        decreases rows.Keys - done
      {
        assert rows.Keys - done != {};
        var k :| k in rows.Keys - done;
        ListsRowsInsert(posts, rows, done, PostId, Same, CreatedAt, rows[k]);
        posts := InsertBy(posts, rows[k], CreatedAt);
        done := done + {k};
      }
    }

    /** `Post::find_by_id`: `SELECT * FROM posts WHERE id = $1` with `fetch_one`. */
    method FindById(id: Uuid) returns (r: Result<Post, DbError>)
      requires Valid()
      ensures r.Ok? <==> id in rows
      ensures r.Ok? ==> r.value == rows[id] && r.value.id == id
      ensures r.Ok? ==> r.value.excerpt <= r.value.content
      ensures r.Err? ==> r.error == RowNotFound
    {
      if id in rows {
        r := Ok(rows[id]);
      } else {
        r := Err(RowNotFound);
      }
    }

    /**
     * `Post::create`: INSERT with user_id the logged user's id, slug
     * `slugify(title)`, the excerpt of the content, the id the database
     * generates (`newId`) and both timestamps the insertion time `now`.
     */
    method Create(req: PostRequest, author: Users.User, slugify: string -> string,
                  newId: Uuid, now: Timestamp) returns (r: Result<Post, DbError>)
      requires Valid()
      modifies this
      ensures Valid()
      ensures newId in old(rows) ==> r == Err(UniqueViolation) && rows == old(rows)
      ensures newId !in old(rows) ==>
        && r == Ok(NewPost(newId, req, author, slugify(req.title), now))
        && rows == old(rows)[newId := r.value]
      ensures r.Ok? ==> r.value.userId == author.id && r.value.slug == slugify(req.title)
    {
      var slug := slugify(req.title);
      var excerpt := Excerpt(req.content);
      if newId in rows {
        r := Err(UniqueViolation);
      } else {
        var post := Post(newId, author.id, req.title, slug, excerpt, req.content, now, now);
        rows := rows[newId := post];
        r := Ok(post);
      }
    }

    /**
     * `Post::update`: sets title, content and excerpt; the slug is kept so
     * that links to the post stay valid, and no other column changes.
     */
    method Update(id: Uuid, req: PostRequest) returns (r: Result<Post, DbError>)
      requires Valid()
      modifies this
      ensures Valid()
      ensures id !in old(rows) ==> r == Err(RowNotFound) && rows == old(rows)
      ensures id in old(rows) ==>
        && r.Ok?
        && rows == old(rows)[id := r.value]
        && r.value == old(rows)[id].(title := req.title, content := req.content,
                                     excerpt := Excerpt(req.content))
      ensures r.Ok? ==>
        && r.value.slug == old(rows)[id].slug
        && r.value.userId == old(rows)[id].userId
        && r.value.createdAt == old(rows)[id].createdAt
        && r.value.updatedAt == old(rows)[id].updatedAt
    {
      var excerpt := Excerpt(req.content);
      if id !in rows {
        r := Err(RowNotFound);
      } else {
        var post := rows[id].(title := req.title, content := req.content, excerpt := excerpt);
        rows := rows[id := post];
        r := Ok(post);
      }
    }

    /** `Post::delete`: the number of rows removed. */
    method Delete(id: Uuid) returns (count: nat)
      requires Valid()
      modifies this
      ensures Valid()
      ensures count == if id in old(rows) then 1 else 0
      ensures rows == old(rows) - {id}
    {
      count := if id in rows then 1 else 0;
      rows := rows - {id};
    }
  }

  /** Deleting twice: the first call removes the row, the second finds nothing, and the lookup fails. */
  method DeleteTwice(table: PostsTable, id: Uuid) returns (first: nat, second: nat, found: Result<Post, DbError>)
    requires table.Valid()
    modifies table
    ensures first == (if id in old(table.rows) then 1 else 0) && second == 0
    ensures found == Err(RowNotFound)
  {
    first := table.Delete(id);
    second := table.Delete(id);
    found := table.FindById(id);
  }
}
