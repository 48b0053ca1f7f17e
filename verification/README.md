# minipress core, modelled in Dafny

A verified model of the data and decision logic of minipress, a small blog
backend written in Rust (actix-web, sqlx, oauth2). It covers:

- the `Role` enum: its i16 discriminants and its slug serialiser and
  deserialiser (`Roles`);
- the `users` and `posts` tables, held in memory by the classes
  `Users.UsersTable` and `Posts.PostsTable`. Each is a map from id to row,
  and the SQL statements of `impl User` and `impl Post` are methods on it;
- the post excerpt, the first 55 `' '`-separated pieces of the content
  (`Words`, `Posts.Excerpt`);
- the JSON form of a user, which skips `password` and `github_token`, and the
  decoding of the identity payload (`Json`, `Users`);
- how every `/post` and `/user` handler picks its status and body
  (`PostHandlers`, `UserHandlers`, `Http`);
- the GitHub OAuth callback, which finds or creates the user and remembers it,
  plus the `LoggedUser` extractor and logout (`GithubAuth`, `Session`);
- the callback-path check and redirect URL built at start-up (`OAuthConfig`).

Inputs the model cannot see become parameters:

- `parseUuid: string -> Option<Uuid>` stands for `Uuid::parse_str`.
- `slugify: string -> string` stands for the slug crate.
- `newId` is the primary key the database generates on INSERT.
- `now`, `createdAt` and `updatedAt` are clock readings.
- `token` and `info` are the OAuth access token and the GitHub profile that
  `exchange_code` and `read_user` fetch over the network.

The database's `ORDER BY created_at` is modelled as an insertion loop whose
result is proved sorted and to list each row exactly once. Ties are left in
any order.

Where the code's own comments or the natural reading of a feature promise more than the code does, the model follows the code:

- The excerpt splits on the single character `' '`, not on whitespace. Runs of
  spaces give empty pieces.
- The identity cookie holds `serde_json::to_string(&user)`, which skips
  `password` and `github_token`. A user read back from the identity therefore
  has both as `None` (`Users.DecodeEncode`), not the full internal record.
- The role guard of `POST /post` is always true, so post creation always
  answers 401 (see Findings). The roles it names are Admin, SuperAdmin and
  Author. The doc comment of `Editor` (src/models/user.rs:34) says editors
  publish posts too; the corrected guard keeps the three roles the code names.
- `Post::update` changes neither `slug` nor `updated_at`.

## Model

| member | source | states |
|---|---|---|
| `Roles.Ordinal` | src/models/user.rs:28-44 | each role's discriminant is in 1..7 and is its position in declaration order (SuperAdmin=1 … Guest=7) |
| `Roles.FromOrdinal` | src/models/user.rs:28-44 | reading a stored discriminant back succeeds exactly for 1..7 and gives the role with that discriminant |
| `Roles.OrdinalRoundTrip` | src/models/user.rs:186-211 | storing `role as i16` and reading it back gives the same role |
| `Roles.OrdinalInjective` | src/models/user.rs:30-44 | distinct roles have distinct discriminants |
| `Roles.Slug` | src/models/user.rs:46-62 | the six named roles serialise to the six named slugs, and Guest to a slug outside them |
| `Roles.FromSlug` | src/models/user.rs:64-81 | deserialisation is total; it gives a non-Guest role exactly for the six named slugs, and then that role's slug is the input |
| `Roles.SlugRoundTrip` | src/models/user.rs:46-81 | serialising any of the seven roles and deserialising the slug gives the same role, Guest included |
| `Roles.SlugInjective` | src/models/user.rs:51-59 | distinct roles serialise to distinct slugs |
| `Roles.UnknownSlugIsGuest` | src/models/user.rs:70-79 | every string other than the six named slugs deserialises to Guest |
| `Words.Split` | src/models/post.rs:83-86 | `split(' ')` yields at least one piece, and no piece contains a space |
| `Words.Join` | src/models/post.rs:88 | `join(" ")` of no pieces is empty; otherwise it starts with the first piece, followed by a single space when more pieces follow |
| `Words.JoinSplit` | src/models/post.rs:83-88 | joining the pieces of a split with `" "` gives back the original string |
| `Words.SplitJoin` | src/models/post.rs:83-88 | splitting a join of space-free pieces gives back the pieces |
| `Words.JoinPrefix` | src/models/post.rs:86-88 | joining the first n pieces gives a prefix of joining all of them |
| `Posts.Excerpt` | src/models/post.rs:83-88 | the excerpt of any content is a prefix of that content |
| `Posts.ExcerptPiecesAreLeadingPieces` | src/models/post.rs:83-88 | the excerpt's pieces are exactly the first min(n, 55) pieces of the content, so there are at most 55 |
| `Posts.ExcerptIsContentIffShort` | src/models/post.rs:83-88 | the excerpt equals the content if and only if the content has at most 55 pieces |
| `Posts.PostsTable.FindAll` | src/models/post.rs:51-64 | returns every stored post exactly once, ordered by created_at |
| `Posts.PostsTable.FindById` | src/models/post.rs:66-78 | succeeds exactly when the id is stored, and returns that row, whose excerpt is a prefix of its content; otherwise RowNotFound |
| `Posts.PostsTable.Create` | src/models/post.rs:80-104 | inserts a post with user_id the logged user's id, slug `slugify(title)` and the excerpt of the content; keeps the table invariant that every excerpt is `Excerpt(content)`; a taken id fails and changes nothing |
| `Posts.PostsTable.Update` | src/models/post.rs:106-132 | on a stored id, changes only title, content and excerpt; slug, user_id, created_at and updated_at keep their values; a missing id gives RowNotFound and changes nothing |
| `Posts.PostsTable.Delete` | src/models/post.rs:134-143 | returns 1 if the id was stored and 0 otherwise; afterwards the id is absent and every other row is unchanged |
| `Posts.DeleteTwice` | src/models/post.rs:134-143 | a second delete of the same id returns 0, and a following `find_by_id` fails with RowNotFound |
| `Users.ToRow` | src/models/user.rs:195-205 | binding a user keeps its id and stores the role as its discriminant, a value in 1..7 naming that role |
| `Users.FromRow` | src/models/user.rs:138-141 | a stored row reads back as a user exactly when its role discriminant is in 1..7, and binding that user gives the row again |
| `Users.RowRoundTrip` | src/models/user.rs:186-211 | a user written as a row and read back is the same user |
| `Users.EncodeUser` | src/models/user.rs:84-101 | the JSON form of a user has exactly the ten public fields, and never `password` or `github_token` |
| `Users.DecodeUser` | src/models/user.rs:84-101 | decoding succeeds only when the five non-`Option` fields are present, and then takes id, username and both timestamps from them; an unknown role slug gives Guest; an absent `password` or `github_token` gives None |
| `Users.DecodeEncode` | src/models/user.rs:84-101 | decoding the JSON form gives the user back with password and github_token cleared |
| `Users.ToUser` | src/models/user.rs:107-117 | gives a user exactly when the identity is present and its payload decodes |
| `Users.UsersTable.FindAll` | src/models/user.rs:135-150 | returns every stored user exactly once, decoded, ordered by created_at |
| `Users.UsersTable.FindById` | src/models/user.rs:152-167 | succeeds exactly when the id is stored and returns the user whose row that is; otherwise RowNotFound |
| `Users.UsersTable.FindByGithubId` | src/models/user.rs:169-184 | succeeds exactly when some row has that github_id and returns one such stored user; otherwise RowNotFound |
| `Users.UsersTable.Create` | src/models/user.rs:186-211 | stores every request field verbatim, including role (as its discriminant), github_id and both timestamps, under the generated id; a taken id fails and changes nothing |
| `Users.UsersTable.Update` | src/models/user.rs:213-238 | overwrites username, email, password, name, avatar_url, gravatar_id, github_token and role, and sets updated_at to now; id, github_id and created_at are unchanged; a missing id gives RowNotFound and changes nothing |
| `Users.UsersTable.Delete` | src/models/user.rs:240-247 | returns 1 if the id was stored and 0 otherwise; afterwards the id is absent and every other row is unchanged |
| `Users.DeleteTwice` | src/models/user.rs:240-247 | a second delete of the same id returns 0, and a following `find_by_id` fails with RowNotFound |
| `Http.DecimalText` | src/handlers/post_handlers.rs:91 | `format!("{}", n)` yields decimal digits whose value is n, with no leading zero except for 0 itself |
| `PostHandlers.FindAll` | src/handlers/post_handlers.rs:11-18 | answers 200 with every post, in creation order |
| `PostHandlers.Find` | src/handlers/post_handlers.rs:20-32 | an invalid UUID answers 400 "Invalid Post ID"; an unknown id answers 400 "Post not found"; status is 200 exactly when the id parses and is stored, and the body is then that post |
| `PostHandlers.RoleGateRejectsEveryRole` | src/handlers/post_handlers.rs:47-49 | the guard as written holds for every role |
| `PostHandlers.IntendedGateAdmitsExactlyThree` | src/handlers/post_handlers.rs:47 | the corrected guard admits exactly Admin, SuperAdmin and Author |
| `PostHandlers.Create` | src/handlers/post_handlers.rs:34-60 | as written, every request answers 401 "Unauthorized": no identity, an undecodable identity, or any decoded user; the posts table is never written |
| `PostHandlers.CreateWithIntendedGate` | src/handlers/post_handlers.rs:34-60 | with the corrected guard: no decodable identity or a role outside the three answers 401 with no change; an admitted user's post is stored with their id and answered with 200; a failed insert answers 400 "Error trying to create new post" |
| `PostHandlers.Update` | src/handlers/post_handlers.rs:62-78 | no identity check; an invalid UUID answers 400 "Invalid Post ID" and an unknown id 400 "Post not found", both with no change; otherwise only that post's title, content and excerpt change (slug, user_id, created_at, updated_at and every other post are kept) and the answer is 200 with the updated post |
| `PostHandlers.Delete` | src/handlers/post_handlers.rs:80-98 | no identity check; an invalid UUID answers 400 "Invalid Post ID" with no change; a stored id is removed and answered with 200 "Successfully deleted 1 record(s)"; an unknown id answers 400 "Post not found" |
| `UserHandlers.EncodeAll` | src/handlers/user_handlers.rs:13 | the JSON array has one object per user, in order; each decodes back to its user with password and github_token cleared, and none has those two keys |
| `UserHandlers.FindAll` | src/handlers/user_handlers.rs:9-16 | answers 200 with the JSON form of every user in creation order, none carrying a password or token |
| `UserHandlers.Find` | src/handlers/user_handlers.rs:18-30 | an invalid UUID answers 400 "Invalid User ID"; an unknown id answers 400 "User not found"; status is 200 exactly when the id parses and is stored, and the body is then that user's JSON form |
| `UserHandlers.Create` | src/handlers/user_handlers.rs:32-39 | a stored request answers 200 with the new user's JSON form; a failed insert answers 400 "Error trying to create new user" with no change |
| `UserHandlers.Update` | src/handlers/user_handlers.rs:41-57 | an invalid UUID answers 400 "Invalid User ID" and an unknown id 400 "User not found", both with no change; otherwise only that row changes, taking the request's username, email, password, name, avatar_url, gravatar_id, github_token and role and updated_at = now (github_id, created_at and every other row are kept), and the answer is 200 with the JSON form of the updated user |
| `UserHandlers.Delete` | src/handlers/user_handlers.rs:59-77 | an invalid UUID answers 400 "Invalid User ID" with no change; a stored id is removed and answered with 200 "Successfully deleted 1 record(s)"; an unknown id answers 400 "User not found" |
| `GithubAuth.AsI64` | src/handlers/github_oauth2/auth_handler.rs:101 | `id as i64` keeps the value below 2^63 and otherwise wraps it to the negative value congruent modulo 2^64 |
| `GithubAuth.NewUserRequest` | src/handlers/github_oauth2/auth_handler.rs:104-117 | the request for a first login is a Subscriber with no password and the access token; its github_id is the GitHub id modulo 2^64, and equals it exactly when it is below 2^63 |
| `GithubAuth.Auth` | src/handlers/github_oauth2/auth_handler.rs:81-134 | a known GitHub id: that stored user is remembered, no user is created, 302 to "/"; an unknown id: a Subscriber is created (username the login, no password, github_id the wrapped id, github_token the access token, gravatar_id from the profile) and remembered, 302 to "/"; a failed create: 400 "Failed to find or create user", table and identity unchanged; `state` plays no part |
| `GithubAuth.CallbackTwice` | src/handlers/github_oauth2/auth_handler.rs:100-126 | for a GitHub account with no local user, two callbacks create exactly one user (the table grows by one), and the second remembers that same user |
| `GithubAuth.LoggedUser` | src/handlers/github_oauth2/auth_handler.rs:19-34 | fails with 401 "Unauthorized" exactly when the identity is absent or does not decode, and otherwise gives the decoded user |
| `GithubAuth.LoggedUserAfterRemember` | src/handlers/github_oauth2/auth_handler.rs:128 | a user remembered by the callback is extracted again with only password and github_token cleared |
| `GithubAuth.Logout` | src/handlers/github_oauth2/logout_handler.rs:5-11 | the identity is cleared and the answer is 302 to "/" |
| `Session.Identity.Remember` | src/handlers/github_oauth2/auth_handler.rs:128 | the identity holds exactly the given payload |
| `Session.Identity.Forget` | src/handlers/github_oauth2/logout_handler.rs:7 | the identity holds nothing |
| `OAuthConfig.Utf8Length` | src/handlers/github_oauth2/mod.rs:37 | `len()` counts UTF-8 bytes, between the number of characters and four times it |
| `OAuthConfig.Configure` | src/handlers/github_oauth2/mod.rs:32-61 | an accepted path gives the redirect URL "https://" + APP_URL + path, and the callback is routed at exactly that path |
| `OAuthConfig.AcceptedPaths` | src/handlers/github_oauth2/mod.rs:34-39 | a path is accepted exactly when it starts with "/" and is at least 3 bytes long; an accepted path has at least two characters |
| `OAuthConfig.NoSlashRejected` | src/handlers/github_oauth2/mod.rs:34-36 | a path that does not start with "/" is refused with the first panic's message |
| `OAuthConfig.AsciiPathsNeedTwoCharactersAfterSlash` | src/handlers/github_oauth2/mod.rs:32-39 | an ASCII path is accepted exactly when it starts with "/" and has at least 3 characters |
| `OAuthConfig.SlashAndOneLetterRejected` | src/handlers/github_oauth2/mod.rs:32-39 | "/a" is refused as "Callback url not valid", although the comment above the check asks only for one character after the slash |

## Findings

| source | as written | input that shows it | evidently intended | confidence | as-written member | corrected member |
|---|---|---|---|---|---|---|
| src/handlers/post_handlers.rs:47 | `u.role != Role::Admin \|\| u.role != Role::SuperAdmin \|\| u.role != Role::Author` rejects every role | any decoded user, e.g. one with role Author, one of the three roles the guard names | reject only roles other than Admin, SuperAdmin and Author (the three inequalities joined by `&&`) | high; not executed | `PostHandlers.RoleGateRejectsEveryRole` | `PostHandlers.CreateWithIntendedGate` |

## Left out

- Storage failures other than a missing row and a taken primary key are not modelled: connection loss, pool exhaustion, transaction begin or commit failures, and constraint violations of a schema that is not part of this model (for example a unique username or a foreign key from `posts.user_id`). So the "Error trying to read all posts/users from database" branches, and the error branch of the two delete handlers, are unreachable in the model.
- Panics are left out: `exchange_code(..).expect`, `read_user`'s `unwrap`s, `pool.begin().await.unwrap()` in `Post::update` and the environment `unwrap`s in the configuration.
- `Uuid::parse_str`, `slugify` and the UUID text form are taken as given functions or values. Their behaviour is not modelled.
- The default values of `posts.created_at` and `posts.updated_at` come from a schema that is not part of this model. `Posts.PostsTable.Create` assumes both are the insertion time.
- JSON is modelled as objects from field name to value. The text syntax is not modelled, nor payloads that are not objects. Timestamps and UUIDs are carried as values; their string formats are not modelled.
- Signing and encryption of the identity cookie, and its transport, are not modelled. The identity is a slot that holds a payload.
- `PostHandlers.Create`: the call to `Post::create` after the role guard is not modelled, because the guard can never be false and that call cannot be reached.
- `RedirectUrl::new(..).expect("Invalid redirect URL")` validates the URL in the oauth2 library; that check is not modelled.
- The login handler (random CSRF token and PKCE challenge, authorization URL building) is not modelled. Neither are the index and favicon handlers, templating, start-up, TLS, logging or the connection pool.
- Concurrency is not modelled: each handler runs alone against the tables.
- GitHub profile fields the callback does not read are not modelled.
