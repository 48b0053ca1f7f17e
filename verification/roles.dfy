/**
 * The `Role` enum of src/models/user.rs: seven variants with explicit i16
 * discriminants, a hand-written slug serialiser and a deserialiser that maps
 * every unknown slug to `Guest`.
 */
module Roles {
  import opened Wrappers

  datatype Role = SuperAdmin | Admin | Editor | Author | Contributor | Subscriber | Guest

  /** The variants in declaration order. */
  const DeclarationOrder: seq<Role> :=
    [SuperAdmin, Admin, Editor, Author, Contributor, Subscriber, Guest]

  /** The declared discriminant (`role as i16`), which is what the `role` column stores. */
  function Ordinal(r: Role): (n: int)
    ensures 1 <= n <= 7
    ensures DeclarationOrder[n - 1] == r
  {
    match r
    case SuperAdmin => 1
    case Admin => 2
    case Editor => 3
    case Author => 4
    case Contributor => 5
    case Subscriber => 6
    case Guest => 7
  }

  /** Reading the column back (`role as "role: Role"`): an integer outside the enum is a decode error. */
  function FromOrdinal(n: int): (r: Option<Role>)
    ensures r.Some? <==> 1 <= n <= 7
    ensures r.Some? ==> Ordinal(r.value) == n
  {
    if 1 <= n <= 7 then Some(DeclarationOrder[n - 1]) else None
  }

  lemma OrdinalRoundTrip(r: Role)
    ensures FromOrdinal(Ordinal(r)) == Some(r)
  {
  }

  lemma OrdinalInjective(a: Role, b: Role)
    ensures Ordinal(a) == Ordinal(b) ==> a == b
  {
  }

  /** `Serialize for Role`: the six named roles get the six named slugs, `Guest` one outside them. */
  function Slug(r: Role): (s: string)
    ensures s in NamedSlugs <==> r != Guest
  {
    match r
    case SuperAdmin => "super-admin"
    case Admin => "admin"
    case Editor => "editor"
    case Author => "author"
    case Contributor => "contributor"
    case Subscriber => "subscriber"
    case Guest => "guest"
  }

  /** The six slugs the deserialiser recognises explicitly. */
  const NamedSlugs: set<string> :=
    {"super-admin", "admin", "editor", "author", "contributor", "subscriber"}

  /** `Deserialize for Role` applied to a string: total, unknown slugs become `Guest`. */
  function FromSlug(s: string): (r: Role)
    ensures r != Guest <==> s in NamedSlugs
    ensures r != Guest ==> Slug(r) == s
  {
    match s
    case "super-admin" => SuperAdmin
    case "admin" => Admin
    case "editor" => Editor
    case "author" => Author
    case "contributor" => Contributor
    case "subscriber" => Subscriber
    case _ => Guest
  }

  /** Serialising then deserialising yields the same role, `Guest` included. */
  lemma SlugRoundTrip(r: Role)
    ensures FromSlug(Slug(r)) == r
  {
  }

  /** Distinct roles have distinct slugs. */
  lemma SlugInjective(a: Role, b: Role)
    ensures Slug(a) == Slug(b) ==> a == b
  {
    SlugRoundTrip(a);
    SlugRoundTrip(b);
  }

  /** Every string other than the six named slugs deserialises to `Guest`. */
  lemma UnknownSlugIsGuest(s: string)
    requires s !in NamedSlugs
    ensures FromSlug(s) == Guest
  {
  }
}
