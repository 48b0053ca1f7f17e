/** The HTTP responses the handlers build: status, and either a body or a redirect location. */
module Http {
  import opened Json
  import Posts

  datatype Body =
    | Text(text: string)
    | PostBody(post: Posts.Post)
    | PostList(posts: seq<Posts.Post>)
    | UserBody(user: JsonObject)
    | UserList(users: seq<JsonObject>)

  datatype Response =
    | Success(body: Body)           // HttpResponse::Ok()
    | BadRequest(message: string)   // HttpResponse::BadRequest().body(..)
    | Unauthorized(message: string) // HttpResponse::Unauthorized().body(..)
    | Found(location: string)       // HttpResponse::Found() with a Location header
  {
    function Status(): nat
    {
      match this
      case Success(_) => 200
      case BadRequest(_) => 400
      case Unauthorized(_) => 401
      case Found(_) => 302
    }
  }

  function DigitChar(d: nat): char
    requires d < 10
  {
    "0123456789"[d]
  }

  /** The number a string of decimal digits denotes, most significant digit first. */
  function DigitsValue(s: string): nat
    requires forall k :: 0 <= k < |s| ==> '0' <= s[k] <= '9'
  {
    if s == [] then 0
    else 10 * DigitsValue(s[..|s| - 1]) + (s[|s| - 1] as int - '0' as int)
  }

  /**
   * `format!("{}", n)` for a non-negative integer: the decimal digits that
   * denote `n`, with no leading zero except for `0` itself.
   */
  function DecimalText(n: nat): (s: string)
    ensures |s| >= 1
    ensures forall k :: 0 <= k < |s| ==> '0' <= s[k] <= '9'
    ensures DigitsValue(s) == n
    ensures s[0] == '0' ==> n == 0 && s == "0"
  {
    if n < 10 then [DigitChar(n)]
    else
      var prefix := DecimalText(n / 10);
      var s := prefix + [DigitChar(n % 10)];
      assert s[..|s| - 1] == prefix;
      s
  }

  /** `format!("Successfully deleted {} record(s)", rows)`. */
  function DeletedMessage(rows: nat): string
  {
    "Successfully deleted " + DecimalText(rows) + " record(s)"
  }
}
