/**
 * The callback-path check and redirect URL of `github_oauth2_config` in
 * src/handlers/github_oauth2/mod.rs. The two `panic!`s become `Err` with the
 * panic message. Reading the environment and registering routes are not part
 * of this model; the callback route is recorded as the path it is bound to.
 */
module OAuthConfig {
  import opened Wrappers

  /** Bytes `c` takes in UTF-8. */
  function Utf8Width(c: char): (n: nat)
    ensures 1 <= n <= 4
    ensures n == 1 <==> (c as int) < 0x80
  {
    if (c as int) < 0x80 then 1
    else if (c as int) < 0x800 then 2
    else if (c as int) < 0x1_0000 then 3
    else 4
  }

  /**
   * `String::len()`: the length in UTF-8 bytes, not in characters; it lies
   * between the character count and four times it.
   */
  function Utf8Length(s: string): (n: nat)
    ensures |s| <= n <= 4 * |s|
  {
    if s == [] then 0 else Utf8Width(s[0]) + Utf8Length(s[1..])
  }

  /** For ASCII text, byte length and character count agree. */
  lemma {:induction false} Utf8LengthAscii(s: string)
    requires forall k :: 0 <= k < |s| ==> (s[k] as int) < 0x80
    ensures Utf8Length(s) == |s|
  {
    if s != [] {
      Utf8LengthAscii(s[1..]);
    }
  }

  /** What the configuration registers for the OAuth callback. */
  datatype CallbackSetup = CallbackSetup(redirectUrl: string, callbackRoute: string)

  const NoLeadingSlash := "Invalid callback url. Callback url needs to start with a /"
  const TooShort := "Callback url not valid"

  /**
   * The callback path must start with `/` and be longer than 2 bytes; the
   * redirect URL is `https://` followed by the app URL and the path, and the
   * callback handler is routed at the path itself.
   */
  function Configure(appUrl: string, callbackPath: string): (r: Result<CallbackSetup, string>)
    ensures r.Ok? ==> r.value.redirectUrl == "https://" + appUrl + callbackPath
    ensures r.Ok? ==> r.value.callbackRoute == callbackPath
  {
    if !(|callbackPath| > 0 && callbackPath[0] == '/') then Err(NoLeadingSlash)
    else if Utf8Length(callbackPath) <= 2 then Err(TooShort)
    else Ok(CallbackSetup("https://" + appUrl + callbackPath, callbackPath))
  }

  /**
   * A path is accepted exactly when it starts with `/` and has at least 3
   * bytes; an accepted path has at least one character after the slash.
   */
  lemma AcceptedPaths(appUrl: string, callbackPath: string)
    ensures Configure(appUrl, callbackPath).Ok? <==>
              |callbackPath| > 0 && callbackPath[0] == '/' && Utf8Length(callbackPath) >= 3
    ensures Configure(appUrl, callbackPath).Ok? ==> |callbackPath| >= 2
  {
    if Configure(appUrl, callbackPath).Ok? {
    }
  }

  /** A path without a leading slash is refused with the first panic's message. */
  lemma NoSlashRejected(appUrl: string, callbackPath: string)
    requires callbackPath == [] || callbackPath[0] != '/'
    ensures Configure(appUrl, callbackPath) == Err(NoLeadingSlash)
  {
  }

  /**
   * An ASCII path is accepted exactly when it starts with `/` and has at
   * least three characters: "/a" is refused, although the comment above the
   * check asks only for one character after the slash.
   */
  lemma AsciiPathsNeedTwoCharactersAfterSlash(appUrl: string, callbackPath: string)
    requires forall k :: 0 <= k < |callbackPath| ==> (callbackPath[k] as int) < 0x80
    ensures Configure(appUrl, callbackPath).Ok? <==>
              |callbackPath| >= 3 && callbackPath[0] == '/'
  {
    Utf8LengthAscii(callbackPath);
  }

  lemma SlashAndOneLetterRejected(appUrl: string)
    ensures Configure(appUrl, "/a") == Err(TooShort)
  {
    assert Utf8Length("/a") == 2 by {
      assert "/a"[1..] == "a";
      assert "a"[1..] == [];
    }
  }
}
