/** The embedded-wallet session as the hooks see it, and their test for a
    signing error that means the session expired. */
module Auth {
  import opened Strings
  import opened Js

  /** `ready` and `authenticated` of `usePrivy`, and whether `useUser` has a user. */
  datatype Session = Session(ready: bool, authenticated: bool, hasUser: bool)

  const NOT_LOGGED_IN: string := "Please ensure you are logged in and try again"
  const AUTH_EXPIRED_RETRY: string := "Authentication expired. Please try again."
  const AUTH_EXPIRED_RELOGIN: string := "Authentication expired. Please refresh the page and log in again."

  /** `signError.message?.includes("authenticated") ||
      signError.message?.includes("User must be authenticated")`. */
  predicate LooksLikeAuthError(e: Thrown) {
    e.ErrorObject? && (Contains(e.message, "authenticated") || Contains(e.message, "User must be authenticated"))
  }

  /** The second test adds nothing: any message containing
      "User must be authenticated" contains "authenticated". */
  lemma AuthTestIsSingleSubstring(e: Thrown)
    ensures LooksLikeAuthError(e) <==> e.ErrorObject? && Contains(e.message, "authenticated")
  {
    if e.ErrorObject? && Contains(e.message, "User must be authenticated") {
      var m := e.message;
      var i := IndexOf(m, "User must be authenticated").value;
      assert m[i..i + 26] == "User must be authenticated";
      assert m[i + 13..i + 26] == m[i..i + 26][13..26];
      assert "User must be authenticated"[13..26] == "authenticated";
      ContainsWitness(m, "authenticated", i + 13);
    }
  }
}
