/** The client-side login gate: a credential or e-mail check, and a flag and
    a user name kept in the key-value store. */
module Auth {
  import opened Wrappers
  import opened KeyValueStore

  const AuthKey := "auth:isAuthenticated"
  const UserKey := "auth:user"

  /** The configured credentials. */
  datatype Config = Config(username: string, password: string, allowedGoogleEmail: string)

  /** Each setting comes from the build environment when it is defined there
      and falls back to its built-in default otherwise. */
  function ConfigFromEnv(envUsername: Option<string>, envPassword: Option<string>,
                         envAllowedEmail: Option<string>): (r: Config)
    ensures r.username == envUsername.GetOr("dezprox")
    ensures r.password == envPassword.GetOr("dezprox@2025")
    ensures r.allowedGoogleEmail == envAllowedEmail.GetOr("owner@example.com")
  {
    Config(envUsername.GetOr("dezprox"), envPassword.GetOr("dezprox@2025"),
           envAllowedEmail.GetOr("owner@example.com"))
  }

  /** ASCII lower-casing of one character. */
  function LowerChar(c: char): (r: char)
    ensures 'A' <= c <= 'Z' ==> r as int == c as int + 32
    ensures !('A' <= c <= 'Z') ==> r == c
  {
    if 'A' <= c <= 'Z' then (c as int + 32) as char else c
  }

  /** `toLowerCase`, on ASCII letters. */
  function ToLower(s: string): (r: string)
    ensures |r| == |s|
    ensures forall i :: 0 <= i < |s| ==> r[i] == LowerChar(s[i])
  {
    seq(|s|, i requires 0 <= i < |s| => LowerChar(s[i]))
  }

  lemma ToLowerIdempotent(s: string)
    ensures ToLower(ToLower(s)) == ToLower(s)
  {
  }

  /** `email && email.toLowerCase() === allowed.toLowerCase()`:
      the empty string is falsy and never accepted. */
  predicate EmailAccepted(cfg: Config, email: string): (r: bool)
    ensures r <==> && email != ""
                   && |email| == |cfg.allowedGoogleEmail|
                   && forall i :: 0 <= i < |email| ==> LowerChar(email[i]) == LowerChar(cfg.allowedGoogleEmail[i])
  {
    email != "" && ToLower(email) == ToLower(cfg.allowedGoogleEmail)
  }

  /** The e-mail check ignores the case of letters. */
  lemma EmailAcceptedIgnoresCase(cfg: Config, a: string, b: string)
    requires ToLower(a) == ToLower(b)
    ensures EmailAccepted(cfg, a) == EmailAccepted(cfg, b)
  {
    assert |a| == |ToLower(a)| == |ToLower(b)| == |b|;
  }

  /** What `isAuthenticated()` answers in a given store state. */
  predicate Authenticated(s: Store)
    reads s
  {
    s.ReadOf(AuthKey) == Got(Some("true"))
  }

  /** What `getAuthUser()` answers in a given store state. */
  function AuthUser(s: Store): Option<string>
    reads s
  {
    match s.ReadOf(UserKey)
    case Threw => None
    case Got(v) => v
  }

  /** True iff the stored flag is exactly "true"; false when storage throws. */
  method IsAuthenticated(s: Store) returns (b: bool)
    ensures b <==> s.available && AuthKey in s.entries && s.entries[AuthKey] == "true"
    ensures b == Authenticated(s)
  {
    var r := s.GetItem(AuthKey);
    match r
    case Threw => b := false;
    case Got(v) => b := v == Some("true");
  }

  /** The stored user name, or null when absent or when storage throws. */
  method GetAuthUser(s: Store) returns (u: Option<string>)
    ensures u.Some? <==> s.available && UserKey in s.entries
    ensures u.Some? ==> u.value == s.entries[UserKey]
    ensures u == AuthUser(s)
  {
    var r := s.GetItem(UserKey);
    match r
    case Threw => u := None;
    case Got(v) => u := v;
  }

  /** All keys other than the two auth keys hold what they held before. */
  twostate predicate OtherKeysUnchanged(s: Store)
    reads s
  {
    forall k :: k != AuthKey && k != UserKey ==> Lookup(s.entries, k) == Lookup(old(s.entries), k)
  }

  method LoginWithCredentials(cfg: Config, s: Store, username: string, password: string) returns (ok: bool)
    modifies s
    ensures ok <==> username == cfg.username && password == cfg.password
    ensures s.available == old(s.available)
    ensures ok && s.available ==> s.entries == old(s.entries)[AuthKey := "true"][UserKey := username]
    ensures ok && s.available ==> Authenticated(s) && AuthUser(s) == Some(username)
    ensures !ok || !s.available ==> s.entries == old(s.entries)
    ensures OtherKeysUnchanged(s)
  {
    if username == cfg.username && password == cfg.password {
      var threw := s.SetItem(AuthKey, "true");
      if !threw {
        threw := s.SetItem(UserKey, username);
      }
      return true;
    }
    return false;
  }

  /** Stores the e-mail as given, not lower-cased. */
  method LoginWithGoogleEmail(cfg: Config, s: Store, email: string) returns (ok: bool)
    modifies s
    ensures ok <==> EmailAccepted(cfg, email)
    ensures s.available == old(s.available)
    ensures ok && s.available ==> s.entries == old(s.entries)[AuthKey := "true"][UserKey := email]
    ensures ok && s.available ==> Authenticated(s) && AuthUser(s) == Some(email)
    ensures !ok || !s.available ==> s.entries == old(s.entries)
    ensures OtherKeysUnchanged(s)
  {
    if email != "" && ToLower(email) == ToLower(cfg.allowedGoogleEmail) {
      var threw := s.SetItem(AuthKey, "true");
      if !threw {
        threw := s.SetItem(UserKey, email);
      }
      return true;
    }
    return false;
  }

  method Logout(s: Store)
    modifies s
    ensures s.available == old(s.available)
    ensures s.entries == if s.available then old(s.entries) - {AuthKey, UserKey} else old(s.entries)
    ensures !Authenticated(s) && AuthUser(s).None?
    ensures OtherKeysUnchanged(s)
  {
    var threw := s.RemoveItem(AuthKey);
    if !threw {
      threw := s.RemoveItem(UserKey);
    }
  }
}
