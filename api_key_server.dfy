/**
 * The stand-alone demonstration server's API-key check: a fixed table from
 * key to role, and a dependency that demands a role.
 */
module ApiKeyServer {

  /** `API_KEYS`: the two built-in keys and their roles. */
  const ApiKeys: map<string, string> := map["key-user-123" := "user", "key-admin-456" := "admin"]

  datatype Verdict = Role(role: string) | HttpError(status: int, detail: string)

  /**
   * `verify_api_key`: an unknown key gives 401; demanding "admin" of a
   * non-admin key gives 403; otherwise the key's role.  Only the "admin"
   * demand is checked, so any other demand accepts every known key.
   */
  function VerifyApiKey(apiKey: string, requiredRole: string): (r: Verdict)
    ensures apiKey !in ApiKeys ==> r == HttpError(401, "Invalid API key")
    ensures apiKey in ApiKeys && requiredRole == "admin" && ApiKeys[apiKey] != "admin" ==>
      r == HttpError(403, "Admin access required")
    ensures r.Role? <==> apiKey in ApiKeys && (requiredRole != "admin" || ApiKeys[apiKey] == "admin")
    ensures r.Role? ==> r.role == ApiKeys[apiKey]
  {
    if apiKey !in ApiKeys then HttpError(401, "Invalid API key")
    else
      var userRole := ApiKeys[apiKey];
      if requiredRole == "admin" && userRole != "admin" then HttpError(403, "Admin access required")
      else Role(userRole)
  }

  /**
   * With the built-in table: the "user" demand admits both keys (the admin
   * key with role "admin"), the "admin" demand admits only the admin key,
   * and any other key is refused with 401.
   */
  lemma BuiltInKeys(apiKey: string)
    ensures VerifyApiKey("key-user-123", "user") == Role("user")
    ensures VerifyApiKey("key-admin-456", "user") == Role("admin")
    ensures VerifyApiKey("key-admin-456", "admin") == Role("admin")
    ensures VerifyApiKey("key-user-123", "admin") == HttpError(403, "Admin access required")
    ensures VerifyApiKey(apiKey, "admin").Role? <==> apiKey == "key-admin-456"
    ensures apiKey != "key-user-123" && apiKey != "key-admin-456" ==>
      VerifyApiKey(apiKey, "user") == HttpError(401, "Invalid API key")
  {
    assert "key-user-123" != "key-admin-456";
  }
}
