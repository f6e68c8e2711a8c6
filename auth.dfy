/**
 * The authentication dependencies of the HTTP API: resolving the caller's
 * permission record from the API-key header, and the user and admin guards
 * built on it.  The key lookup in the user database is a parameter.
 */
module Auth {
  import opened Common

  /** The permission record of the caller. */
  datatype PermRecord = PermRecord(userId: string, isAdmin: bool, activated: bool)

  /**
   * What `get_user_perm_by_api_key` does: returns a record (or a falsy
   * value, `None`), raises APIKeyEmptyError, raises UserNotFoundError, or
   * raises anything else.
   */
  datatype KeyLookup = Returned(record: Option<PermRecord>) | KeyEmpty | UnknownKey | OtherFailure

  /** A dependency's answer: the record, or an HTTP error. */
  datatype AuthResult = Authorized(record: PermRecord) | HttpError(status: int, detail: string)

  /**
   * `_get_current_user_perm_from_api_key`: an empty key gives 400, an
   * unknown user 401, and every other failure, a falsy record included, 500.
   */
  function CurrentUserPermFromApiKey(lookup: KeyLookup): (r: AuthResult)
    ensures r.Authorized? <==> lookup.Returned? && lookup.record.Some?
    ensures r.Authorized? ==> r.record == lookup.record.value
    ensures lookup.KeyEmpty? ==> r == HttpError(400, "API key value can not be empty")
    ensures lookup.UnknownKey? ==> r == HttpError(401, "Unauthorized")
    ensures lookup.OtherFailure? || lookup == Returned(None) ==>
      r == HttpError(500, "Unexpected error while authenticating user")
  {
    match lookup
    case Returned(Some(record)) => Authorized(record)
    case Returned(None) => HttpError(500, "Unexpected error while authenticating user")
    case KeyEmpty => HttpError(400, "API key value can not be empty")
    case UnknownKey => HttpError(401, "Unauthorized")
    case OtherFailure => HttpError(500, "Unexpected error while authenticating user")
  }

  /**
   * `get_current_admin_perm`: a non-admin is refused first, then an admin
   * that is not activated; a record that passes is returned unchanged.
   */
  function CurrentAdminPerm(userPerm: PermRecord): (r: AuthResult)
    ensures r == Authorized(userPerm) <==> userPerm.isAdmin && userPerm.activated
    ensures !userPerm.isAdmin ==> r == HttpError(403, "Admin access required")
    ensures userPerm.isAdmin && !userPerm.activated ==> r == HttpError(403, "API key has to be activated")
  {
    if !userPerm.isAdmin then HttpError(403, "Admin access required")
    else if !userPerm.activated then HttpError(403, "API key has to be activated")
    else Authorized(userPerm)
  }

  /** `get_current_user_perm`: only activation is checked. */
  function CurrentUserPerm(userPerm: PermRecord): (r: AuthResult)
    ensures r == Authorized(userPerm) <==> userPerm.activated
    ensures !userPerm.activated ==> r == HttpError(403, "API key has to be activated")
  {
    if !userPerm.activated then HttpError(403, "API key has to be activated")
    else Authorized(userPerm)
  }

  /**
   * Every refusal is 403, the admin guard is stricter than the user guard,
   * and the user guard ignores the admin flag.
   */
  lemma GuardsRelated(userPerm: PermRecord, isAdmin: bool)
    ensures CurrentAdminPerm(userPerm).HttpError? ==> CurrentAdminPerm(userPerm).status == 403
    ensures CurrentUserPerm(userPerm).HttpError? ==> CurrentUserPerm(userPerm).status == 403
    ensures CurrentAdminPerm(userPerm).Authorized? ==> CurrentUserPerm(userPerm).Authorized?
    ensures CurrentUserPerm(userPerm).Authorized? == CurrentUserPerm(userPerm.(isAdmin := isAdmin)).Authorized?
  {
  }
}
