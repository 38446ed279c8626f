/**
 * The `SecurityConstant` values the core reads. Their literal values are not part of this
 * model, so they are carried as one record and every member that needs one takes it.
 */
module SecurityConstant {

  datatype SecurityConstants = SecurityConstants(
    /** Token lifetime in milliseconds (`EXPIRATION_TIME`). */
    expirationTime: int,
    /** The bearer prefix of the `Authorization` header (`TOKEN_PREFIX`). */
    tokenPrefix: string,
    /** The `iss` value (`MAGADIFLO_LLC`). */
    issuer: string,
    /** The `aud` value (`MAGADIFLO_ADMINISTRATION`). */
    audience: string,
    /** `OPTIONS_HTTP_METHOD`. */
    optionsHttpMethod: string,
    /** Body message of the authentication entry point (`FORBIDDEN_MESSAGE`). */
    forbiddenMessage: string,
    /** Body message of the access-denied handler (`ACCESS_DENIED_MESSAGE`). */
    accessDeniedMessage: string)
}
