/**
 * The exceptions a call can end in. `APIError` and `AuthenticationError` are
 * the SDK's own (`universal_ads_sdk/exceptions.py`); the others are Python or
 * library exceptions the SDK lets through or wraps.
 */
module Errors {
  import opened Wrappers
  import opened Json

  datatype Error =
      /** A failed request: the status when a response arrived, and the response data ({} when none). */
    | APIError(message: string, statusCode: Option<int>, responseData: Json)
      /** The client could not build its authenticator. */
    | AuthenticationError(message: string)
      /** The authenticator could not load its private key. */
    | ValueError(message: string)
      /** The signing primitive refused to sign (for one, a key that is not an EC key). */
    | SigningError(message: string)
      /** A dict lookup `d[key]` of a key the dict does not hold. */
    | KeyError(key: string)
      /** `.get` called on an error body that parsed to something other than a JSON object. */
    | AttributeError(typeName: string)
}
