/**
 * The authentication gateway, seen only through what its two calls can return.
 * The HTTP transport itself (axios, the URL, the request body) is not modelled:
 * a call is an already-resolved `Result`.
 */
module AuthService {
  import opened Wrappers

  /** `data` of a successful login reply. */
  datatype LoginData = LoginData(token: string)

  /** A successful login reply: `{timestamp, data: {token}}`. */
  datatype LoginResponse = LoginResponse(timestamp: string, data: LoginData)

  /** What a failed call carries in `error.response.data`. */
  datatype ResponseData =
    | Missing                           // `undefined` or `null`
    | Text(text: string)                // a plain-text body
    | Object(message: Option<string>)   // a JSON object, with or without a string `message`

  /** A failed call; `response` is `None` when no HTTP response arrived at all. */
  datatype CallFailure = CallFailure(response: Option<ResponseData>)

  /** The resolved outcome of `authService.login`. */
  type LoginCall = Result<LoginResponse, CallFailure>

  /** The resolved outcome of `authService.register`, which yields nothing on success. */
  type RegisterCall = Result<(), CallFailure>
}
