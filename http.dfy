/** Values shared by every page of the client: optional values, the outcome of one
    `fetch` call against the backend, the toast notifications a page shows, and the
    paths it navigates to. */
module Http {

  datatype Option<+T> = None | Some(value: T)

  /** What one `fetch` to the backend resolves to, as the pages tell the cases apart.
      - Ok: `response.ok` (a 2xx status) with the parsed JSON body;
      - Redirect307: status 307 with a body `{ redirect }`;
      - Unauthorized: status 401;
      - OtherError: any other status; `message` is the body's `message` field, "" when absent;
      - NetworkError: the promise rejected; `reason` is the thrown error's message. */
  datatype Response<+P> =
    | Ok(payload: P)
    | Redirect307(redirect: string)
    | Unauthorized
    | OtherError(message: string)
    | NetworkError(reason: string)

  /** JavaScript truthiness of a `string | null`: present and not empty. */
  predicate Truthy(o: Option<string>) {
    o.Some? && o.value != ""
  }

  /** A `react-toastify` notification. */
  datatype Toast = ErrorToast(text: string) | SuccessToast(text: string)

  const LoginPath: string := "/login"
  const HomePath: string := "/home"
  const SettingsPath: string := "/profile/settings"

  /** JavaScript's `message || fallback`: an empty message is falsy. */
  function MessageOr(message: string, fallback: string): (r: string)
    ensures message != "" ==> r == message
    ensures message == "" ==> r == fallback
    ensures fallback != "" ==> r != ""
  {
    if message != "" then message else fallback
  }

  /** The text a page toasts for an error it threw itself: the handler throws
      `new Error(errorData.message || thrown)` for a non-ok status, the fetch rejects
      with its own reason, and the catch block shows `error.message || caught`. */
  function ErrorText<P>(resp: Response<P>, thrown: string, caught: string): (r: string)
    requires thrown != "" && caught != ""
    ensures r != ""
    ensures resp.OtherError? && resp.message != "" ==> r == resp.message
    ensures resp.OtherError? && resp.message == "" ==> r == thrown
    ensures resp.NetworkError? && resp.reason != "" ==> r == resp.reason
    ensures resp.NetworkError? && resp.reason == "" ==> r == caught
    ensures !(resp.OtherError? || resp.NetworkError?) ==> r == thrown
  {
    match resp
    case NetworkError(reason) => MessageOr(reason, caught)
    case OtherError(message) => MessageOr(message, thrown)
    case _ => thrown
  }

  /** The page numbers a paginated list asks for one after another: `from`,
      `from + 1`, ..., `n` of them. */
  function Consecutive(from: int, n: nat): (r: seq<int>)
    ensures |r| == n
    ensures forall i :: 0 <= i < n ==> r[i] == from + i
    decreases n
  {
    if n == 0 then [] else [from] + Consecutive(from + 1, n - 1)
  }
}
