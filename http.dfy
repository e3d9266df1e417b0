/**
 * The backend as the frontend sees it: what a `fetch` settles to, the JSON body of `/chat`,
 * how a thrown `Error` prints, and the health probe on `/`.
 */
module Http {
  import opened Wrappers
  import opened Text

  /** A `fetch` promise either rejects (its error rendered as text) or yields a status and a body. */
  datatype Reply<B> = NetworkFailure(error: string) | Responded(status: nat, body: B)

  /** `response.ok` */
  predicate IsOk(status: nat) {
    200 <= status <= 299
  }

  /** `response.json()`: rejects on a malformed body, with the parser's error text. */
  datatype Json<T> = Malformed(error: string) | Parsed(value: T)

  /** The fields of a `/chat` JSON reply that some frontend reads; an absent field is `None`. */
  datatype ChatPayload = ChatPayload(
    response: Option<string>,
    message: Option<string>,
    sources: Option<seq<string>>,
    webSearchPerformed: bool,
    webResultsCount: Option<nat>)

  /** JavaScript truthiness of an optional string: present and non-empty. */
  predicate Truthy(s: Option<string>) {
    s.Some? && s.value != ""
  }

  /** `a || fallback` on an optional string. */
  function OrElse(a: Option<string>, fallback: string): (r: string)
    ensures Truthy(a) ==> r == a.value
    ensures !Truthy(a) ==> r == fallback
  {
    if Truthy(a) then a.value else fallback
  }

  /** The text `${error}` gives for `new Error(message)`. */
  function ErrorText(message: string): string {
    "Error: " + message
  }

  /** The error the send handlers throw on a non-OK status. */
  function HttpErrorText(status: nat): string {
    ErrorText("HTTP error! status: " + Decimal(status))
  }

  /** The outcome of the health probe `GET /`. */
  datatype Probe = ProbeFailed | ProbeReplied(status: nat)

  /** The connection indicator of the simple frontends; it starts as `Checking`. */
  datatype ConnectionStatus = Checking | Connected | Disconnected

  /** `checkConnection` / `checkBackendConnection`: an OK reply means connected, anything else disconnected. */
  function StatusOf(p: Probe): (r: ConnectionStatus)
    ensures r == Connected <==> p.ProbeReplied? && IsOk(p.status)
    ensures r == Disconnected <==> !(p.ProbeReplied? && IsOk(p.status))
  {
    match p
    case ProbeReplied(status) => if IsOk(status) then Connected else Disconnected
    case ProbeFailed => Disconnected
  }
}
