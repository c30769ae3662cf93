/** The error taxonomy of the view-link builder: a fixed code table and the error record. */
module ViewLinkErrors {
  import opened Wrappers

  /** One constructor per entry of the `codes` table. */
  datatype Code =
    | ConfigNotFound
    | InvalidConfig
    | InvalidService
    | InvalidEntity
    | InvalidEntityId
    | InvalidParams
    | InvalidEntries
    | NoStageName
    | InvalidHostsInConfig
    | HostNotFound
    | UrlError

  /** The number the table gives a code. */
  function Value(c: Code): (n: int)
    ensures 1 <= n <= 11
  {
    match c
    case ConfigNotFound => 1
    case InvalidConfig => 2
    case InvalidService => 3
    case InvalidEntity => 4
    case InvalidEntityId => 5
    case InvalidParams => 6
    case InvalidEntries => 7
    case NoStageName => 8
    case InvalidHostsInConfig => 9
    case HostNotFound => 10
    case UrlError => 11
  }

  /** The key under which the table lists a code. */
  function Name(c: Code): string
  {
    match c
    case ConfigNotFound => "CONFIG_NOT_FOUND"
    case InvalidConfig => "INVALID_CONFIG"
    case InvalidService => "INVALID_SERVICE"
    case InvalidEntity => "INVALID_ENTITY"
    case InvalidEntityId => "INVALID_ENTITY_ID"
    case InvalidParams => "INVALID_PARAMS"
    case InvalidEntries => "INVALID_ENTRIES"
    case NoStageName => "NO_STAGE_NAME"
    case InvalidHostsInConfig => "INVALID_HOSTS_IN_CONFIG"
    case HostNotFound => "HOST_NOT_FOUND"
    case UrlError => "URL_ERROR"
  }

  /** The `codes` table itself, from name to number. */
  const Codes: map<string, int> := map[
    "CONFIG_NOT_FOUND" := 1,
    "INVALID_CONFIG" := 2,
    "INVALID_SERVICE" := 3,
    "INVALID_ENTITY" := 4,
    "INVALID_ENTITY_ID" := 5,
    "INVALID_PARAMS" := 6,
    "INVALID_ENTRIES" := 7,
    "NO_STAGE_NAME" := 8,
    "INVALID_HOSTS_IN_CONFIG" := 9,
    "HOST_NOT_FOUND" := 10,
    "URL_ERROR" := 11
  ]

  /** How a caller branches on a numeric code: the code that has that number, if any. */
  function FromValue(n: int): (r: Option<Code>)
    ensures r.Some? <==> 1 <= n <= 11
    ensures r.Some? ==> Value(r.value) == n
  {
    if n == 1 then Some(ConfigNotFound)
    else if n == 2 then Some(InvalidConfig)
    else if n == 3 then Some(InvalidService)
    else if n == 4 then Some(InvalidEntity)
    else if n == 5 then Some(InvalidEntityId)
    else if n == 6 then Some(InvalidParams)
    else if n == 7 then Some(InvalidEntries)
    else if n == 8 then Some(NoStageName)
    else if n == 9 then Some(InvalidHostsInConfig)
    else if n == 10 then Some(HostNotFound)
    else if n == 11 then Some(UrlError)
    else None
  }

  /** The number of a code identifies it. */
  lemma ValueRoundTrip(c: Code)
    ensures FromValue(Value(c)) == Some(c)
  {
  }

  /** No two codes share a number, so branching on the number is branching on the code. */
  lemma ValuesDistinct(a: Code, b: Code)
    ensures Value(a) == Value(b) <==> a == b
  {
    ValueRoundTrip(a);
    ValueRoundTrip(b);
  }

  /** The table lists every code under its name with its number. */
  lemma CodesTable(c: Code)
    ensures Name(c) in Codes && Codes[Name(c)] == Value(c)
  {
  }

  /**
   * What the constructor receives as `err`: a plain string, or an error
   * object carrying a `message`.
   */
  datatype MessageArg = Text(text: string) | ErrorObject(message: string)

  /** A constructed error: its `message`, `code` and `name`. */
  datatype ViewLinkError = ViewLinkError(message: MessageArg, code: Code, name: string)

  /**
   * `new ViewLinkError(err, code)`. The message is the argument's own
   * `message` when that is truthy, and otherwise the argument itself.
   */
  function NewError(err: MessageArg, code: Code): (e: ViewLinkError)
    ensures e.code == code
    ensures e.name == "ViewLinkError"
    ensures err.Text? ==> e.message == err
    ensures err.ErrorObject? && err.message != "" ==> e.message == Text(err.message)
    ensures err.ErrorObject? && err.message == "" ==> e.message == err
  {
    var message := if err.ErrorObject? && err.message != "" then Text(err.message) else err;
    ViewLinkError(message, code, "ViewLinkError")
  }
}
