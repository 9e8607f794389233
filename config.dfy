/**
  Server configuration: the defaults, validation with its replacement of
  non-positive limits, and the configuration object the server and the SDK share.
*/
module Config {
  import Wrappers
  import opened Protocol

  datatype Settings = Settings(
    notionToken: string,
    serverName: string,
    serverVersion: string,
    defaultPageSize: int,
    maxRetries: int,
    timeout: int)  // seconds

  datatype Validation = Valid(settings: Settings) | Invalid(error: McpError)

  const DefaultPageSize := 10
  const DefaultMaxRetries := 3
  const DefaultTimeout := 30
  const MissingTokenMessage := "Invalid params: notionToken is required"

  /** The default configuration: no token, the server's name and version, and the three default limits. */
  function DefaultSettings(): Settings {
    Settings("", "notion-mcp-server", "1.0.0", DefaultPageSize, DefaultMaxRetries, DefaultTimeout)
  }

  function Positive(n: int, fallback: int): int {
    if n <= 0 then fallback else n
  }

  /** What validation does to a configuration: an error for a missing token, otherwise each non-positive limit replaced by its default. */
  function Validated(c: Settings): Validation {
    if c.notionToken == "" then Invalid(McpError(InvalidParams, MissingTokenMessage))
    else Valid(c.(defaultPageSize := Positive(c.defaultPageSize, DefaultPageSize),
                  maxRetries := Positive(c.maxRetries, DefaultMaxRetries),
                  timeout := Positive(c.timeout, DefaultTimeout)))
  }

  /** Validation fails exactly when the token is empty, with code -32602 and the missing-token message. */
  lemma ValidateFailsIffNoToken(c: Settings)
    ensures Validated(c).Invalid? <==> c.notionToken == ""
    ensures Validated(c).Invalid? ==>
      Validated(c).error.code == InvalidParams && Validated(c).error.Error() == MissingTokenMessage
  {
  }

  /**
    After a successful validation every limit is positive: a non-positive one is
    replaced by its default, a positive one and the strings are kept.
  */
  lemma ValidatedLimits(c: Settings)
    requires Validated(c).Valid?
    ensures var v := Validated(c).settings;
      && v.defaultPageSize > 0 && v.maxRetries > 0 && v.timeout > 0
      && v.defaultPageSize == (if c.defaultPageSize <= 0 then DefaultPageSize else c.defaultPageSize)
      && v.maxRetries == (if c.maxRetries <= 0 then DefaultMaxRetries else c.maxRetries)
      && v.timeout == (if c.timeout <= 0 then DefaultTimeout else c.timeout)
      && v.notionToken == c.notionToken && v.serverName == c.serverName && v.serverVersion == c.serverVersion
  {
  }

  /** Validating a validated configuration changes nothing. */
  lemma ValidateIdempotent(c: Settings)
    requires Validated(c).Valid?
    ensures Validated(Validated(c).settings) == Validated(c)
  {
  }

  /** The defaults do not validate until a token is set; with one, they validate unchanged. */
  lemma DefaultNeedsToken(token: string)
    ensures Validated(DefaultSettings()).Invalid?
    ensures token != "" ==> Validated(DefaultSettings().(notionToken := token)) == Valid(DefaultSettings().(notionToken := token))
  {
  }

  /** The configuration object, shared by reference between the server and the SDK. */
  class Configuration {
    var notionToken: string
    var serverName: string
    var serverVersion: string
    var defaultPageSize: int
    var maxRetries: int
    var timeout: int

    /** The field values, as one value. */
    function Snapshot(): Settings
      reads this
    {
      Settings(notionToken, serverName, serverVersion, defaultPageSize, maxRetries, timeout)
    }

    /** A configuration object holding the defaults. */
    constructor Default()
      ensures Snapshot() == DefaultSettings()
    {
      notionToken := "";
      serverName := "notion-mcp-server";
      serverVersion := "1.0.0";
      defaultPageSize := DefaultPageSize;
      maxRetries := DefaultMaxRetries;
      timeout := DefaultTimeout;
    }

    /**
      Validation in place: on a missing token the object is left as it was and the
      error is returned; otherwise the limits are repaired in place.
    */
    method Validate() returns (err: Wrappers.Option<McpError>)
      modifies this
      ensures match Validated(old(Snapshot()))
        case Invalid(e) => err == Wrappers.Some(e) && Snapshot() == old(Snapshot())
        case Valid(v) => err == Wrappers.None && Snapshot() == v
    {
      if notionToken == "" {
        return Wrappers.Some(McpError(InvalidParams, MissingTokenMessage));
      }
      if defaultPageSize <= 0 {
        defaultPageSize := DefaultPageSize;
      }
      if maxRetries <= 0 {
        maxRetries := DefaultMaxRetries;
      }
      if timeout <= 0 {
        timeout := DefaultTimeout;
      }
      err := Wrappers.None;
    }
  }
}
