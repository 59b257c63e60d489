/**
 * The application settings and the database address they give.
 */
module Config {
  import opened Wrappers
  import opened Values

  datatype Settings = Settings(
    projectName: string,
    apiPrefix: string,
    qdrantHost: string,
    qdrantPort: int,
    qdrantUrl: Option<string>,
    qdrantApiKey: Option<string>,
    qdrantMode: string,
    qdrantPath: string,
    groqApiKey: Option<string>)

  /** The settings when the environment overrides nothing. */
  const Defaults := Settings("Memory for the Forgotten", "/api/v1", "localhost", 6333, None, None,
                             "server", "qdrant_storage", None)

  /**
   * `get_qdrant_url`: a non-empty configured url verbatim, otherwise
   * "http://{host}:{port}".
   */
  function QdrantUrl(s: Settings): (r: string)
    ensures s.qdrantUrl.Some? && s.qdrantUrl.value != "" ==> r == s.qdrantUrl.value
    ensures s.qdrantUrl.None? || s.qdrantUrl.value == "" ==>
      r == "http://" + s.qdrantHost + ":" + IntToString(s.qdrantPort)
  {
    if s.qdrantUrl.Some? && s.qdrantUrl.value != "" then s.qdrantUrl.value
    else "http://" + s.qdrantHost + ":" + IntToString(s.qdrantPort)
  }

  /** With the defaults the database is the local server on port 6333. */
  lemma DefaultUrl()
    ensures QdrantUrl(Defaults) == "http://" + "localhost" + ":" + "6333"
  {
    assert NatToString(6) == "6";
    assert NatToString(63) == "63";
    assert NatToString(633) == "633";
    assert NatToString(6333) == "6333";
  }

  /** Once a url is configured, host and port make no difference. */
  lemma UrlOverridesHostAndPort(s: Settings, host: string, port: int)
    requires s.qdrantUrl.Some? && s.qdrantUrl.value != ""
    ensures QdrantUrl(s.(qdrantHost := host, qdrantPort := port)) == QdrantUrl(s)
  {
  }

  /** Without a url, the port can be read back from the address: its last digits are the port. */
  lemma PortReadBack(s: Settings)
    requires s.qdrantUrl.None? || s.qdrantUrl.value == ""
    requires s.qdrantPort >= 0
    ensures var r := QdrantUrl(s);
      var digits := NatToString(s.qdrantPort);
      && |digits| < |r|
      && r[|r| - |digits|..] == digits
      && r[|r| - |digits| - 1] == ':'
      && ParseNat(r[|r| - |digits|..]) == s.qdrantPort
  {
    var digits := NatToString(s.qdrantPort);
    var r := QdrantUrl(s);
    var head := "http://" + s.qdrantHost + ":";
    assert r == head + digits;
    assert r[|r| - |digits|..] == digits;
    ParseNatToString(s.qdrantPort);
  }
}
