/**
 * The application settings' one computed value: the list of allowed CORS
 * origins, read from a comma-separated setting. Loading the settings from
 * the environment is left to the caller.
 */
module Config {
  import opened Text

  /** The two local development servers the default setting allows. */
  const ReactDevServer: String := "http://localhost:3000"
  const ViteDevServer: String := "http://localhost:5173"

  /** "http://localhost:3000,http://localhost:5173". */
  const DefaultCorsOrigins: String := ReactDevServer + "," + ViteDevServer

  /** `[o.strip() for o in CORS_ORIGINS.split(",")]`. */
  function CorsOrigins(setting: String): (r: seq<String>)
    ensures |r| == |SplitOn(setting, ",")|
  {
    var parts := SplitOn(setting, ",");
    seq(|parts|, i requires 0 <= i < |parts| => Trim(Python, parts[i]))
  }

  /** One origin per comma, plus one: empty entries are kept. */
  lemma CorsOriginsCount(setting: String)
    ensures |CorsOrigins(setting)| == Count(setting, ',') + 1
  {
    SplitOnCharCount(setting, ',');
  }

  /**
   * Each origin is its piece of the setting, in order, with the white space
   * at both ends removed; none starts or ends with white space, and none
   * holds a comma.
   */
  lemma CorsOriginsStripped(setting: String)
    ensures Join(SplitOn(setting, ","), ",") == setting
    ensures forall i :: 0 <= i < |CorsOrigins(setting)| ==>
      CorsOrigins(setting)[i] == Trim(Python, SplitOn(setting, ",")[i])
    ensures forall i :: 0 <= i < |CorsOrigins(setting)| ==>
      var o := CorsOrigins(setting)[i];
      o == [] || (!IsSpace(Python, o[0]) && !IsSpace(Python, o[|o| - 1]))
    ensures forall i :: 0 <= i < |CorsOrigins(setting)| ==> ',' !in CorsOrigins(setting)[i]
  {
    JoinSplitOn(setting, ",");
    SplitOnCharPiecesFree(setting, ',');
    var parts := SplitOn(setting, ",");
    forall i | 0 <= i < |parts|
      ensures var o := Trim(Python, parts[i]); o == [] || (!IsSpace(Python, o[0]) && !IsSpace(Python, o[|o| - 1]))
      ensures ',' !in Trim(Python, parts[i])
    {
      TrimEndsAreNotSpace(Python, parts[i]);
      TrimIsMiddle(Python, parts[i]);
    }
  }

  /** The default setting allows the two local development servers. */
  lemma DefaultOrigins()
    ensures CorsOrigins(DefaultCorsOrigins) == [ReactDevServer, ViteDevServer]
  {
    assert ',' !in ReactDevServer && ',' !in ViteDevServer;
    DevServersUntouched();
    TwoOrigins(ReactDevServer, ViteDevServer);
  }

  /** Two origins without commas or surrounding white space, joined by a comma, come back as they were. */
  lemma TwoOrigins(a: String, b: String)
    requires ',' !in a && ',' !in b
    requires Trim(Python, a) == a && Trim(Python, b) == b
    ensures CorsOrigins(a + "," + b) == [a, b]
  {
    SplitOnCharFirst(a, ',', b);
    SplitOnCharAbsent(b, ',');
    assert SplitOn(a + "," + b, ",") == [a, b];
  }

  lemma DevServersUntouched()
    ensures Trim(Python, ReactDevServer) == ReactDevServer
    ensures Trim(Python, ViteDevServer) == ViteDevServer
  {
    LocalOriginUntouched(ReactDevServer);
    LocalOriginUntouched(ViteDevServer);
  }

  lemma LocalOriginUntouched(o: String)
    requires |o| > 0 && o[0] == 'h' && '0' <= o[|o| - 1] <= '9'
    ensures Trim(Python, o) == o
  {
    PrintableIsNotSpace(o[0]);
    PrintableIsNotSpace(o[|o| - 1]);
    TrimUntouched(Python, o);
  }

  lemma PrintableIsNotSpace(c: char)
    requires '!' <= c <= '~'
    ensures !IsSpace(Python, c)
  {
    ListedIsMember(c, PythonSpaces);
    forall i | 0 <= i < |PythonSpaces| ensures PythonSpaces[i] != c {
      assert PythonSpaces[i] <= ' ' || PythonSpaces[i] >= '\U{0085}';
    }
  }
}
