/**
 * Client-side validation helpers: the mapping of a failed HTTP call to the
 * error shown to the user, the URL sanitiser's protocol rule, and the field
 * rules of the registration form.
 */
module Validation {
  import opened Basics
  import opened Text

  // ---------------------------------------------------------------------------
  // handleApiError
  // ---------------------------------------------------------------------------

  /** What `handleApiError` returns. */
  datatype ApiError = ApiError(message: String, code: String, statusCode: Option<int>)

  /** The part of an Axios error the handler reads: the response status, if a response came back, and the message. */
  datatype Failure = Failure(responseStatus: Option<int>, message: String)

  /** The statuses with a dedicated error, and their codes in the same order. */
  const KnownStatuses: seq<int> := [400, 401, 403, 404, 429, 500]
  const KnownCodes: seq<String> :=
    ["INVALID_INPUT", "UNAUTHORIZED", "FORBIDDEN", "NOT_FOUND", "RATE_LIMITED", "SERVER_ERROR"]

  /** The error for a response with the given status. */
  function StatusError(status: int): (r: ApiError)
    ensures r.statusCode == Some(status)
  {
    match status
    case 400 => ApiError("Dados inválidos", "INVALID_INPUT", Some(400))
    case 401 => ApiError("Não autenticado", "UNAUTHORIZED", Some(401))
    case 403 => ApiError("Sem permissão", "FORBIDDEN", Some(403))
    case 404 => ApiError("Não encontrado", "NOT_FOUND", Some(404))
    case 429 => ApiError("Muitas requisições. Tente novamente em alguns minutos.", "RATE_LIMITED", Some(429))
    case 500 => ApiError("Erro no servidor. Tente novamente mais tarde.", "SERVER_ERROR", Some(500))
    case _ => ApiError("Erro desconhecido", "UNKNOWN_ERROR", Some(status))
  }

  /**
   * `handleApiError`: a response decides by its status, whatever the message;
   * without one, only the exact message "Network Error" is a network error.
   */
  function HandleApiError(e: Failure): (r: ApiError)
    ensures e.responseStatus.Some? ==> r.statusCode == e.responseStatus && r.code != "NETWORK_ERROR"
    ensures e.responseStatus.None? ==> r.statusCode.None?
    ensures e.responseStatus.None? ==>
      (r.code == "NETWORK_ERROR" <==> e.message == "Network Error")
      && (r.code == "UNKNOWN_ERROR" <==> e.message != "Network Error")
  {
    if e.responseStatus.Some? then StatusError(e.responseStatus.value)
    else if e.message == "Network Error" then ApiError("Erro de conexão. Verifique sua internet.", "NETWORK_ERROR", None)
    else ApiError("Algo deu errado. Tente novamente.", "UNKNOWN_ERROR", None)
  }

  /** The status a code stands for, read off the table. */
  function CodeStatus(code: String): (r: Option<int>)
    ensures r.Some? ==> r.value in KnownStatuses
  {
    match FindIndex(KnownCodes, (c: String) => c == code)
    case None => None
    case Some(i) => Some(KnownStatuses[i])
  }

  /**
   * The six statuses get the six codes of the table, so the code gives the
   * status back; every other status is an unknown error that keeps its status.
   */
  lemma StatusCodeRoundTrip(status: int)
    ensures status in KnownStatuses ==> CodeStatus(StatusError(status).code) == Some(status)
    ensures status !in KnownStatuses ==>
      StatusError(status).code == "UNKNOWN_ERROR" && CodeStatus(StatusError(status).code).None?
  {
  }

  // ---------------------------------------------------------------------------
  // sanitizeUrl
  // ---------------------------------------------------------------------------

  /** A URL as the WHATWG parser returns it: its protocol (with the colon) and its serialisation. */
  datatype ParsedUrl = ParsedUrl(protocol: String, href: String)

  /**
   * `sanitizeUrl`, with the URL parser as a parameter (None when it throws):
   * only an http or https URL survives, as the parser serialises it.
   */
  function SanitizeUrl(url: String, parse: String -> Option<ParsedUrl>): (r: String)
    ensures (parse(url).Some? && parse(url).value.protocol in ["http:", "https:"]) ==> r == parse(url).value.href
    ensures (parse(url).None? || parse(url).value.protocol !in ["http:", "https:"]) ==> r == "/"
  {
    match parse(url)
    case None => "/"
    case Some(parsed) => if parsed.protocol in ["http:", "https:"] then parsed.href else "/"
  }

  // ---------------------------------------------------------------------------
  // RegisterSchema
  // ---------------------------------------------------------------------------

  predicate IsUpper(c: char) { 'A' <= c <= 'Z' }
  predicate IsDigit(c: char) { '0' <= c <= '9' }
  predicate IsAlphanumeric(c: char) { 'a' <= c <= 'z' || IsUpper(c) || IsDigit(c) }

  predicate HasUpper(s: String) { exists i :: 0 <= i < |s| && IsUpper(s[i]) }
  predicate HasDigit(s: String) { exists i :: 0 <= i < |s| && IsDigit(s[i]) }
  predicate HasSpecial(s: String) { exists i :: 0 <= i < |s| && !IsAlphanumeric(s[i]) }

  /** The password rules: 8 to 128 characters, an upper-case letter, a digit and a character that is neither. */
  predicate PasswordOk(p: String)
  {
    8 <= |p| <= 128 && HasUpper(p) && HasDigit(p) && HasSpecial(p)
  }

  /** `[a-zA-ZÀ-ÿ\s-']`: letters, the Latin-1 range U+00C0..U+00FF, white space, hyphen and apostrophe. */
  predicate NameChar(c: char)
  {
    'a' <= c <= 'z' || 'A' <= c <= 'Z' || 'À' <= c <= 'ÿ' || IsSpace(JavaScript, c) || c == '-' || c == '\''
  }

  /** The name rules: 3 to 100 characters, all of them allowed. */
  predicate NameOk(n: String)
  {
    3 <= |n| <= 100 && forall i :: 0 <= i < |n| ==> NameChar(n[i])
  }

  /**
   * The whole form. Whether the e-mail address is well formed is Zod's
   * decision and comes in as a parameter; its length limit is modelled.
   */
  predicate RegisterOk(name: String, email: String, emailWellFormed: bool, password: String, confirmPassword: String)
  {
    NameOk(name) && emailWellFormed && |email| <= 255 && PasswordOk(password) && password == confirmPassword
  }

  /**
   * An accepted password has three positions holding three different
   * characters (an upper-case letter, a digit, and a symbol), and matches its
   * confirmation.
   */
  lemma AcceptedPasswordIsMixed(name: String, email: String, emailWellFormed: bool, password: String, confirmPassword: String)
    requires RegisterOk(name, email, emailWellFormed, password, confirmPassword)
    ensures confirmPassword == password && 8 <= |password| <= 128
    ensures exists i, j, k ::
      (0 <= i < |password| && 0 <= j < |password| && 0 <= k < |password|
       && password[i] != password[j] && password[j] != password[k] && password[i] != password[k])
  {
    var i :| 0 <= i < |password| && IsUpper(password[i]);
    var j :| 0 <= j < |password| && IsDigit(password[j]);
    var k :| 0 <= k < |password| && !IsAlphanumeric(password[k]);
  }

  /** A name the form accepts holds no digit. */
  lemma AcceptedNameHasNoDigit(n: String)
    requires NameOk(n)
    ensures forall i :: 0 <= i < |n| ==> !IsDigit(n[i])
  {
    forall i | 0 <= i < |n| ensures !IsDigit(n[i]) {
      assert NameChar(n[i]);
      if IsSpace(JavaScript, n[i]) {
        ListedIsMember(n[i], JavaScriptSpaces);
      }
    }
  }
}
