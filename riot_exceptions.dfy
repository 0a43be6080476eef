/** The backend's exception hierarchy for Riot API failures: each exception's message and
    HTTP status code. */
module RiotExceptions {
  import opened Wrappers
  import opened Strings

  /** `RiotApiException` with its four subclasses; the base class carries its own message
      and an optional status code. */
  datatype RiotException =
    | RiotApi(msg: string, code: Option<int>)
    | AccountNotFound(summonerName: string, tagLine: string)
    | RateLimit
    | ApiKey
    | ServiceUnavailable

  /** `str(e)`: the exception's message. */
  function Message(e: RiotException): (m: string)
    ensures e.RiotApi? ==> m == e.msg
    ensures e.AccountNotFound? ==> m == "Account not found: " + e.summonerName + "#" + e.tagLine
    ensures e.RateLimit? ==> m == "API rate limit reached. Please try again later."
    ensures e.ApiKey? ==> m == "Invalid or expired API key"
    ensures e.ServiceUnavailable? ==> m == "Riot Games service temporarily unavailable"
  {
    match e
    case RiotApi(msg, _) => msg
    case AccountNotFound(n, t) => "Account not found: " + n + "#" + t
    case RateLimit => "API rate limit reached. Please try again later."
    case ApiKey => "Invalid or expired API key"
    case ServiceUnavailable => "Riot Games service temporarily unavailable"
  }

  /** `e.status_code`: fixed for each subclass, as given for the base class. */
  function StatusCode(e: RiotException): (code: Option<int>)
    ensures e.AccountNotFound? ==> code == Some(404)
    ensures e.RateLimit? ==> code == Some(429)
    ensures e.ApiKey? ==> code == Some(403)
    ensures e.ServiceUnavailable? ==> code == Some(503)
    ensures e.RiotApi? ==> code == e.code
  {
    match e
    case RiotApi(_, c) => c
    case AccountNotFound(_, _) => Some(404)
    case RateLimit => Some(429)
    case ApiKey => Some(403)
    case ServiceUnavailable => Some(503)
  }

  /** The subclasses are told apart by their status codes. */
  lemma SubclassCodesDistinct(a: RiotException, b: RiotException)
    requires !a.RiotApi? && !b.RiotApi?
    requires StatusCode(a) == StatusCode(b)
    ensures a.AccountNotFound? <==> b.AccountNotFound?
    ensures !a.AccountNotFound? ==> a == b
  {
  }

  /** The not-found message names the account: for a name without "#" it gives back the
      name and the tag. */
  lemma AccountNotFoundMessageInjective(n1: string, t1: string, n2: string, t2: string)
    requires '#' !in n1 && '#' !in n2
    requires Message(AccountNotFound(n1, t1)) == Message(AccountNotFound(n2, t2))
    ensures n1 == n2 && t1 == t2
  {
    var prefix := "Account not found: ";
    var m1 := Message(AccountNotFound(n1, t1));
    var m2 := Message(AccountNotFound(n2, t2));
    assert m1[|prefix|..] == n1 + "#" + t1;
    assert m2[|prefix|..] == n2 + "#" + t2;
    FirstSeparatorDetermined(n1, t1, n2, t2, '#');
  }
}
