/**
 * The request descriptors of the authentication API: for each of the four
 * requests, the HTTP method, the path, the body parameters and the headers
 * handed to the network client.
 */
module AuthTargets {
  import opened Reactor

  /**
   * The four requests. The verification-code request keeps the spelling
   * of its name in the app (`postVerificaitonCode`).
   */
  datatype AuthTarget =
    | GetAgreements
    | PostUserLogin(email: string, password: string)
    | PostVerificaitonCode(email: string)
    | GetCheckVerificationCode(code: string)

  datatype HTTPMethod = Get | Post

  const CheckCodePrefix: string := "/auth/verification?code="

  /** The two GET requests are the agreements and the code check; the other two are POST. */
  function Method(target: AuthTarget): (verb: HTTPMethod)
    ensures verb == Get <==> target.GetAgreements? || target.GetCheckVerificationCode?
  {
    match target
    case GetAgreements => Get
    case PostUserLogin(_, _) => Post
    case PostVerificaitonCode(_) => Post
    case GetCheckVerificationCode(_) => Get
  }

  /**
   * Every path lies under "/auth/"; the code check puts the code behind a
   * fixed query prefix exactly as given, with no escaping.
   */
  function Path(target: AuthTarget): (path: string)
    ensures |path| > 6 && path[..6] == "/auth/"
    ensures target.GetCheckVerificationCode? ==>
      && |path| == |CheckCodePrefix| + |target.code|
      && path[..|CheckCodePrefix|] == CheckCodePrefix
      && path[|CheckCodePrefix|..] == target.code
  {
    match target
    case GetAgreements => "/auth/agreements"
    case PostUserLogin(_, _) => "/auth/sign-in"
    case PostVerificaitonCode(_) => "/auth/verification/email"
    case GetCheckVerificationCode(code) => CheckCodePrefix + code
  }

  /**
   * The JSON body, present exactly for the POST requests: the two login
   * credentials, or the address a code is sent to, passed on unchanged.
   */
  function Parameters(target: AuthTarget): (parameters: Option<map<string, string>>)
    ensures parameters.Some? <==> Method(target) == Post
    ensures target.PostUserLogin? ==>
      && parameters.value.Keys == {"email", "password"}
      && parameters.value["email"] == target.email
      && parameters.value["password"] == target.password
    ensures target.PostVerificaitonCode? ==>
      && parameters.value.Keys == {"email"}
      && parameters.value["email"] == target.email
  {
    match target
    case GetAgreements => None
    case PostUserLogin(email, password) => Some(map["email" := email, "password" := password])
    case PostVerificaitonCode(email) => Some(map["email" := email])
    case GetCheckVerificationCode(_) => None
  }

  /** Headers are sent exactly with a body, and then declare it JSON. */
  function Headers(target: AuthTarget): (headers: Option<map<string, string>>)
    ensures headers.Some? <==> Parameters(target).Some?
    ensures headers.Some? ==> headers.value == map["Content-Type" := "application/json"]
  {
    match target
    case GetAgreements => None
    case PostUserLogin(_, _) => Some(map["Content-Type" := "application/json"])
    case PostVerificaitonCode(_) => Some(map["Content-Type" := "application/json"])
    case GetCheckVerificationCode(_) => None
  }

  /**
   * The path tells the requests apart: equal paths mean the same kind of
   * request, and for the code check the same code.
   */
  lemma PathsDistinguishRequests(a: AuthTarget, b: AuthTarget)
    requires Path(a) == Path(b)
    ensures a.GetAgreements? <==> b.GetAgreements?
    ensures a.PostUserLogin? <==> b.PostUserLogin?
    ensures a.PostVerificaitonCode? <==> b.PostVerificaitonCode?
    ensures a.GetCheckVerificationCode? <==> b.GetCheckVerificationCode?
    ensures a.GetCheckVerificationCode? ==> a.code == b.code
  {
    var p := Path(a);
    if a.GetCheckVerificationCode? || b.GetCheckVerificationCode? {
      assert p[..|CheckCodePrefix|] == CheckCodePrefix;
      assert p != "/auth/agreements" by {
        assert p[6] == 'v';
      }
      assert p != "/auth/sign-in" by {
        assert p[6] == 'v';
      }
      assert p != "/auth/verification/email" by {
        assert p[18] == '?';
      }
    }
  }
}
