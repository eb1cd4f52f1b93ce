/** `makeauth`: the credential record for the security scheme a form
    references — basic (RFC 7617), digest (RFC 7616) or bearer (RFC 6750). */
module Authn {
  import opened WotTypes

  /** The record for a declared scheme name, or None when the form names a
      security definition the Thing Description lacks (the source then raises
      a TypeError reading `.scheme` of undefined). */
  function MakeAuth(securityDefinitions: map<string, string>, security: string, creds: Credentials)
    : (auth: Option<Auth>)
    ensures auth.None? <==> security !in securityDefinitions
    ensures auth.Some? ==> var scheme := securityDefinitions[security];
      && (auth.value.UserPass? <==> scheme == "basic" || scheme == "digest")
      && (auth.value.BearerToken? <==> scheme == "bearer")
      && (auth.value.UserPass? ==>
            && auth.value.user == creds.username
            && auth.value.pass == creds.password
            && (auth.value.sendImmediately <==> scheme == "basic"))
      && (auth.value.BearerToken? ==> auth.value.bearer == creds.token)
  {
    if security !in securityDefinitions then None
    else
      var scheme := securityDefinitions[security];
      match scheme
      case "basic" => Some(UserPass(creds.username, creds.password, true))
      case "digest" => Some(UserPass(creds.username, creds.password, false))
      case "bearer" => Some(BearerToken(creds.token))
      case _ => Some(NoAuth)
  }

  /** The scheme a credential record is for; None for the empty record. */
  function SchemeOf(auth: Auth): Option<string> {
    match auth
    case NoAuth => None
    case UserPass(_, _, sendImmediately) => if sendImmediately then Some("basic") else Some("digest")
    case BearerToken(_) => Some("bearer")
  }

  /** The record never stands for a scheme other than the declared one:
      reading its scheme back gives the declaration, or nothing. */
  lemma {:induction false} MakeAuthNeverInventsScheme(
    securityDefinitions: map<string, string>, security: string, creds: Credentials)
    requires security in securityDefinitions
    ensures var auth := MakeAuth(securityDefinitions, security, creds).value;
      SchemeOf(auth).Some? ==> SchemeOf(auth) == Some(securityDefinitions[security])
    ensures var scheme := securityDefinitions[security];
      scheme in {"basic", "digest", "bearer"} ==>
        SchemeOf(MakeAuth(securityDefinitions, security, creds).value) == Some(scheme)
  {
    var scheme := securityDefinitions[security];
    if scheme == "basic" {
    } else if scheme == "digest" {
    } else if scheme == "bearer" {
    } else {
      assert MakeAuth(securityDefinitions, security, creds).value == NoAuth;
    }
  }

  /** Whether `bindingHttp` and `bindingWebSocket` attach the record:
      it has an own `user` or `bearer` property. */
  predicate HasUserOrBearer(auth: Auth) {
    auth.UserPass? || auth.BearerToken?
  }

  /** Whether `bindingLongPoll` attaches the record: `user` or `bearer`
      is truthy. */
  predicate HasTruthyUserOrBearer(auth: Auth) {
    (auth.UserPass? && Declared(auth.user)) || (auth.BearerToken? && Declared(auth.bearer))
  }

  /** The long-poll test is the stricter one: it attaches only what HTTP
      attaches, and it drops a basic record whose user name is empty, which
      HTTP still sends. */
  lemma LongPollAttachesLess(auth: Auth)
    ensures HasTruthyUserOrBearer(auth) ==> HasUserOrBearer(auth)
    ensures auth.UserPass? && !Declared(auth.user) ==> HasUserOrBearer(auth) && !HasTruthyUserOrBearer(auth)
  {
  }

  /** The records MakeAuth builds are attached exactly for the three known
      schemes. */
  lemma AttachedIffKnownScheme(securityDefinitions: map<string, string>, security: string, creds: Credentials)
    requires security in securityDefinitions
    ensures HasUserOrBearer(MakeAuth(securityDefinitions, security, creds).value) <==>
      securityDefinitions[security] in {"basic", "digest", "bearer"}
  {
  }
}
