/** The Cognito pre-token trigger that only lets users of one e-mail domain
    obtain tokens (backend/cognito_pre_token_validation.py). */
module EmailGate {
  import opened Wrappers
  import opened Strs

  const AllowedEmailDomain: string := "@ad.melco.co.jp"

  /** The parts of the trigger event the gate reads; `rest` stands for the
      remaining event fields, which are passed through untouched. */
  datatype PreTokenEvent = PreTokenEvent(request: Option<TokenRequest>, rest: map<string, string>)

  datatype TokenRequest = TokenRequest(userAttributes: Option<map<string, string>>)

  /** The e-mail the gate checks: absent attributes or e-mail read as "". */
  function UserEmail(r: TokenRequest): string
  {
    var attrs := r.userAttributes.GetOr(map[]);
    if "email" in attrs then attrs["email"] else ""
  }

  /** The trigger: the event itself when the e-mail ends with the allowed
      domain, an error (the raised exception) otherwise, including a missing
      `request`. */
  function ValidateEmailDomain(e: PreTokenEvent): (r: Result<PreTokenEvent>)
    ensures r.Ok? <==> e.request.Some? && EndsWith(UserEmail(e.request.value), AllowedEmailDomain)
    ensures r.Ok? ==> r.value == e
  {
    match e.request
    case None => Err("'request'")
    case Some(req) =>
      var email := UserEmail(req);
      if EndsWith(email, AllowedEmailDomain) then Ok(e)
      else Err("メールドメインが許可されていません。" + AllowedEmailDomain + " を使用してください")
  }

  /** A user without an e-mail attribute is rejected. */
  lemma MissingEmailRejected(e: PreTokenEvent)
    requires e.request.Some?
    requires e.request.value.userAttributes.None? || "email" !in e.request.value.userAttributes.value
    ensures ValidateEmailDomain(e).Err?
  {
  }

  /** Any local part followed by the allowed domain is accepted unchanged. */
  lemma DomainAddressAccepted(e: PreTokenEvent, local: string)
    requires e.request.Some? && e.request.value.userAttributes.Some?
    requires "email" in e.request.value.userAttributes.value
    requires e.request.value.userAttributes.value["email"] == local + AllowedEmailDomain
    ensures ValidateEmailDomain(e) == Ok(e)
  {
    var email := local + AllowedEmailDomain;
    assert email[|email| - |AllowedEmailDomain|..] == AllowedEmailDomain;
  }
}
