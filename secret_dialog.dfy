/** The create-secret dialog: the provider's required field, the request body, and the reset. */
module SecretDialog {
  import opened Wrappers
  import opened Values
  import Text

  datatype Provider = MongoDb | Jwt

  /** The body of a create-secret request. */
  datatype SecretRequest = SecretRequest(provider: Provider, data: Record)

  datatype Toast = Toast(title: string, description: string)

  /**
   * The request a submit sends, or the error it shows: only the chosen provider's field is
   * checked, and the body holds exactly that field, trimmed.
   */
  function Submission(provider: Provider, uri: string, secret: string): (r: Result)
    ensures provider == MongoDb ==>
      (Text.Blank(uri) <==> r == Invalid("MongoDB URI is required")) &&
      (!Text.Blank(uri) ==> r == Valid(SecretRequest(MongoDb, [Entry("uri", VStr(Text.Trim(uri)))])))
    ensures provider == Jwt ==>
      (Text.Blank(secret) <==> r == Invalid("JWT secret is required")) &&
      (!Text.Blank(secret) ==> r == Valid(SecretRequest(Jwt, [Entry("secret", VStr(Text.Trim(secret)))])))
  {
    Text.TrimEmptyIffBlank(uri);
    Text.TrimEmptyIffBlank(secret);
    if provider == MongoDb && Text.Trim(uri) == "" then Invalid("MongoDB URI is required")
    else if provider == Jwt && Text.Trim(secret) == "" then Invalid("JWT secret is required")
    else
      Valid(SecretRequest(provider, if provider == MongoDb then [Entry("uri", VStr(Text.Trim(uri)))]
                                    else [Entry("secret", VStr(Text.Trim(secret)))]))
  }

  datatype Result = Invalid(message: string) | Valid(request: SecretRequest)

  /** The field of the other provider plays no part: changing it changes neither the check nor the body. */
  lemma OtherFieldIgnored(provider: Provider, uri: string, uri': string, secret: string, secret': string)
    requires provider == MongoDb ==> uri == uri'
    requires provider == Jwt ==> secret == secret'
    ensures Submission(provider, uri, secret) == Submission(provider, uri', secret')
  {
    Text.TrimEmptyIffBlank(uri);
    Text.TrimEmptyIffBlank(secret);
    Text.TrimEmptyIffBlank(uri');
    Text.TrimEmptyIffBlank(secret');
  }

  /** The dialog's fields. */
  class Dialog {
    var open: bool
    var provider: Provider
    var uri: string
    var secret: string

    constructor ()
      ensures !open && provider == MongoDb && uri == "" && secret == ""
    {
      open := false;
      provider := MongoDb;
      uri := "";
      secret := "";
    }

    /**
     * Submit. An invalid field shows its error and sends nothing. Otherwise the request is sent;
     * `failure` is the rejection message, or `None` on success, which closes the dialog and resets
     * both fields and the provider. A failed create keeps every field.
     */
    method HandleSubmit(failure: Option<string>) returns (sent: Option<SecretRequest>, toast: Toast)
      modifies this
      ensures var s := Submission(old(provider), old(uri), old(secret));
        (s.Invalid? ==> sent == None && toast == Toast("Error", s.message)) &&
        (s.Valid? ==> sent == Some(s.request))
      ensures sent.Some? && failure.None? ==>
        toast == Toast("Success", "Secret created successfully") &&
        !open && uri == "" && secret == "" && provider == MongoDb
      ensures sent.Some? && failure.Some? ==> toast == Toast("Error", failure.value)
      ensures sent.None? || failure.Some? ==>
        open == old(open) && provider == old(provider) && uri == old(uri) && secret == old(secret)
    {
      var s := Submission(provider, uri, secret);
      if s.Invalid? {
        sent := None;
        toast := Toast("Error", s.message);
        return;
      }
      sent := Some(s.request);
      match failure
      case None =>
        toast := Toast("Success", "Secret created successfully");
        open := false;
        uri := "";
        secret := "";
        provider := MongoDb;
      case Some(message) =>
        toast := Toast("Error", message);
    }
  }
}
