/** `runSchema`: the middleware that ends every validation chain. It turns the
    first recorded error into a 422, or replaces the request body with the
    data the chains matched (their sanitized values) and lets the request on. */
module Validation {
  import opened Http
  import opened Wrappers
  import Text
  import Rules

  /** The request as `runSchema` sees it: only its body changes. */
  class ValidationRequest<B> {
    var body: B

    constructor(body: B)
      ensures this.body == body
    {
      this.body := body;
    }
  }

  /** How `runSchema` finishes for the errors `validationResult` collected. */
  function Verdict(errors: seq<string>): (r: Outcome<()>)
    ensures r.Proceed? <==> errors == []
    ensures !r.Proceed? ==> r == Forward(ApiError(errors[0], UNPROCESSABLE_ENTITY))
  {
    if errors == [] then Proceed else Forward(ApiError(errors[0], UNPROCESSABLE_ENTITY))
  }

  /** `runSchema(req, res, next)`; `matched` is `matchedData(req, { locations: ['body'] })`. */
  method RunSchema<B>(req: ValidationRequest<B>, errors: seq<string>, matched: B) returns (r: Outcome<()>)
    modifies req
    ensures r == Verdict(errors)
    ensures req.body == if errors == [] then matched else old(req.body)
  {
    if errors != [] {
      return Forward(ApiError(errors[0], UNPROCESSABLE_ENTITY));
    }
    req.body := matched;
    r := Proceed;
  }

  /** A sign-up body with a blank first name is answered with 422 and the
      first-name message, whatever else is wrong with it. */
  lemma BlankFirstNameReported(f: Rules.SignupForm, isEmail: string -> bool)
    requires Text.Trim(Rules.Field(f.firstName)) == ""
    ensures Verdict(Rules.SignupErrors(f, isEmail)) == Forward(ApiError(Rules.FIRST_NAME_REQUIRED, UNPROCESSABLE_ENTITY))
  {
  }

  /** A sign-up body that meets every rule reaches the handler. */
  lemma ValidSignupProceeds(f: Rules.SignupForm, isEmail: string -> bool)
    requires Rules.NameFits(f.firstName) && Rules.NameFits(f.lastName)
    requires Text.Trim(Rules.Field(f.email)) != "" && isEmail(Text.Trim(Rules.Field(f.email)))
    requires Rules.StrongPassword(Rules.Field(f.password)) && f.passwordConfirm == f.password
    ensures Verdict(Rules.SignupErrors(f, isEmail)) == Proceed
  {
  }

  /** A verification body without a code is answered with 422 and the code message. */
  lemma MissingCodeReported(token: Option<string>, isNumeric: string -> bool)
    ensures Verdict(Rules.VerifyEmailErrors(None, token, isNumeric)) ==
            Forward(ApiError(Rules.OTP_REQUIRED, UNPROCESSABLE_ENTITY))
  {
  }
}
