/** The authentication error page: the error code from the address becomes a
    message for the visitor. */
module AuthError {
  import opened Options

  const ConfigurationText := "There is a problem with the server configuration."
  const AccessDeniedText := "Access denied. You do not have permission to sign in."
  const VerificationText := "The verification token has expired or has already been used."
  const DefaultText := "An error occurred during authentication."
  const FallbackText := "Something went wrong. Please try again."

  /** The codes the page knows; the literal `Default` is one of them. */
  const KnownCodes: set<string> := {"Configuration", "AccessDenied", "Verification", "Default"}

  /** `getErrorMessage`, total over every code and the absent one. */
  function ErrorMessage(code: Option<string>): (r: string)
    ensures r == FallbackText <==> code.None? || code.value !in KnownCodes
    ensures code == Some("Configuration") ==> r == ConfigurationText
    ensures code == Some("AccessDenied") ==> r == AccessDeniedText
    ensures code == Some("Verification") ==> r == VerificationText
    ensures code == Some("Default") ==> r == DefaultText
  {
    match code
    case None => FallbackText
    case Some(c) =>
      if c == "Configuration" then ConfigurationText
      else if c == "AccessDenied" then AccessDeniedText
      else if c == "Verification" then VerificationText
      else if c == "Default" then DefaultText
      else FallbackText
  }

  /** Different known codes give different messages. */
  lemma KnownCodesDistinguished(a: string, b: string)
    requires a in KnownCodes && b in KnownCodes && a != b
    ensures ErrorMessage(Some(a)) != ErrorMessage(Some(b))
  {
  }
}
