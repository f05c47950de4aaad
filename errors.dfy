/** The error codes the modelled operations throw. */
module AuthErrors {

  /** Errors of the token clients (`ClientAuthError`). */
  datatype ClientAuthError =
    | MultipleMatchingTokensInCache

  /** Errors of the browser interaction layer (`BrowserAuthError`). */
  datatype BrowserAuthError =
    | EmptyNavigationUri
    | EmptyHash(href: string)
    | HashDoesNotContainKnownProperties
    | UserCancelled
    | MonitorPopupTimeout
    | InteractionInProgress
    | HashDoesNotContainState
    | UnableToParseState
    | StateInteractionTypeMismatch
}
