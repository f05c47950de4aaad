/**
 * The parts of the browser's cache manager the interaction layer uses: the process-wide
 * "interaction in progress" flag, the active account, the legacy login hint, and the
 * temporary request entries written before an interaction starts.
 */
module BrowserStorage {
  import opened Wrappers
  import opened CredentialCache

  /** One `updateCacheEntries` call: what is kept to validate the response later. */
  datatype RequestCacheEntry = RequestCacheEntry(
    state: string,
    nonce: string,
    authority: string,
    loginHint: string,
    account: Option<AccountInfo>)

  class BrowserCacheManager {
    /** Set while an interactive flow holds the browser; persisted, so it survives a reload. */
    var interactionInProgress: bool
    var activeAccount: Option<AccountInfo>
    /** A login hint left by an older library version, if any. */
    var legacyLoginHint: Option<string>
    /** The request entries written, oldest first. */
    var requestEntries: seq<RequestCacheEntry>

    constructor (activeAccount: Option<AccountInfo>, legacyLoginHint: Option<string>)
      ensures !interactionInProgress && requestEntries == []
      ensures this.activeAccount == activeAccount && this.legacyLoginHint == legacyLoginHint
    {
      interactionInProgress := false;
      this.activeAccount := activeAccount;
      this.legacyLoginHint := legacyLoginHint;
      requestEntries := [];
    }

    method SetInteractionInProgress(inProgress: bool)
      modifies this`interactionInProgress
      ensures interactionInProgress == inProgress
    {
      interactionInProgress := inProgress;
    }

    method UpdateCacheEntries(state: string, nonce: string, authority: string, loginHint: string, account: Option<AccountInfo>)
      modifies this`requestEntries
      ensures requestEntries == old(requestEntries) + [RequestCacheEntry(state, nonce, authority, loginHint, account)]
    {
      requestEntries := requestEntries + [RequestCacheEntry(state, nonce, authority, loginHint, account)];
    }
  }
}
