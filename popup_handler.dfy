/**
 * `PopupHandler`: opens the authorization popup and, once the popup is back on the app's
 * origin, reads the response hash, clears it, cleans the popup up, and only then judges
 * the hash.
 */
module Popup {
  import opened Wrappers
  import opened AuthErrors
  import opened BrowserStorage

  /** A popup window: where it was opened, where it is now, and whether it is closed. */
  class PopupWindow {
    const url: string
    var href: string
    var hash: string
    var closed: bool

    constructor Open(url: string)
      ensures this.url == url && href == url && hash == "" && !closed
    {
      this.url := url;
      href := url;
      hash := "";
      closed := false;
    }
  }

  /**
   * How the same-origin monitor ends: the popup reached the app's origin, the user closed it,
   * or the monitor timed out. The polling itself is timer-driven and chooses one of these.
   */
  datatype MonitorOutcome = SameOriginReached | ClosedByUser | TimedOut

  /**
   * What `monitorPopupForHash` makes of the hash it read: an empty hash is one error, a hash
   * without known response properties is another, and any other hash is returned as it is.
   */
  function HashOutcome(contentHash: string, href: string, hashContainsKnownProperties: string -> bool): (r: Result<string, BrowserAuthError>)
    ensures r == Success(contentHash) <==> contentHash != "" && hashContainsKnownProperties(contentHash)
    ensures r == Failure(EmptyHash(href)) <==> contentHash == ""
    ensures r == Failure(HashDoesNotContainKnownProperties) <==> contentHash != "" && !hashContainsKnownProperties(contentHash)
  {
    if contentHash == "" then Failure(EmptyHash(href))
    else if hashContainsKnownProperties(contentHash) then Success(contentHash)
    else Failure(HashDoesNotContainKnownProperties)
  }

  class PopupHandler {
    const browserStorage: BrowserCacheManager
    /** The URLs popups were opened on or navigated to, oldest first. */
    ghost var openedUrls: seq<string>

    constructor (browserStorage: BrowserCacheManager)
      ensures this.browserStorage == browserStorage && openedUrls == []
    {
      this.browserStorage := browserStorage;
      openedUrls := [];
    }

    /**
     * `PopupUtils.openPopup`: may only run once the interaction flag is set. A popup the
     * caller opened beforehand is navigated to the URL and reused; otherwise a new window is
     * opened on it.
     */
    method OpenPopup(url: string, popup: PopupWindow?) returns (w: PopupWindow)
      requires browserStorage.interactionInProgress
      modifies this`openedUrls, if popup != null then {popup} else {}
      ensures popup == null ==> fresh(w) && w.url == url && w.href == url && w.hash == "" && !w.closed
      ensures popup != null ==>
        w == popup && w.href == url && w.hash == "" && w.closed == old(popup.closed)
      ensures openedUrls == old(openedUrls) + [url]
    {
      if popup != null {
        popup.href := url;
        popup.hash := "";
        w := popup;
      } else {
        w := new PopupWindow.Open(url);
      }
      openedUrls := openedUrls + [url];
    }

    /** `initiateAuthRequest`: an empty URL is rejected before the flag is touched. */
    method InitiateAuthRequest(requestUrl: string, popup: PopupWindow?) returns (r: Result<PopupWindow, BrowserAuthError>)
      modifies this`openedUrls, browserStorage`interactionInProgress, if popup != null then {popup} else {}
      ensures requestUrl == "" ==>
        r == Failure(EmptyNavigationUri) && openedUrls == old(openedUrls)
        && browserStorage.interactionInProgress == old(browserStorage.interactionInProgress)
        && (popup != null ==> unchanged(popup))
      ensures requestUrl != "" ==>
        r.Success? && r.value.href == requestUrl && r.value.hash == ""
        && browserStorage.interactionInProgress && openedUrls == old(openedUrls) + [requestUrl]
      ensures requestUrl != "" && popup == null ==> fresh(r.value) && r.value.url == requestUrl && !r.value.closed
      ensures requestUrl != "" && popup != null ==> r.value == popup && r.value.closed == old(popup.closed)
    {
      if requestUrl != "" {
        browserStorage.SetInteractionInProgress(true);
        var w := OpenPopup(requestUrl, popup);
        r := Success(w);
      } else {
        r := Failure(EmptyNavigationUri);
      }
    }

    /** `PopupUtils.cleanPopup`: closes the popup and releases the interaction flag. */
    method CleanPopup(w: PopupWindow)
      modifies w`closed, browserStorage`interactionInProgress
      ensures w.closed && !browserStorage.interactionInProgress
    {
      w.closed := true;
      browserStorage.SetInteractionInProgress(false);
    }

    /**
     * `PopupUtils.monitorPopupForSameOrigin`: resolves when the popup is back on the app's
     * origin; a popup the user closed rejects as cancelled and one that never returns rejects
     * as timed out, each after cleaning up.
     */
    method MonitorPopupForSameOrigin(w: PopupWindow, outcome: MonitorOutcome) returns (rejection: Option<BrowserAuthError>)
      modifies w`closed, browserStorage`interactionInProgress
      ensures outcome == SameOriginReached ==>
        rejection.None? && w.closed == old(w.closed)
        && browserStorage.interactionInProgress == old(browserStorage.interactionInProgress)
      ensures outcome == ClosedByUser ==> rejection == Some(UserCancelled)
      ensures outcome == TimedOut ==> rejection == Some(MonitorPopupTimeout)
      ensures outcome != SameOriginReached ==> w.closed && !browserStorage.interactionInProgress
    {
      match outcome
      case SameOriginReached =>
        rejection := None;
      case ClosedByUser =>
        w.closed := true;
        CleanPopup(w);
        rejection := Some(UserCancelled);
      case TimedOut =>
        CleanPopup(w);
        rejection := Some(MonitorPopupTimeout);
    }

    /**
     * `monitorPopupForHash`: every path leaves the popup closed and the interaction flag
     * clear; a rejected monitor leaves the hash unread, and otherwise the hash is read, then
     * cleared, and judged by `HashOutcome`.
     */
    method MonitorPopupForHash(w: PopupWindow, outcome: MonitorOutcome, hashContainsKnownProperties: string -> bool)
      returns (r: Result<string, BrowserAuthError>)
      modifies w`closed, w`hash, browserStorage`interactionInProgress
      ensures w.closed && !browserStorage.interactionInProgress
      ensures w.href == old(w.href)
      ensures outcome == ClosedByUser ==> r == Failure(UserCancelled) && w.hash == old(w.hash)
      ensures outcome == TimedOut ==> r == Failure(MonitorPopupTimeout) && w.hash == old(w.hash)
      ensures outcome == SameOriginReached ==>
        w.hash == "" && r == HashOutcome(old(w.hash), w.href, hashContainsKnownProperties)
    {
      var rejection := MonitorPopupForSameOrigin(w, outcome);
      if rejection.Some? {
        return Failure(rejection.value);
      }
      var contentHash := w.hash;
      w.hash := "";
      CleanPopup(w);
      if contentHash == "" {
        return Failure(EmptyHash(w.href));
      }
      if hashContainsKnownProperties(contentHash) {
        r := Success(contentHash);
      } else {
        r := Failure(HashDoesNotContainKnownProperties);
      }
    }
  }
}
