/** The input guards of the two panels (`components/RightPanel.tsx`,
    `components/MainContent.tsx`) and what reaches the session through them.
    The panels test the prompt trimmed; the root handler tests it as is. */
module Panels {
  import opened Types
  import App
  import Gateway

  /** The characters `String.prototype.trim` removes: the ECMAScript
      WhiteSpace and LineTerminator code points. */
  predicate IsTrimmed(c: char)
  {
    || c == '\t' || c == '\n' || c == '\U{000B}' || c == '\U{000C}' || c == '\r' || c == ' '
    || c == '\U{00A0}' || c == '\U{1680}' || ('\U{2000}' <= c <= '\U{200A}')
    || c == '\U{2028}' || c == '\U{2029}' || c == '\U{202F}' || c == '\U{205F}'
    || c == '\U{3000}' || c == '\U{FEFF}'
  }

  /** `s.trim()` is non-empty. */
  predicate TrimsToNonEmpty(s: string)
  {
    exists i :: 0 <= i < |s| && !IsTrimmed(s[i])
  }

  /** The chat panel's submit guard: trimmed prompt non-empty, not loading. */
  predicate PanelAccepts(prompt: string, isLoading: bool)
  {
    TrimsToNonEmpty(prompt) && !isLoading
  }

  /** The panel guard is stronger than the root handler's: what it lets
      through the handler accepts, but a prompt of spaces only passes the
      handler's guard and not the panel's. */
  lemma PanelGuardRefinesHandlerGuard(prompt: string, isLoading: bool)
    ensures PanelAccepts(prompt, isLoading) ==> App.Accepts(prompt, isLoading)
    ensures App.Accepts("  ", false) && !PanelAccepts("  ", false)
  {
  }

  /** Chat panel submit: the untrimmed prompt goes to the send handler when
      the guard holds; otherwise nothing happens. */
  method ChatSubmit(app: App.Session, prompt: string, outcome: Gateway.CallOutcome) returns (sent: bool)
    requires app.Valid()
    modifies app
    ensures app.Valid()
    ensures sent <==> PanelAccepts(prompt, old(app.isLoading))
    ensures !sent ==> app.messages == old(app.messages) && app.currentUrl == old(app.currentUrl)
                      && app.isLoading == old(app.isLoading)
    ensures sent ==> !app.isLoading
    ensures sent && outcome.Threw? ==>
      && app.messages == old(app.messages) + [App.UserMessage(prompt), App.ErrorMessage]
      && app.currentUrl == old(app.currentUrl)
    ensures sent && outcome.Responded? ==>
      var sources := Gateway.Sources(Gateway.GroundingChunks(outcome.response));
      && app.messages == old(app.messages) + [App.UserMessage(prompt), ChatMessage(Ai, outcome.response.text, Some(sources), false)]
      && app.currentUrl == (if |sources| > 0 then sources[0].uri else old(app.currentUrl))
  {
    sent := false;
    if TrimsToNonEmpty(prompt) && !app.isLoading {
      PanelGuardRefinesHandlerGuard(prompt, app.isLoading);
      sent := app.SendMessage(prompt, outcome);
    }
  }

  /** Welcome-screen search submit: only the trimmed-empty test; a submit
      while loading reaches the handler, which then does nothing. */
  method SearchSubmit(app: App.Session, prompt: string, outcome: Gateway.CallOutcome) returns (sent: bool)
    requires app.Valid()
    modifies app
    ensures app.Valid()
    ensures sent <==> TrimsToNonEmpty(prompt) && !old(app.isLoading)
    ensures !sent ==> app.messages == old(app.messages) && app.currentUrl == old(app.currentUrl)
                      && app.isLoading == old(app.isLoading)
    ensures sent ==> !app.isLoading
    ensures sent && outcome.Threw? ==>
      && app.messages == old(app.messages) + [App.UserMessage(prompt), App.ErrorMessage]
      && app.currentUrl == old(app.currentUrl)
    ensures sent && outcome.Responded? ==>
      var sources := Gateway.Sources(Gateway.GroundingChunks(outcome.response));
      && app.messages == old(app.messages) + [App.UserMessage(prompt), ChatMessage(Ai, outcome.response.text, Some(sources), false)]
      && app.currentUrl == (if |sources| > 0 then sources[0].uri else old(app.currentUrl))
  {
    sent := false;
    if TrimsToNonEmpty(prompt) {
      PanelGuardRefinesHandlerGuard(prompt, false);
      sent := app.SendMessage(prompt, outcome);
    }
  }

  /** Address bar submit: an address that trims to something is shown as
      typed, untrimmed; otherwise nothing happens. */
  method AddressSubmit(app: App.Session, address: string) returns (sent: bool)
    requires app.Valid()
    modifies app`currentUrl
    ensures app.Valid()
    ensures sent <==> TrimsToNonEmpty(address)
    ensures app.currentUrl == if sent then address else old(app.currentUrl)
    ensures app.messages == old(app.messages) && app.isLoading == old(app.isLoading)
  {
    sent := TrimsToNonEmpty(address);
    if sent {
      app.SetCurrentUrl(address);
    }
  }
}
