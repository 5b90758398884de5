/** The root component (`App.tsx`): the session state and the transitions
    the event handlers make on it. The asynchronous send handler is split at
    its one `await` into `Submit` (everything before it) and `Settle`
    (everything after it); `SendMessage` runs the two in sequence. */
module App {
  import opened Types
  import opened Constants
  import Gateway

  const ThinkingText: string := "Thinking..."
  const ErrorText: string := "Sorry, I encountered an error. Please try again."
  const BlankPage: string := "about:blank"

  /** The turn appended for the user's prompt. */
  function UserMessage(prompt: string): ChatMessage
  {
    ChatMessage(User, prompt, None, false)
  }

  /** The pending placeholder appended after the user's turn. */
  const ThinkingMessage: ChatMessage := ChatMessage(Ai, ThinkingText, None, true)

  /** The turn shown when the query failed: fixed text, no sources. */
  const ErrorMessage: ChatMessage := ChatMessage(Ai, ErrorText, None, false)

  /** `prev.slice(0, -1)`: all but the last element; an empty list stays empty. */
  function DropLast(ms: seq<ChatMessage>): (r: seq<ChatMessage>)
    ensures ms != [] ==> r + [ms[|ms| - 1]] == ms
    ensures ms == [] ==> r == []
  {
    if ms == [] then [] else ms[..|ms| - 1]
  }

  /** The handler's guard: `!prompt || isLoading` returns early. A prompt of
      spaces only is accepted here. */
  predicate Accepts(prompt: string, isLoading: bool)
  {
    prompt != "" && !isLoading
  }

  /** The state of the root component. */
  class Session {
    const service: Gateway.Service
    var messages: seq<ChatMessage>
    var currentUrl: string
    var isLoading: bool
    /** The number of prompts accepted so far. */
    ghost var turns: nat

    /** Each accepted prompt adds two turns for good; while a query is in
        flight the last turn is the placeholder. */
    ghost predicate Valid()
      reads this
    {
      && |messages| == |InitialMessages| + 2 * turns
      && (isLoading ==> turns > 0 && messages[|messages| - 1] == ThinkingMessage)
    }

    /** The initial state; `service` is the gateway the component built
        (its construction fails without a credential, see Gateway.NewService). */
    constructor (service: Gateway.Service)
      ensures Valid() && turns == 0
      ensures this.service == service
      ensures messages == InitialMessages && currentUrl == BlankPage && !isLoading
    {
      this.service := service;
      messages := InitialMessages;
      currentUrl := BlankPage;
      isLoading := false;
      turns := 0;
    }

    /** `showWelcome`: the conversation holds no more than the initial turns,
        which is the case exactly until the first prompt is accepted. */
    function ShowWelcome(): (b: bool)
      reads this
      requires Valid()
      ensures b <==> turns == 0
    {
      |messages| <= |InitialMessages|
    }

    /** The part of the send handler before the query: reject an empty
        prompt or a second request, otherwise raise the loading flag and
        append the user's turn and the placeholder. */
    method Submit(prompt: string) returns (accepted: bool)
      requires Valid()
      modifies this
      ensures Valid()
      ensures accepted <==> Accepts(prompt, old(isLoading))
      ensures currentUrl == old(currentUrl)
      ensures !accepted ==> messages == old(messages) && isLoading == old(isLoading) && turns == old(turns)
      ensures accepted ==> && messages == old(messages) + [UserMessage(prompt), ThinkingMessage]
                           && isLoading && turns == old(turns) + 1
    {
      if prompt == "" || isLoading {
        return false;
      }
      isLoading := true;
      messages := messages + [UserMessage(prompt), ThinkingMessage];
      turns := turns + 1;
      accepted := true;
    }

    /** The part of the send handler after the query: replace the last turn
        with the answer or the error text, move the viewer to the first
        source of a successful answer, and always lower the loading flag. */
    method Settle(result: Result<Gateway.QueryResult, Gateway.ServiceError>)
      requires Valid()
      modifies this
      ensures Valid() && turns == old(turns) && !isLoading
      ensures |messages| == |old(messages)|
      ensures messages[..|messages| - 1] == old(messages)[..|messages| - 1]
      ensures result.Success? ==>
        messages[|messages| - 1] == ChatMessage(Ai, result.value.text, Some(result.value.sources), false)
      ensures result.Failure? ==> messages[|messages| - 1] == ErrorMessage
      ensures result.Success? && |result.value.sources| > 0 ==> currentUrl == result.value.sources[0].uri
      ensures !(result.Success? && |result.value.sources| > 0) ==> currentUrl == old(currentUrl)
    {
      match result {
        case Success(r) =>
          messages := DropLast(messages) + [ChatMessage(Ai, r.text, Some(r.sources), false)];
          if |r.sources| > 0 {
            currentUrl := r.sources[0].uri;
          }
        case Failure(_) =>
          messages := DropLast(messages) + [ErrorMessage];
      }
      isLoading := false;
    }

    /** `handleSendMessage`, with `outcome` standing for what the external
        call does with the prompt: an accepted prompt ends with the user's
        turn and the reply appended, the loading flag down and, on an answer
        citing sources, the viewer on the first deduplicated source. */
    method SendMessage(prompt: string, outcome: Gateway.CallOutcome) returns (accepted: bool)
      requires Valid()
      modifies this
      ensures Valid()
      ensures accepted <==> Accepts(prompt, old(isLoading))
      ensures !accepted ==> messages == old(messages) && currentUrl == old(currentUrl) && isLoading == old(isLoading)
      ensures accepted ==> !isLoading
      ensures accepted && outcome.Threw? ==>
        messages == old(messages) + [UserMessage(prompt), ErrorMessage] && currentUrl == old(currentUrl)
      ensures accepted && outcome.Responded? ==>
        var sources := Gateway.Sources(Gateway.GroundingChunks(outcome.response));
        && messages == old(messages) + [UserMessage(prompt), ChatMessage(Ai, outcome.response.text, Some(sources), false)]
        && currentUrl == (if |sources| > 0 then sources[0].uri else old(currentUrl))
    {
      accepted := Submit(prompt);
      if accepted {
        ghost var pending := messages;
        Settle(Gateway.RunQuery(service, outcome));
        assert messages[..|messages| - 1] == pending[..|pending| - 1];
        assert pending[..|pending| - 1] == old(messages) + [UserMessage(prompt)];
      }
    }

    /** `handleInitialPrompt`: a prompt picked on the welcome screen goes
        through the send handler unchanged. */
    method InitialPrompt(prompt: string, outcome: Gateway.CallOutcome) returns (accepted: bool)
      requires Valid()
      modifies this
      ensures Valid()
      ensures accepted <==> Accepts(prompt, old(isLoading))
      ensures !accepted ==> messages == old(messages) && currentUrl == old(currentUrl) && isLoading == old(isLoading)
      ensures accepted ==> !isLoading && !ShowWelcome()
      ensures accepted && outcome.Threw? ==>
        messages == old(messages) + [UserMessage(prompt), ErrorMessage] && currentUrl == old(currentUrl)
      ensures accepted && outcome.Responded? ==>
        var sources := Gateway.Sources(Gateway.GroundingChunks(outcome.response));
        && messages == old(messages) + [UserMessage(prompt), ChatMessage(Ai, outcome.response.text, Some(sources), false)]
        && currentUrl == (if |sources| > 0 then sources[0].uri else old(currentUrl))
    {
      accepted := SendMessage(prompt, outcome);
    }

    /** `setCurrentUrl`, also passed to the viewer as its address handler:
        only the displayed address changes, whatever the loading state. */
    method SetCurrentUrl(url: string)
      requires Valid()
      modifies this`currentUrl
      ensures Valid()
      ensures currentUrl == url
      ensures messages == old(messages) && isLoading == old(isLoading)
    {
      currentUrl := url;
    }

    /** `handleSourceClick`: show the clicked source in the viewer. */
    method SourceClick(url: string)
      requires Valid()
      modifies this`currentUrl
      ensures Valid()
      ensures currentUrl == url
      ensures messages == old(messages) && isLoading == old(isLoading)
    {
      SetCurrentUrl(url);
    }
  }
}
