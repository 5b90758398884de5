/** Client scenarios of the session, proved from the contracts alone:
    a prompt whose answer cites the same URI twice, a prompt whose query
    throws, and a source click while a query is pending. */
module Scenarios {
  import opened Types
  import opened Gateway
  import App
  import Constants

  method DuplicateCitation(service: Service)
  {
    var app := new App.Session(service);
    var a := Source("https://a.com", "A");
    var aDup := Source("https://a.com", "A-dup");
    var chunks := [GroundingChunk(Some(a)), GroundingChunk(Some(aDup))];
    var response := Response("Report: ...", Some([Candidate(Some(GroundingMetadata(Some(chunks))))]));
    var prompt := "Find 10 academic papers about GLI Agent";

    var accepted := app.Submit(prompt);
    assert accepted && app.isLoading;
    assert app.messages == Constants.InitialMessages + [App.UserMessage(prompt), App.ThinkingMessage];

    var result := RunQuery(service, Responded(response));
    assert GroundingChunks(response) == chunks;
    assert Webs(chunks) == [Some(a), Some(aDup)];
    assert ValidEntries(chunks) == [a, aDup];
    assert FindIndex([a, aDup], a.uri) == 0;
    assert DedupFrom([a, aDup], 2) == [];
    assert DedupFrom([a, aDup], 1) == [];
    assert DedupFrom([a, aDup], 0) == [a];
    assert Sources(chunks) == [a];
    assert result == Success(QueryResult("Report: ...", [a]));
    ghost var pending := app.messages;
    app.Settle(result);

    var reply := ChatMessage(Ai, "Report: ...", Some([a]), false);
    assert |app.messages| == 3 && app.messages[2] == reply;
    assert app.messages[..2] == pending[..2] == Constants.InitialMessages + [App.UserMessage(prompt)];
    assert app.messages == app.messages[..2] + [app.messages[2]];
    assert app.messages == Constants.InitialMessages + [App.UserMessage(prompt), reply];
    assert app.currentUrl == "https://a.com";
    assert !app.isLoading && !app.ShowWelcome();
  }

  method FailingQuery(service: Service)
  {
    var app := new App.Session(service);
    var accepted := app.SendMessage("anything", Threw);
    assert accepted;
    assert app.messages[|app.messages| - 1] == App.ErrorMessage;
    assert app.messages[|app.messages| - 1].sources == None;
    assert app.currentUrl == App.BlankPage && !app.isLoading;
  }

  method ClickWhilePending(service: Service)
  {
    var app := new App.Session(service);
    var accepted := app.Submit("first");
    var again := app.Submit("second");
    assert !again && |app.messages| == 3;
    app.SourceClick("https://example.com/doc");
    assert app.currentUrl == "https://example.com/doc" && app.isLoading;
  }
}
