/**
 `generate_response` (ollama_import.py lines 89-106) over the conversation
 history `assistant_convo` (line 19), which it updates in place.
 */
module Pipeline {
  import opened ModelCalls
  import opened WebSearch

  /** The user turn that replaces the plain one when search ran (line 96): the tag, the
      context, then the tagged input, each readable back at its fixed place. */
  function CombinedPrompt(context: string, userInput: string): (r: string)
    ensures |r| == 15 + |context| + 7 + |userInput|
    ensures r[..15] == "SEARCH RESULT: "
    ensures r[15..15 + |context|] == context
    ensures r[15 + |context|..] == "\nUSER: " + userInput
  {
    var head, tail := "SEARCH RESULT: ", "\nUSER: " + userInput;
    var r := head + context + tail;
    assert r[..15] == head;
    assert r[15..15 + |context|] == context;
    assert r[15 + |context|..] == tail;
    r
  }

  /** The content of the one user turn a call adds: the input verbatim exactly when the
      search decision is no; with search, the tagged search result then the tagged input. */
  function UserTurnContent(userInput: string, o: Oracles): (r: string)
    ensures r == userInput <==> !SearchOrNot(userInput, o.chat)
    ensures SearchOrNot(userInput, o.chat) ==>
      var tail := "\nUSER: " + userInput;
      |r| >= 15 + |tail| && r[..15] == "SEARCH RESULT: " && r[|r| - |tail|..] == tail &&
      r[15..|r| - |tail|] == SearchContext(Candidates(userInput, o), userInput, o)
  {
    if SearchOrNot(userInput, o.chat)
    then CombinedPrompt(SearchContext(Candidates(userInput, o), userInput, o), userInput)
    else userInput
  }

  /** Turns alternate user, assistant, user, ..., and end with an assistant turn. */
  predicate Alternates(h: seq<Message>) {
    |h| % 2 == 0 && forall i :: 0 <= i < |h| ==> h[i].role == (if i % 2 == 0 then User else Assistant)
  }

  lemma AlternatesExtend(h: seq<Message>, u: string, a: string)
    requires Alternates(h)
    ensures Alternates(h + [Message(User, u), Message(Assistant, a)])
  {
  }

  /** The process-wide history `assistant_convo`, one sequential conversation. */
  class Conversation {
    var history: seq<Message>

    constructor ()
      ensures history == [] && Alternates(history)
    {
      history := [];
    }

    /** Adds one user turn (plain or search-augmented) and one assistant turn; the model is
        asked with the earlier history plus the new user turn, and its reply is returned. */
    method GenerateResponse(userInput: string, o: Oracles) returns (aiReply: string)
      modifies this
      ensures history == old(history) + [Message(User, UserTurnContent(userInput, o)), Message(Assistant, aiReply)]
      ensures aiReply == o.chat(ModelName, old(history) + [Message(User, UserTurnContent(userInput, o))])
      ensures Alternates(old(history)) ==> Alternates(history)
    {
      history := history + [Message(User, userInput)];
      if SearchOrNot(userInput, o.chat) {
        var context;
        ghost var unusedScanLog;
        context, unusedScanLog := AiSearch(userInput, o);
        history := history[..|history| - 1];
        assert history == old(history);
        var combinedPrompt := CombinedPrompt(context, userInput);
        history := history + [Message(User, combinedPrompt)];
      }
      ghost var userTurn := Message(User, UserTurnContent(userInput, o));
      assert history == old(history) + [userTurn];
      aiReply := o.chat(ModelName, history);
      history := history + [Message(Assistant, aiReply)];
      assert history == old(history) + [userTurn, Message(Assistant, aiReply)];
      if Alternates(old(history)) {
        AlternatesExtend(old(history), userTurn.content, aiReply);
      }
    }
  }
}
