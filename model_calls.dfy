/**
 The three classification / rewriting calls to the chat model
 (ollama_import.py lines 21-41 and 64-73). `ollama.chat` is an oracle from a
 model name and a message list to the reply's `message.content`.
 */
module ModelCalls {
  import opened ReplyParse

  datatype Role = System | User | Assistant

  /** One chat message, `{'role': ..., 'content': ...}`; also one turn of the history. */
  datatype Message = Message(role: Role, content: string)

  /** `ollama.chat(model=..., messages=...)['message']['content']`. */
  type Chat = (string, seq<Message>) -> string

  const ModelName := "llama3.2:latest"

  function SearchDecisionRequest(prompt: string): seq<Message> {
    [Message(System, "Determine if a web search is required."), Message(User, prompt)]
  }

  function QueryRequest(prompt: string): seq<Message> {
    [Message(System, "Create a search query based on the user input."), Message(User, prompt)]
  }

  function RelevanceRequest(pageText: string, prompt: string): seq<Message> {
    [Message(System, "Determine if this content answers the user's question."),
     Message(User, "User Question: " + prompt + "\nContent: " + pageText)]
  }

  /** `search_or_not`: yes iff the classifier's reply contains "true" in any case. */
  function SearchOrNot(prompt: string, chat: Chat): (r: bool)
    ensures r <==> exists i: nat :: TrueAt(chat(ModelName, SearchDecisionRequest(prompt)), i)
  {
    var reply := chat(ModelName, SearchDecisionRequest(prompt));
    SaysTrueIff(reply);
    SaysTrue(reply)
  }

  /** `generate_query`: the model's reply is the query, unchanged. */
  function GenerateQuery(prompt: string, chat: Chat): string {
    chat(ModelName, QueryRequest(prompt))
  }

  /** `contains_relevant_data`: the same parse, applied to the relevance judge's reply. */
  function ContainsRelevantData(pageText: string, prompt: string, chat: Chat): (r: bool)
    ensures r <==> exists i: nat :: TrueAt(chat(ModelName, RelevanceRequest(pageText, prompt)), i)
  {
    var reply := chat(ModelName, RelevanceRequest(pageText, prompt));
    SaysTrueIff(reply);
    SaysTrue(reply)
  }
}
