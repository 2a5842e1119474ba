# Search-augmented chat pipeline (ollama_import.py), modelled in Dafny

This project models the prompt pipeline of the Ollama chat server `ollama_import.py`.
The server keeps one conversation history. For each user message it does the following:

- It asks the chat model whether a web search is needed. The reply counts as "yes" iff its
  lower-cased text contains `true`.
- If a search is needed, it asks the model for a search query and runs a Google search.
- It scrapes the result pages in order. The first page whose text is non-empty and that the model
  judges relevant becomes the search context. If there is no such page, the context is
  `"No relevant data found."`.
- The user turn it adds is either the plain message or
  `"SEARCH RESULT: <context>\nUSER: <message>"`. It then asks the model with the whole history,
  appends the assistant's reply and returns that reply.

Every external call is an oracle, a total function passed in as a parameter. These are
`ollama.chat`, `googlesearch.search`, the `newspaper` article extractor and the
`requests` + BeautifulSoup paragraph extractor. All four are gathered in `WebSearch.Oracles`.

Files and modules:

- `wrappers.dfy` (`Wrappers`): `Option`, standing for a Python value that may be `None`.
- `reply_parse.dfy` (`ReplyParse`): ASCII lower-casing, the substring test `in`, and the
  yes/no parse `SaysTrue`. `SaysTrue` is proved equal to the independent description
  `TrueAt`: "t/T, r/R, u/U, e/E at four consecutive positions".
- `scrape.dfy` (`Scrape`): `scrape_webpage` as a choice over the outcomes of the two
  extraction stages, plus `' '.join`.
- `model_calls.dfy` (`ModelCalls`): messages, the chat oracle, and `search_or_not`,
  `generate_query` and `contains_relevant_data` with their exact prompts and model name.
- `web_search.dfy` (`WebSearch`): `ai_search` as a method with a loop. It is proved against
  these specification functions:
  - `FirstRelevantFrom`, the first qualifying index;
  - `SearchContext`, the text returned;
  - `ScannedCount`, how many URLs are walked;
  - `ScanLog`, the scrape and judge calls made, in order.
- `pipeline.dfy` (`Pipeline`): the class `Conversation`. Its field `history` stands for
  `assistant_convo`. Its method `GenerateResponse` performs the same append / pop / append / append.

`AiSearch` returns one extra ghost out-parameter, `log`, which exists only for the specification.
It records each call to `scrape_webpage` and to `contains_relevant_data`, with the URL each call
is about. This makes two properties statable: which URLs are scraped, and that the judge only
sees the non-empty text of the page scraped just before.

## Model

| member | source | states |
|---|---|---|
| ReplyParse.Lower | ollama_import.py:30 | `.lower()` keeps the length and folds each character on its own (ASCII letters only) |
| ReplyParse.ContainsIff | ollama_import.py:30 | Python's `pat in s` holds iff `pat` occurs at some position of `s` |
| ReplyParse.Contains | ollama_import.py:30 | Python's substring test `pat in s`; no contract of its own, its meaning is `ContainsIff` |
| ReplyParse.SaysTrue | ollama_import.py:30 | the expression `'true' in reply.lower()`, shared by lines 30 and 73; no contract of its own, its meaning is `SaysTrueIff` |
| ReplyParse.SaysTrueIff | ollama_import.py:30 | the reply parse says yes iff "true" occurs anywhere in the reply in any mix of upper and lower case |
| ReplyParse.YesCapitalised | ollama_import.py:30 | "True." parses as yes |
| ReplyParse.YesUpperCaseAtEnd | ollama_import.py:30 | "the answer is TRUE" parses as yes |
| ReplyParse.YesEvenWhenNegated | ollama_import.py:30 | "that's not true" parses as yes, the known false positive of the loose parse |
| ReplyParse.NoForFalse | ollama_import.py:30 | "false" parses as no |
| ReplyParse.NoForUnclear | ollama_import.py:30 | "unclear" parses as no |
| ModelCalls.SearchOrNot | ollama_import.py:21-30 | the search decision is yes iff the classifier's reply to the fixed system prompt plus the user text contains "true" in any case |
| ModelCalls.GenerateQuery | ollama_import.py:32-41 | a chat call with the fixed query-writing prompt whose reply is the query unchanged; no contract |
| ModelCalls.ContainsRelevantData | ollama_import.py:64-73 | the relevance judgement uses the same parse on the reply to the question/content prompt |
| WebSearch.GoogleSearch | ollama_import.py:43-45 | the search oracle asked for `num_results = 5`; no contract, since the cap is the library's |
| Scrape.JoinSpace | ollama_import.py:59 | `' '.join` of a non-empty list of paragraphs has the paragraphs' total length plus one character per gap |
| Scrape.JoinSpaceAt | ollama_import.py:59 | paragraph `i` appears in the join at offset "lengths of the earlier paragraphs plus `i`", and a single space follows every paragraph but the last |
| Scrape.JoinSpaceEmptyIff | ollama_import.py:59 | the joined paragraph text is empty iff there are no paragraphs or a single empty one |
| Scrape.ScrapeWebpage | ollama_import.py:47-62 | the result is `None` iff both stages raise; a successful article stage decides the result, even with empty text, and the fallback is not used; otherwise a successful fallback gives the space-joined paragraphs |
| Scrape.ScrapeTruthyIff | ollama_import.py:47-62 | the scraped value is truthy iff the article text is non-empty, or the article stage raised and the paragraphs join to non-empty text |
| WebSearch.Candidates | ollama_import.py:77-79 | the result list of the search oracle for the model-generated query; no contract of its own, it is the list that `SearchContext` and `AiSearch` scan |
| Scrape.Truthy | ollama_import.py:83 | Python truthiness of `page_text`: neither `None` nor ""; no contract of its own, see `ScrapeTruthyIff` |
| WebSearch.Qualifies | ollama_import.py:83 | the whole `if` test: truthy scraped text that the judge calls relevant; no contract of its own, see `FirstRelevantFrom` and `SearchContext` |
| WebSearch.FirstRelevantFrom | ollama_import.py:81-84 | the index found qualifies (truthy text, judged relevant) and no earlier index does; if none is found, no index qualifies |
| WebSearch.SearchContext | ollama_import.py:81-87 | the context is the text of the first qualifying URL, which is non-empty; it is exactly "No relevant data found." when no URL qualifies, including when there are no URLs |
| WebSearch.ScannedCount | ollama_import.py:81-84 | the loop walks `k + 1` URLs when URL `k` is the first to qualify, and all of them when none qualifies |
| WebSearch.StopsAt | ollama_import.py:83-84 | when URL `i` qualifies and none before it does, the scan returns its text after `i + 1` URLs |
| WebSearch.ExhaustsAll | ollama_import.py:81-87 | when no URL qualifies, the scan walks all URLs and returns the sentinel |
| WebSearch.ScanLogScrapes | ollama_import.py:81-82 | the loop scrapes exactly the URLs it walks, each once, in search-result order |
| WebSearch.ScanLogJudges | ollama_import.py:82-83 | every judgement directly follows the scrape of its own URL and is about the non-empty text that scrape returned; `None` and "" are skipped without a judgement |
| WebSearch.ScanStopsAtFirstRelevant | ollama_import.py:81-84 | if URL `k` is the first to qualify, exactly URLs 0..k are scraped and no later URL is scraped; with `ScanLogJudges` on `urls[..k+1]` and the log equation of `AiSearch`, no later URL is judged either |
| WebSearch.ScanExhaustsWhenNoneRelevant | ollama_import.py:81-87 | if no URL qualifies, every URL is scraped once, in order |
| WebSearch.ScanLogJudgesTruthy | ollama_import.py:82-83 | the converse of `ScanLogJudges`: every scrape that returns non-empty text is followed directly by the judgement of that text from that URL |
| WebSearch.AiSearch | ollama_import.py:75-87 | the loop with early return gives the context `SearchContext` describes for the searched URLs, and makes exactly the calls `ScanLog` lists for the walked prefix |
| Pipeline.CombinedPrompt | ollama_import.py:96 | the combined turn is "SEARCH RESULT: ", then the context, then "\nUSER: " and the input, each readable back at its fixed position |
| Pipeline.UserTurnContent | ollama_import.py:91-97 | the added user turn is the input verbatim iff the search decision is no; with search it starts with "SEARCH RESULT: " and ends with "\nUSER: " followed by the input, and what lies between is exactly the `SearchContext` of the candidates |
| Pipeline.AlternatesExtend | ollama_import.py:91-105 | adding one user turn and then one assistant turn keeps the history alternating user/assistant |
| Pipeline.Conversation.constructor | ollama_import.py:19 | the history starts empty, which trivially alternates |
| Pipeline.Conversation.GenerateResponse | ollama_import.py:89-106 | the history grows by exactly one user turn and then one assistant turn, and the earlier turns are unchanged (the pop removes only the turn just appended); the model is asked with the old history plus the new user turn; the returned reply is the content of the appended assistant turn; alternation is preserved |

## Left out

- Flask routes, JSON body parsing and the `PORT` lookup (lines 108-121): transport and configuration.
- The network calls themselves: `ollama.chat`, `googlesearch.search`, `Article` download/parse
  and `requests.get` + BeautifulSoup parsing are oracles. The oracles are fixed functions, so
  the model cannot express a model answering the same request differently on two occasions.
- Exceptions raised by `ollama.chat` or by `googlesearch.search`. The source does not catch
  them, so a failing call aborts `generate_response` with the history partly updated. A failure
  between line 93 and the pop at line 95 leaves the plain user turn of line 91 behind. A failure
  of the final call at line 99 leaves whichever user turn was appended last: the plain one, or
  the combined one of line 97 when search ran. The model assumes these calls return. Only the
  two scrape stages' "raised" outcomes are modelled.
- The result cap of `google_search` (`num_results=5`) is passed to the search oracle, but the
  model does not assume the list holds at most five URLs, because the library's cap is foreign.
  Its pause is not modelled.
- `generate_query` is only a chat call, so `GenerateQuery` has no contract of its own.
- Logging and colorama: side effects only.
- `assistant_convo` is shared by concurrent Flask requests. The model has one sequential
  history and does not reason about interleaving.
- ReplyParse.Lower: folds only ASCII `A`-`Z`, not Python's full Unicode `str.lower()`.
- No timeouts or error fallbacks. `requests.get` at line 57 has no timeout. `generate_response`
  does not turn a failing model or search call into a text reply, and nothing guarantees a
  non-empty reply. None of this is modelled.
- The other server variants (other providers, streaming, knowledge lookup with query
  normalisation) are not part of this model.
