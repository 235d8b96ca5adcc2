# Korean public-administration helper: classifier, chat route, lookup tools and client state

This project models the deterministic core of a chat assistant that helps
foreigners and residents with Korean administrative procedures (visas,
moving-in reports, tax and health insurance). It has four parts:

- **The chat API route** (`web/app/api/chat/route.ts`), module `ChatRoute`.
  `classifyQuestion` lowercases a question and tries four keyword
  alternations in a fixed order (visa, housing, tax, healthcare), falling
  back to `triage`. The `AGENTS` table maps every label to a persona. `POST`
  validates the body, composes the outbound message list (system prompt,
  history, new user turn), substitutes a fallback for an empty completion
  and answers with JSON. The completion call itself is an input
  (`ProviderOutcome`). Concrete questions and their labels are proved in
  module `ClassifierExamples`.
- **The tools** (`tools/web_search.py`), module `WebSearch`.
  `search_government_info` picks the official sites for a category, falling
  back to `general`, and renders a fixed template. `get_terminology_explanation`
  looks a term up by exact key and renders either the entry or the
  not-found text. Both are modelled as the lists of lines they join, so
  each line can be stated on its own.
- **The API-key form** (`web/components/ApiKeyInput.tsx`), module `ApiKey`.
  It is a class holding `apiKey`, `error` and `isValidating`. The answer of
  the validation endpoint is an input (`ServerOutcome`), and a key handed
  to `onApiKeySet` is an output.
- **The chat panel** (`web/components/ChatInterface.tsx`), module `Chat`.
  It is a class holding `messages`, `input` and `isLoading`. The answer of
  `/api/chat` is an input (`ChatOutcome`). The request body and the topic
  passed to `onAgentChange` are outputs.

Modules `Strings` and `Options` hold the JavaScript and Python string
semantics the models rely on:

- substring containment, standing for an unanchored regular expression test;
- `startsWith`;
- ASCII `toLowerCase`;
- the ECMAScript `trim` white-space set;
- `join` and `split`;
- UTF-16 `length`.

Each asynchronous handler is split at its `await` into a `Begin…` and a
`Finish…` method. The state between them is the state the user sees while a
request is in flight. A third method runs both with nothing in between.

## Model

| member | source | states |
|---|---|---|
| ChatRoute.Classify | web/app/api/chat/route.ts:63-101 | every label the classifier returns is a key of the persona table `AGENTS` (route.ts:9-35), so the agent lookup is always defined |
| ChatRoute.MatchesAny | web/app/api/chat/route.ts:68-69 | an alternation of literal keywords matches exactly when some keyword occurs somewhere in the text |
| Strings.ContainsIff | web/app/api/chat/route.ts:68-69 | the unanchored test finds a keyword exactly when it occurs at some offset of the text |
| ChatRoute.ClassifyPrecedence | web/app/api/chat/route.ts:63-101 | visa iff a visa keyword occurs; housing iff no visa keyword and a housing keyword; tax and healthcare likewise exclude every earlier category; triage iff no keyword of any list occurs |
| ChatRoute.FirstMatch | web/app/api/chat/route.ts:63-101 | the first-match rule over an ordered category table yields triage or the label of a category whose keywords occur |
| ChatRoute.ClassifyIsFirstMatch | web/app/api/chat/route.ts:63-101 | the classifier equals the first-match rule applied to the lowercased text over the table visa, housing, tax, healthcare |
| ChatRoute.FirstMatchPrecedence | web/app/api/chat/route.ts:63-101 | with distinct labels, the answer is category i iff its keywords occur and no earlier category's do, and triage iff no category matches |
| ChatRoute.CategoriesDistinct | web/app/api/chat/route.ts:72-100 | the four labels are distinct and none of them is triage |
| ChatRoute.ClassifyIgnoresCase | web/app/api/chat/route.ts:64 | a question and its lowercased form get the same label |
| ChatRoute.ClassifyMonotone | web/app/api/chat/route.ts:67-100 | text added around a question can only move its label to an earlier category in the test order |
| ChatRoute.Compose | web/app/api/chat/route.ts:119-126 | the outbound list has the history's length plus two: the system turn first, then each history entry at the next position, unchanged, then the user turn last |
| ChatRoute.ComposeKeepsHistory | web/app/api/chat/route.ts:121-124 | the middle of the outbound list is exactly the history, in order |
| ChatRoute.ReplyText | web/app/api/chat/route.ts:136 | the reply is the first choice's content when it is a non-empty text, and otherwise the fixed fallback; it is never empty |
| ChatRoute.Truthy | web/app/api/chat/route.ts:107 | `!message` holds exactly when the field is absent, the empty text, or a falsy value of another JSON type |
| ChatRoute.Prepare | web/app/api/chat/route.ts:103-126 | a falsy message gives 400 with the required-message error; an unparsable body, a non-string message or a history that is not a list gives 500 with the server error; otherwise the request carries the classified label, its persona, the fixed model settings and the composed list |
| ChatRoute.Post | web/app/api/chat/route.ts:103-150 | the status is 200, 400 or 500; 400 exactly for a falsy message; 200 exactly when preparation succeeds and the provider answers, and then the body holds the label, its persona and a non-empty reply; every 500 carries the server error |
| ChatRoute.RejectionIgnoresProvider | web/app/api/chat/route.ts:105-112 | a refused request gets the same answer whatever the provider would have done, because no provider call is made for it |
| ChatRoute.BadRequestBeforeProvider | web/app/api/chat/route.ts:107-112 | a 400 answer comes only from a body with a falsy message, and is the required-message refusal made before classification and before the provider call |
| ChatRoute.NoneMatch | web/app/api/chat/route.ts:68-98 | a text that lacks one marked character of every keyword of a list matches none of them |
| ClassifierExamples.ClassifyParent | web/app/api/chat/route.ts:77 | "parent" is a housing question, because "rent" occurs in it unanchored |
| ClassifierExamples.ClassifyPleaseInsurance | web/app/api/chat/route.ts:77-98 | a question about health insurance that starts with "Please" is a housing question, because "lease" occurs in "please" and housing is tested first |
| ClassifierExamples.ClassifyMoveInReport | web/app/api/chat/route.ts:77-81 | a question about the move-in report is a housing question |
| ClassifierExamples.ClassifyVisaExtension | web/app/api/chat/route.ts:68-72 | a question about extending a visa is a visa question |
| ClassifierExamples.ClassifyGreeting | web/app/api/chat/route.ts:100 | a greeting with no keyword is a triage question |
| ClassifierExamples.ExampleCategoryAgrees | web/components/ChatInterface.tsx:21-26 | the category of every suggestion button is the label the classifier gives its text |
| WebSearch.SitesFor | tools/web_search.py:23-48 | a known category selects exactly its own site list; any other category selects exactly the general list; every list has at least two sites |
| WebSearch.SearchGovernmentInfo | tools/web_search.py:11-63 | for every query and category, the text is the f-string: a line feed, the query line, the category line with the caller's own category, a blank line, the sites heading, the selected sites as "- " lines joined by line feeds, a blank line, the guidance heading, the guidance line quoting the query, the closing line and a final line feed |
| WebSearch.SearchGovernmentInfoDefault | tools/web_search.py:11 | a call without a category renders the general site list under the category line "general" |
| WebSearch.SiteLines | tools/web_search.py:58 | one line per site, in list order, each the site prefixed by "- " |
| WebSearch.SearchRenderLines | tools/web_search.py:53-63 | splitting the rendered text at newlines gives back the template's lines when no site, query or category holds a newline |
| WebSearch.SearchGovernmentInfoLines | tools/web_search.py:48-63 | when the query and category hold no line feed, the result has the site count plus ten lines; line 1 echoes the query, line 2 echoes the category argument (not the fallback key), the sites follow as "- " lines in order, and the guidance line quotes the query again |
| WebSearch.GetTerminologyExplanation | tools/web_search.py:67-135 | for every term, the text is the term line followed, for an exact key, by that entry's plain wording, explanation and English name, and for any other term by the not-found notice, advice and reference, each on its own line between an opening and a closing line feed |
| WebSearch.TerminologyLines | tools/web_search.py:121-135 | when the term holds no line feed, the result has six lines and echoes the term; for a dictionary key the next three lines are that entry's plain wording, explanation and English name; for any other term they are the not-found notice, advice and reference |
| WebSearch.ExactKeyOnly | tools/web_search.py:121 | no key of the dictionary is found once a space is put in front of it, and that term gets the not-found text: there is no normalisation |
| ApiKey.LocalCheck | web/components/ApiKeyInput.tsx:17-25 | a request is made exactly when the key is not blank after trimming and starts with "sk-"; a blank key gets the empty-key error, any other rejected key the format error |
| ApiKey.ServerDecision | web/components/ApiKeyInput.tsx:40-51 | accepted iff the endpoint says valid, or the call throws and the key is longer than 20 UTF-16 code units; an invalid verdict gives the server's error when it is a non-empty text and the default message otherwise; a throw with a short key gives the too-short error |
| ApiKey.Decide | web/components/ApiKeyInput.tsx:16-55 | only a non-blank key starting with "sk-" is ever accepted; the local checks come first and, when they pass, the endpoint's answer decides |
| ApiKey.LocalRefusalIgnoresServer | web/components/ApiKeyInput.tsx:17-25 | a key refused by the local checks gets the same refusal whatever the endpoint would have answered |
| ApiKey.LeadingSpaceRefused | web/components/ApiKeyInput.tsx:22-25 | a well-formed key preceded by a space passes the blank check but fails the format check, which looks at the untrimmed key |
| ApiKey.ThrewAcceptsLongKeys | web/components/ApiKeyInput.tsx:47-51 | for a key that passed the local checks (not blank, starts with "sk-"), without an answer from the endpoint, a key of Basic Multilingual Plane characters is accepted exactly when it has more than 20 characters |
| ApiKey.ApiKeyInput.constructor | web/components/ApiKeyInput.tsx:11-14 | the form starts with an empty key, no error, not validating, and no key handed over |
| ApiKey.ApiKeyInput.OnChange | web/components/ApiKeyInput.tsx:88-91 | editing replaces the key and clears the error, leaving everything else unchanged |
| ApiKey.ApiKeyInput.BeginValidation | web/components/ApiKeyInput.tsx:16-28 | a locally refused key sets its error and leaves the validating flag as it was; an accepted one raises the flag and clears the error; no key is handed over |
| ApiKey.ApiKeyInput.FinishValidation | web/components/ApiKeyInput.tsx:40-54 | the key is handed over exactly when the endpoint's answer accepts it, otherwise the error is set; the validating flag is false afterwards on every outcome |
| ApiKey.ApiKeyInput.ValidateAndSetKey | web/components/ApiKeyInput.tsx:16-55 | the key is handed over exactly when the decision accepts it, and only keys starting with "sk-" are ever handed over; a refusal sets the decision's error; the validating flag ends false whenever a request was made |
| ApiKey.ApiKeyInput.HandleKeyPress | web/components/ApiKeyInput.tsx:57-61 | Enter runs the validation whether or not Shift is held, with the whole new state of a validation call; any other key changes nothing |
| Chat.SendText | web/components/ChatInterface.tsx:43 | the text sent is the explicit argument when it is a non-empty text, and the text box otherwise |
| Chat.HistoryOf | web/components/ChatInterface.tsx:62 | the history sent has one entry per message, in order, with the message's role and content and nothing else |
| Chat.HistoryAppend | web/components/ChatInterface.tsx:62 | the history of a longer conversation extends the history of its prefix |
| Chat.NextHistory | web/components/ChatInterface.tsx:52-79 | after a send, the next request's history is the previous one followed by the question and its answer |
| Chat.ReplyFor | web/components/ChatInterface.tsx:68-91 | a reply without an error field gives an assistant message with the response and the agent badge; an error field or an exception gives an assistant message with the fixed apology and no badge |
| Chat.AgentChange | web/components/ChatInterface.tsx:81-83 | the agent callback is called exactly when it exists, the reply succeeded and its agent type is a non-empty text, and it receives that text |
| Chat.AlternatingHistory | web/components/ChatInterface.tsx:46-91 | in a conversation at rest the history sent alternates between "user" and "assistant", starting with "user" |
| Chat.ChatInterface.constructor | web/components/ChatInterface.tsx:29-31 | the panel starts with no messages, an empty text box and no request in flight |
| Chat.ChatInterface.OnInputChange | web/components/ChatInterface.tsx:234 | typing replaces the text box and changes nothing else |
| Chat.ChatInterface.BeginSend | web/components/ChatInterface.tsx:43-66 | the text is the explicit argument when it is non-empty and the text box otherwise; nothing changes when it is blank or a request is in flight; otherwise the user message is appended, the box cleared, the flag raised, and the request carries the text and the history of the conversation before the new message |
| Chat.ChatInterface.FinishSend | web/components/ChatInterface.tsx:68-94 | exactly one assistant message is appended, the answer or the apology; the loading flag is false afterwards; the agent callback is called as the reply allows |
| Chat.ChatInterface.SendMessage | web/components/ChatInterface.tsx:42-95 | an accepted send grows the conversation by exactly two messages, user then assistant, clears the box and ends with no request in flight; a refused send changes nothing; roles keep alternating |
| Chat.ChatInterface.HandleKeyPress | web/components/ChatInterface.tsx:97-102 | Enter without Shift sends the text box as a whole send does, and changes nothing when the box is blank or a request is in flight; Shift+Enter and every other key change nothing |

## Left out

- The OpenAI client and the completion call are not modelled. Their result is the `ProviderOutcome` input of `ChatRoute.Post`. The model name, temperature and token limit are carried as constants.
- Every `fetch` and `response.json()` call is replaced by an outcome parameter: `ChatOutcome` for `/api/chat` and `ServerOutcome` for `/api/validate-key`. The validation endpoint itself is not part of this model.
- JSX rendering is not modelled: animation, scrolling, `useEffect`, the show-key toggle and the disabled states of buttons and inputs.
- Message ids come from `Date.now()` and are opaque parameters.
- React's batching of state updates and stale closures are not modelled. Each handler runs against the current state, and nothing interleaves inside a `Begin…`/`Finish…` pair except what a caller chooses to do between the two calls.
- The agent definitions, the handoff wiring, `main.py` and `examples.py` are not part of this model. They configure an agent library and run console loops.
- Strings.Lower: only `A`..`Z` are lowercased. The classifier's keywords are lowercase ASCII or Hangul, which has no case, so the other Unicode case mappings of `toLowerCase` and the `/i` flag are not modelled.
- The regular expressions are modelled as lists of literal keywords with substring containment. That is what each pattern is: an alternation of literals with no anchors.
- ChatRoute.Prepare: a body that is not JSON, or is `null`, is `Unparsable` and gets the 500 answer. Any other JSON value that is not an object (a number, a text, a boolean, a list) destructures to an absent message and is `Fields(Missing, Omitted)`, which gets the 400 answer. History entries are taken to be objects with text `role` and `content` fields.
- The `console.error` logging in the route's catch block and in the chat panel's catch block is not modelled. It writes to the console and changes no state.
- Chat.ReplyFor: `data.response` is taken to be a text. A reply without a `response` field is not modelled. `data.error` and `data.agentType` are optional texts whose truthiness is "present and non-empty".
- ApiKey.ServerDecision: `data.valid` is taken to be a boolean and `data.error` an optional text; other JSON values are not modelled.
- No streaming chat variant and no authentication header exist in the route's code, so none is modelled. The route answers with a single buffered JSON body.
