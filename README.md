# Campaign-idea endpoint of the Vocalis AI backend, in Dafny

The backend relays a clinic's name and specialty to a generative-language service and turns the generated text into a list of campaign ideas. This project models the one endpoint with behaviour worth stating, `POST /api/generate-campaign-ideas`, in both of its revisions:

- `backend/app/main.py` (module `BackendApp`)
- `main.py` (module `RootApp`), together with that revision's global HTTPException handler

Each revision's endpoint is a pure function of four inputs:
- the `GEMINI_API_KEY` value, as an `Option<string>`
- the validated request
- the system prompt
- `call: Outbound -> Upstream`, the outcome of the single POST for the request actually built

Because the service's answer is a function of what is sent, "no call is made" can be stated directly: without a key, the result does not depend on `call`.

Modules:

- `Wrappers`: `Option`.
- `PyValues`: decoded JSON values and the Python operations the reply handling uses. These are `dict.get(key, default)`, `[0]` and truthiness, plus the builtin exceptions they raise: AttributeError, IndexError, KeyError, TypeError, and JSONDecodeError from `response.json()`.
- `IdeaText`: the idea list `[line.strip() for line in text.split('\n') if line.strip()]`. It covers `str.strip()` (with Python's `str.isspace()` character set), `split('\n')` and `"\n".join`, with their round trips, order preservation and idempotence.
- `Campaign`: the parts both revisions share:
  - the request and its default specialty
  - the user query
  - the outbound request
  - the upstream outcome
  - the chain of `get` calls that digs out the first candidate's text
  - the "no content" check
  - the shape of an HTTPException's detail
- `BackendApp` and `RootApp`: the two endpoints and the error classification. `RootApp` also models the envelope handler.

Behaviour that the model keeps as the code has it:

- The "no content" HTTPException is raised inside the `try`. `except Exception` therefore catches it and re-raises it as a 500 whose detail wraps it. The status stays 500, but the client sees the wrapped detail.
- A missing `candidates`, `content`, `parts` or `text` key falls back to the defaults, which gives the empty text and hence that wrapped 500. An empty `candidates` or `parts` list raises IndexError instead: a 500 with a different detail.
- A generated text that is truthy but not a string fails on `.split`: a 500.
- A reply body that is not JSON fails on `response.json()`: a 500.
- `httpx`'s `raise_for_status()` rejects every non-2xx status, so each of them is mirrored.

Where the code and the design description differ, the model follows the code:
- `clinic_name` is any string. Nothing requires it to be non-empty.
- `clinic_specialty` is `Optional[str]`, so an explicit `null` is accepted. It is rendered as `None` in the query; only an omitted field gets the default.
- The default specialty is `"odontología general"` in both revisions.
- The backend revision reports the raw body text of an upstream error. `main.py` reports `error.message` when the body has one, and the body text otherwise.

## Model

| member | source | states |
|---|---|---|
| `IdeaText.Strip` | backend/app/main.py:138 | `line.strip()` leaves no whitespace at either end and is never longer than the line |
| `IdeaText.TrimStart` | backend/app/main.py:138 | the left half of `strip()`: what remains is not empty only if it starts with a non-whitespace character |
| `IdeaText.TrimEnd` | backend/app/main.py:138 | the right half of `strip()`: what remains is a prefix of the input ending in a non-whitespace character |
| `IdeaText.TrimStartSlice` | backend/app/main.py:138 | the left half of `strip()` removes a prefix made only of whitespace |
| `IdeaText.TrimEndSlice` | backend/app/main.py:138 | the right half of `strip()` removes a suffix made only of whitespace |
| `IdeaText.StripSlice` | backend/app/main.py:138 | `strip()` returns a slice of the line with only whitespace before and after it |
| `IdeaText.StripEmpty` | backend/app/main.py:140 | `if line.strip()` rejects a line exactly when the line is all whitespace |
| `IdeaText.StripStripped` | backend/app/main.py:138 | a line without whitespace at its ends strips to itself |
| `IdeaText.StripIdempotent` | backend/app/main.py:138 | stripping twice is stripping once |
| `IdeaText.StripKeepsNewlineOut` | backend/app/main.py:138 | stripping never brings in a newline |
| `IdeaText.Split` | backend/app/main.py:139 | `split('\n')` yields at least one piece and no piece holds a newline |
| `IdeaText.SplitNoNewline` | backend/app/main.py:139 | text without a newline splits into itself alone |
| `IdeaText.SplitAround` | backend/app/main.py:139 | splitting `a + "\n" + b` yields the pieces of `a` followed by those of `b` |
| `IdeaText.JoinSplit` | backend/app/main.py:139 | `"\n".join(text.split('\n')) == text` |
| `IdeaText.SplitJoin` | backend/app/main.py:139 | splitting a join of newline-free pieces returns the pieces |
| `IdeaText.Keep` | backend/app/main.py:137-141 | each kept line is non-empty and stripped, and at most as many come out as go in |
| `IdeaText.KeepNoNewlines` | backend/app/main.py:137-141 | kept lines of newline-free lines are newline-free |
| `IdeaText.Ideas` | backend/app/main.py:137-141 | every idea is non-empty, stripped and free of newlines; there are no more ideas than lines |
| `IdeaText.KeepAppend` | backend/app/main.py:137-141 | filtering distributes over concatenation (lines keep their order) |
| `IdeaText.IdeasAround` | backend/app/main.py:137-141 | the ideas of `a + "\n" + b` are the ideas of `a` followed by those of `b` |
| `IdeaText.KeepFixed` | backend/app/main.py:137-141 | lines that are already non-empty and stripped all survive unchanged |
| `IdeaText.IdeasEmpty` | backend/app/main.py:137-141 | empty text yields no idea |
| `IdeaText.IdeasIdempotent` | backend/app/main.py:137-141 | re-splitting `"\n".join(ideas)` returns the same ideas |
| `IdeaText.KeepMembers` | backend/app/main.py:137-141 | a string is kept exactly when it is non-empty and some line strips to it |
| `IdeaText.IdeasMembers` | backend/app/main.py:137-141 | a string is an idea exactly when it is non-empty and some `'\n'`-line of the text strips to it |
| `IdeaText.StripAll` | backend/app/main.py:138-139 | the stripped lines, one per line, in order |
| `IdeaText.KeepSubsequence` | backend/app/main.py:137-141 | the kept lines are an in-order subsequence of the stripped lines |
| `IdeaText.IdeasSubsequence` | main.py:101 | the ideas are an in-order subsequence of the stripped `'\n'`-lines of the text |
| `IdeaText.KeepMultiset` | backend/app/main.py:137-141 | the kept lines are the stripped lines with exactly the empty ones removed: each non-empty stripped line is kept as often as it occurs |
| `IdeaText.IdeasMultiset` | main.py:101 | each non-empty stripped `'\n'`-line of the text is an idea as often as it occurs, and nothing else is; with `IdeasSubsequence` this fixes the list |
| `IdeaText.IdeaLine` | main.py:101 | a single line that is already an idea yields exactly itself |
| `IdeaText.BlankLine` | main.py:101 | a single whitespace-only line yields nothing |
| `IdeaText.IdeaLineFirst` | main.py:101 | a leading idea line becomes the first idea |
| `IdeaText.BlankLineFirst` | main.py:101 | a leading whitespace-only line contributes nothing |
| `IdeaText.BlankLinesDropped` | main.py:101 | four idea lines around an empty line and a whitespace-only line give exactly those four ideas, in order |
| `Campaign.ParseRequest` | backend/app/main.py:33-35 | the name is kept; an omitted specialty becomes `"odontología general"`, an explicit null stays None, a given one is kept |
| `Campaign.UserQuery` | backend/app/main.py:88-89 | the query holds the clinic's name and its rendered specialty verbatim, at fixed positions |
| `Campaign.ApiUrl` | backend/app/main.py:92 | the URL starts with the service base and model and ends with the API key |
| `Campaign.Render` | backend/app/main.py:88-89 | definition, no contract: an f-string renders `None` as `None` and a string as itself |
| `Campaign.BuildRequest` | backend/app/main.py:92-110 | the request goes to the model's URL carrying the key, its query holds the clinic's name verbatim, and it carries the system prompt and the fixed generation config |
| `Campaign.QueryCarriesRequest` | backend/app/main.py:88-89 | the query sent holds the clinic's name verbatim and, at a fixed place, the default specialty when it was omitted, the given one when given, `None` for an explicit null |
| `Campaign.HasKey` | backend/app/main.py:73 | definition, no contract: `not gemini_api_key` holds for an unset and for an empty variable |
| `Campaign.IsSuccess` | backend/app/main.py:122 | definition, no contract: `raise_for_status()` lets exactly the 2xx statuses through |
| `PyValues.Truthy` | backend/app/main.py:130 | definition, no contract: Python's truth value of a decoded JSON value |
| `PyValues.FalsyValues` | backend/app/main.py:130 | `not v` holds exactly for `None`, `False`, zero, `""`, `[]` and `{}` |
| `PyValues.Get` | backend/app/main.py:127-128 | definition, no contract: `v.get(key, default)` gives the entry or the default on a dict and raises AttributeError on anything else |
| `PyValues.First` | backend/app/main.py:127-128 | definition, no contract: `v[0]` on a list, a string, a dict, or another value, with the exception Python raises for each |
| `IdeaText.IsWhitespace` | backend/app/main.py:138 | definition, no contract: the 29 code points for which `str.isspace()` holds, which `strip()` removes |
| `Campaign.CandidateText` | backend/app/main.py:127-128 | a body that is not an object raises AttributeError; missing `candidates` reads as `""`; an empty `candidates` list raises IndexError |
| `Campaign.ReplyText` | backend/app/main.py:127-128 | a reply yields the text of its first candidate's first part, whatever other fields the body, candidate, content and part hold and whatever candidates and parts follow |
| `Campaign.MissingContentIsEmpty` | backend/app/main.py:127-128 | a first candidate without `content`, or with content without `parts`, reads as `""`, whatever else the body holds |
| `Campaign.MissingTextIsEmpty` | backend/app/main.py:128 | a first part without `text` reads as `""`, whatever else the reply holds |
| `Campaign.EmptyPartsRaise` | backend/app/main.py:128 | an empty `parts` list in the first candidate raises IndexError, whatever else the reply holds |
| `Campaign.ReadIdeas` | backend/app/main.py:124-141 | a body that is not JSON raises JSONDecodeError; an exception while digging out the text propagates; falsy text raises the "no content" HTTPException; ideas come only from a string text and are its ideas |
| `Campaign.IdeasOf` | backend/app/main.py:130-141 | ideas come out exactly for a non-empty string, and they are its ideas; falsy text raises the 500 "no content" HTTPException |
| `Campaign.ReadIdeasSucceeds` | backend/app/main.py:124-141 | after a 2xx, reading ideas succeeds exactly when the first text part is a non-empty string, and yields that string's ideas |
| `BackendApp.GenerateCampaignIdeas` | backend/app/main.py:58-164 | no key gives the 500 configuration error; success echoes `clinic_name`, sets `success` and the message, and carries only valid ideas; no failure has a 2xx status or an empty detail |
| `BackendApp.KeyMissingMakesNoCall` | backend/app/main.py:70-77 | without a key the result is the same whatever the upstream would answer |
| `BackendApp.StatusMirrored` | backend/app/main.py:150-154 | a non-2xx reply gives that status with the body text after the prefix |
| `BackendApp.TransportAndOtherErrors` | backend/app/main.py:155-164 | a request error gives 503 and any other client exception 500 |
| `BackendApp.NoTextIsInternalError` | backend/app/main.py:127-164 | a 2xx without usable text is a 500 with the internal-error prefix; missing or empty text wraps the "no content" HTTPException |
| `BackendApp.SuccessExactly` | backend/app/main.py:122-148 | success holds exactly when there is a key and a 2xx reply with a non-empty first text part; the response is then that text's ideas and the unchanged name |
| `BackendApp.DocumentedReply` | backend/app/main.py:124-148 | a 2xx reply whose first candidate's first part is a non-empty text, whatever else it holds, succeeds with that text's ideas |
| `RootApp.UpstreamErrorDetail` | main.py:105-107 | for every error body: `error.message` when it is present (formatted as a value when not a string), the body text when `error` or `message` is missing; no detail (the exception escapes) when the body is not JSON, not an object, or its `error` is not an object |
| `RootApp.ErrorMessageUsed` | main.py:106 | an error body reports its `error.message` whatever other keys sit beside `error` and beside `message` (`code`, `status`, `details`) |
| `RootApp.GenerateCampaignIdeas` | main.py:59-111 | no key gives the 500 configuration error; success echoes `clinic_name` and carries only valid ideas; no failure has a 2xx status or an empty detail; an exception escapes only from a non-2xx reply |
| `RootApp.Serve` | main.py:114-119 | what the client receives: a success echoes the name; every error is the envelope with `success` false, a non-2xx status and a non-empty message; without a key it is the 500 configuration envelope |
| `RootApp.HttpExceptionHandler` | main.py:114-119 | the envelope has `success` false, the exception's status, and its detail as the message |
| `RootApp.ErrorsAreEnveloped` | main.py:114-119 | every failure reaches the client as that envelope, never with a 2xx status, and with a non-empty message |
| `RootApp.KeyMissingMakesNoCall` | main.py:64-69 | without a key the result does not depend on the upstream, and the client gets a 500 envelope with the configuration message |
| `RootApp.StatusMirrored` | main.py:105-107 | a non-2xx reply keeps its status; it escapes exactly when reading its body raises; the message is `error.message` whenever the body's `error` has a string `message`, the body text when it has no `error` |
| `RootApp.TransportAndOtherErrors` | main.py:108-111 | a request error gives 503 and any other client exception 500 |
| `RootApp.NoTextIsInternalError` | main.py:95-111 | a 2xx without usable text is a 500 with the internal-error prefix; missing or empty text wraps the "no content" HTTPException |
| `RootApp.SuccessExactly` | main.py:92-103 | success holds exactly when there is a key and a 2xx reply with a non-empty first text part; the response then holds exactly that text's ideas and the unchanged name |

## Left out

- The HTTP call itself is not modelled: the `httpx.AsyncClient`, its 30-second timeout, `async`/`await` and the request headers. The call is the input `call`, and a timeout is one of its `RequestError` outcomes.
- FastAPI routing, the CORS allow-list and pydantic's validation machinery are framework plumbing. A body without `clinic_name` is rejected by the framework before the endpoint runs.
- `load_dotenv` and `os.getenv` read the environment. The key is the input `key`.
- The system prompt is an opaque input `systemPrompt`: `SYSTEM_PROMPT` comes from the `prompts` module, which is not part of this model, and the backend revision's inline prompt text is not reproduced.
- The `generationConfig` values are carried as the constant `Campaign.Generation` and nothing is computed from them.
- The texts Python and httpx give exceptions (`str(e)`) are library-defined. They stay symbolic in the detail: an `Exc` value, or the JSON value a message was formatted from. The text of a request error or other client exception is part of the `Upstream` input.
- `Upstream.Response` carries the body both as text and as its decoded JSON. The model does not require the two to agree.
- When reading the upstream error body itself raises (main.py:106), the exception escapes the endpoint and the outcome is only `Escaped`. This happens when the body is not JSON or is not an object, or when `error` is not an object. What the framework then sends is not modelled.
- The exception handler at backend/app/main.py:166-173 returns a plain dict rather than a response object. What a client receives from it is up to the framework, so it is not modelled.
- The `/` and `/health` endpoints return constant dictionaries.
- test_server.py only checks imports and the presence of a `.env` file. It holds no endpoint logic.
- JSON numbers are reals. Nothing distinguishes Python ints from floats, because only their truthiness matters here.
