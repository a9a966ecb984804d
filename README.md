# Bedrock model comparison helpers — Dafny model

This project models the helper module `utils.py` of a small tool that
compares foundation models hosted on Amazon Bedrock. The module does three
things, and the model covers each:

- **Building a Converse request** (`converse`, first half). The function fills
  an `inference_config` dictionary (temperature, max tokens) and a
  `converse_params` dictionary (model id, one user message holding the prompt,
  one system block, the inference configuration). It then adds
  `additionalModelRequestFields = {reasoning_effort}` for OpenAI/GPT models
  when an effort is given, and `thinking = {type: "enabled", budget}` inside
  the inference configuration for Claude models when a budget is given. The
  `thinking` entry is written after the configuration was placed into the
  parameters. It still reaches the request because both dictionaries share
  the same configuration object. The model keeps that shape: two classes,
  `InferenceConfigDict` and `ConverseParamsDict`, where the second holds a
  reference to the first. `BuildRequest` updates them in the source's order
  and is proved to yield the value described by the pure function
  `RequestFor`.
- **Picking the answer text** (`converse`, second half). With more than one
  content block the first block that has a `text` key wins, so reasoning-trace
  blocks are skipped. Otherwise `content[0]['text']` is returned. An empty
  list (Python `IndexError`) and a block without text (Python `KeyError`)
  become the errors `NoContent` and `MissingText`. `ExtractText` keeps the
  source's loop and early return. It is proved equal to `ExpectedText`,
  which is "the first text in the list". So the single-block branch and the
  multi-block branch agree.
- **Monthly cost estimate** (`calculate_monthly_cost`). This is thirty days of
  requests, with input and output tokens priced per 1000. It is modelled over
  mathematical reals.

Python's `str.lower()` and the substring test `sub in s` are modelled in
module `Ascii` as ASCII lower-casing and a left-to-right search. The search
is proved equivalent to "occurs at some position". Searching the lower-cased
id is proved to be a case-insensitive search of the original id.

The network call `client.converse(**converse_params)` is replaced by
a parameter `backend`, a function from the request to the returned content
list. `Converse` composes the three steps. A parallel batch dispatcher, a
result store and a failure taxonomy are not implemented in `utils.py`, and
they are not part of this model.

Files: `wrappers.dfy` (Option, Result), `ascii.dfy` (module `Ascii`),
`utils.dfy` (module `Utils`, one module for the one source file).

## Model

| member | source | states |
|---|---|---|
| `Utils.InferenceConfigDict.constructor` | utils.py:44-47 | the new configuration holds the given temperature and max tokens and no `thinking` entry |
| `Utils.ConverseParamsDict.constructor` | utils.py:50-60 | the new parameters hold the model id, messages and system blocks, a reference to the given configuration object, and no additional fields |
| `Utils.BuildRequest` | utils.py:43-73 | building the dictionaries in the source's order, with the configuration shared by reference and `thinking` added after it was placed into the parameters, yields exactly `RequestFor(...)`, thinking included |
| `Utils.RequestBaseFields` | utils.py:44-60 | every request has `modelId` equal to the id, exactly one message with role `user` and content `[{text: prompt}]`, `system == [{text: system_prompt}]`, and the given temperature and max tokens |
| `Utils.ReasoningFieldIff` | utils.py:62-66 | `additionalModelRequestFields` is present iff "openai" or "gpt" occurs case-insensitively in the id and the effort is neither None nor empty; when present it is `{reasoning_effort: effort}` |
| `Utils.ThinkingFieldIff` | utils.py:68-73 | the configuration holds `thinking` iff "claude" occurs case-insensitively in the id and a budget is given (0 included); when present it is `{type: "enabled", budget: budget}` |
| `Utils.RequestCaseInsensitive` | utils.py:63-73 | changing only the letter case of the model id changes the `modelId` entry and nothing else in the request |
| `Utils.FirstTextAt` | utils.py:83-85 | when block `i` is the first with text, the first text found is block `i`'s text |
| `Utils.FirstTextNone` | utils.py:83-85 | when no block has text, no first text is found |
| `Utils.FirstTextNonNone` | utils.py:83-85 | when some block has text, a first text is found |
| `Utils.FirstTextSome` | utils.py:83-85 | a first text that is found is the text of some block, and every block before it has no text |
| `Utils.ExtractText` | utils.py:78-88 | the source's extraction (loop with early return for several blocks, else `content[0]['text']`) returns exactly `ExpectedText(content)`: the first text, `NoContent` on an empty list, `MissingText` when no block has text |
| `Utils.ExpectedTextCases` | utils.py:81-88 | the result is `NoContent` iff the list is empty; `MissingText` iff the list is non-empty and no block has text; it succeeds iff some block has text, and then returns the text of the first such block |
| `Utils.SingleBlock` | utils.py:87-88 | a one-block list yields that block's text, or `MissingText` when it has none |
| `Utils.FirstTextSkipsTrace` | utils.py:80-85 | blocks without text in front of a list do not change the first text found |
| `Utils.TraceSkipped` | utils.py:80-85 | reasoning-trace blocks in front of a non-empty answer list do not change the extracted answer |
| `Utils.Converse` | utils.py:17-88 | the answer is the extraction applied to what the backend returns for exactly the request `RequestFor(...)` |
| `Utils.MonthlyCostFactors` | utils.py:99-106 | the monthly cost equals `30 * requests_per_day` times the cost of one average request, `(in_tokens * in_price + out_tokens * out_price) / 1000` |
| `Utils.MonthlyCostZero` | utils.py:99-106 | zero requests per day cost 0 |
| `Utils.MonthlyCostNonNegative` | utils.py:99-106 | non-negative usage and prices give a non-negative cost |
| `Utils.MonthlyCostLinear` | utils.py:99-106 | the cost is additive and homogeneous in the requests per day |
| `Ascii.OccursAtContains` | utils.py:63 | an occurrence of the word at any position is found by the substring search |
| `Ascii.ContainsOccurs` | utils.py:63 | whatever the substring search finds is an occurrence at some position |
| `Ascii.ContainsIff` | utils.py:63 | the substring search succeeds iff the word occurs at some position |
| `Ascii.ContainsLowerIff` | utils.py:63 | searching the lower-cased id succeeds iff the word matches the id at some position after lower-casing each letter |
| `Ascii.CaseVariantLower` | utils.py:63 | two ids that differ only in letter case have the same lower-cased form |

## Left out

- `get_bedrock_client` (utils.py:9-14): it only constructs a boto3 client and has no logic of its own.
- The call `client.converse(**converse_params)` (utils.py:75): it is network I/O. `Converse` takes a `backend` function instead, so the service's own errors (access denial, throttling, timeouts) are not modelled.
- The lookup `response['output']['message']['content']` (utils.py:78): the model takes the content list itself, so a response lacking these keys is not modelled.
- Content blocks are dictionaries in the source. The model keeps only the optional `text` key, which is the only key the code reads.
- `Ascii.Lower`: it lower-cases ASCII letters only. Python's `str.lower()` also lower-cases non-ASCII letters. The substrings tested for ("openai", "gpt", "claude") are ASCII, but a non-ASCII upper-case letter in an id is not folded.
- `Utils.MonthlyCost` and `temperature`: mathematical reals are used. IEEE double rounding is not modelled.
- Python's dynamic typing: a `reasoning_effort` that is not a string, or a non-integer budget, is not modelled. The effort is an optional string and the budget an optional integer.
- A parallel batch dispatcher, worker pool, per-call timeouts, failure taxonomy, result store and report rendering: none of these is in the code of `utils.py`.
