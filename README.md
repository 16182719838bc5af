# SelfQA question/answer generator — a Dafny model

This project models the `SelfQA` generator of Second-Me
(`lpm_kernel/L2/data_pipeline/data_prep/selfqa/selfqa_generator.py`). A
`SelfQA` session holds a user's name, introduction, biography and preferred
language, plus a chat-completion client, if one is configured. It builds a
fixed catalog of identity questions. It sends each question to the model
together with a system prompt built from the identity. It collects the
answered questions as `{"user": question, "assistant": answer}` pairs and
silently drops every failed call.

Modules:

- `Wrappers` (`wrappers.dfy`): `Option`, for Python's value-or-`None`.
- `Questions` (`questions.dfy`): `is_english` and the question catalog of
  `_get_question_list`, as pure functions with lemmas.
- `Completion` (`completion.dfy`): draining a batch of futures in completion
  order. The order in which `concurrent.futures.as_completed` hands futures
  back is a parameter `order`, a permutation of the submission indices
  (`multiset(order) == multiset(Range(n))`). `Drained` is the list the drain
  loop accumulates. `Successes` is the reference list: the non-`None`
  results in submission order. The lemmas show that the two agree up to
  order for every permutation.
- `SelfQaGenerator` (`selfqa_generator.dfy`): the class `SelfQA`, whose
  constructor, request construction, error swallowing and drain loop follow
  `__init__`, `process_question`, `get_openai_response` and `generate_qa`.

External collaborators are parameters:

- The configuration lookup `UserLLMConfigService().get_available_llm()` is
  the constructor argument `availableLlm: Option<LlmConfig>`.
- `openai.OpenAI(api_key=..., base_url=...)` is the argument `connect`.
- `client.chat.completions.create(messages=..., model=...)` is a function
  from messages and a model name to `CallResult`. A `CallResult` is either
  `Returned(content)` or `Raised`, and the returned content may itself be
  `None`. A raised exception of any kind, including a missing first choice,
  is `Raised`.
- `system_prompt_en` and `system_prompt_cn`, after `str.format`, are the two
  functions of `SystemPrompts`. Each maps `(user_name,
  user_input_introduction, user_global_bio)` to the prompt text.
- The Unicode letter table that Python's `str.isalpha` consults for code
  points above U+007F is the parameter `unicodeLetter` of `IsEnglish`. The
  contract of `IsEnglish` shows that its result does not depend on it.

At line 76 Python joins two adjacent string literals
(`"Can you help me understand who I really am?" "Who are you?"`) into one
string. The English generic catalog therefore has 15 entries, and the
English question list has 22. The Chinese catalog asks the two questions
separately, so it has 16 + 7 = 23. `QuestionList` and `EnglishMergedEntry`
state both counts.

## Model

| member | source | states |
|---|---|---|
| `Questions.IsEnglish` | lpm_kernel/L2/data_pipeline/data_prep/selfqa/selfqa_generator.py:16-25 | `text.isascii() and text.isalpha()` holds iff the text is non-empty and every character is an ASCII letter A-Z or a-z. The empty string gives false, and the result is the same whatever Unicode letter table is used. |
| `Questions.InterpolatedContainsName` | lpm_kernel/L2/data_pipeline/data_prep/selfqa/selfqa_generator.py:87-93 | Filling a one-slot f-string with `user_name` produces a string that contains `user_name` as a substring. |
| `Questions.BindQuestions` | lpm_kernel/L2/data_pipeline/data_prep/selfqa/selfqa_generator.py:86-94 | A binding catalog has one question per template, and every question contains `user_name` verbatim. |
| `Questions.QuestionList` | lpm_kernel/L2/data_pipeline/data_prep/selfqa/selfqa_generator.py:68-128 | `_get_question_list` returns 22 questions (15 + 7) unless the language is exactly "Chinese", when it returns 23 (16 + 7). The generic catalog comes first and the binding catalog after it, each in its own order. |
| `Questions.QuestionListLanguageRule` | lpm_kernel/L2/data_pipeline/data_prep/selfqa/selfqa_generator.py:125-128 | Any language other than exactly "Chinese" gives the English generic list followed by the English binding list; "Chinese" gives the Chinese lists. |
| `Questions.BindingEntriesContainUserName` | lpm_kernel/L2/data_pipeline/data_prep/selfqa/selfqa_generator.py:86-123 | Every entry at or after the end of the generic catalog contains `user_name`, in both languages: the English binding list of lines 86-94 and the Chinese one of lines 115-123. |
| `Questions.GenericEntriesIgnoreUserName` | lpm_kernel/L2/data_pipeline/data_prep/selfqa/selfqa_generator.py:68-84 | The generic entries are the generic catalog's entries and are the same for any two user names. |
| `Questions.EnglishMergedEntry` | lpm_kernel/L2/data_pipeline/data_prep/selfqa/selfqa_generator.py:76 | English entry 7 is the joined string "Can you help me understand who I really am?Who are you?", and neither half is an entry of its own. |
| `Questions.ChineseSeparateEntries` | lpm_kernel/L2/data_pipeline/data_prep/selfqa/selfqa_generator.py:104-105 | The Chinese catalog asks the same two questions as entries 7 and 8. |
| `Completion.CompletionOrderInRange` | lpm_kernel/L2/data_pipeline/data_prep/selfqa/selfqa_generator.py:178-181 | A completion order has one entry per submitted future and names only submitted futures. |
| `Completion.Drained` | lpm_kernel/L2/data_pipeline/data_prep/selfqa/selfqa_generator.py:181-184 | The list the drain loop accumulates has at most one entry per drained future. |
| `Completion.SuccessesLength` | lpm_kernel/L2/data_pipeline/data_prep/selfqa/selfqa_generator.py:182-184 | Filtering out `None` keeps at most all results, and keeps all of them iff no result is `None`. |
| `Completion.DrainedFromFutures` | lpm_kernel/L2/data_pipeline/data_prep/selfqa/selfqa_generator.py:182-184 | Every accumulated result is the non-`None` result of some future. |
| `Completion.DrainedAllFailed` | lpm_kernel/L2/data_pipeline/data_prep/selfqa/selfqa_generator.py:182-184 | When every future's result is `None`, the loop accumulates the empty list. |
| `Completion.DrainedAllSucceeded` | lpm_kernel/L2/data_pipeline/data_prep/selfqa/selfqa_generator.py:182-184 | When no future's result is `None`, the loop accumulates one result per drained future. |
| `Completion.DrainedInSubmissionOrder` | lpm_kernel/L2/data_pipeline/data_prep/selfqa/selfqa_generator.py:178-184 | Draining the futures in submission order yields exactly the non-`None` results in submission order. |
| `Completion.DrainedMultiset` | lpm_kernel/L2/data_pipeline/data_prep/selfqa/selfqa_generator.py:181-184 | Two orders that drain the same futures the same number of times accumulate the same multiset of results. |
| `Completion.CompletionOrderIrrelevant` | lpm_kernel/L2/data_pipeline/data_prep/selfqa/selfqa_generator.py:176-186 | For every completion order, the accumulated results equal the non-`None` results in submission order, as multisets. |
| `Completion.DrainedMap` | lpm_kernel/L2/data_pipeline/data_prep/selfqa/selfqa_generator.py:181-184 | Projecting each result (onto its question, say) before or after draining gives the same list. |
| `Completion.SuccessesMap` | lpm_kernel/L2/data_pipeline/data_prep/selfqa/selfqa_generator.py:182-184 | Projecting commutes with filtering out `None`. |
| `Completion.ProjectedCompletionOrderIrrelevant` | lpm_kernel/L2/data_pipeline/data_prep/selfqa/selfqa_generator.py:176-186 | For every completion order, a projection of the accumulated results has the same multiset as the projection of the submission-order results. |
| `Completion.CompletionOrdersAgree` | lpm_kernel/L2/data_pipeline/data_prep/selfqa/selfqa_generator.py:176-186 | Any two completion orders of one batch (one worker or two, say) accumulate the same multiset of pairs. |
| `SelfQaGenerator.SelfQA.constructor` | lpm_kernel/L2/data_pipeline/data_prep/selfqa/selfqa_generator.py:29-59 | The identity fields are stored as given, and the language defaults to "en". Without an available configuration, client and model name are both `None`. Otherwise the model name is the configured chat model, and the client is built from the configured key and endpoint. |
| `SelfQaGenerator.SelfQA.SystemPrompt` | lpm_kernel/L2/data_pipeline/data_prep/selfqa/selfqa_generator.py:141-145 | The Chinese system prompt is used iff the language is exactly "Chinese", the same rule as for the questions. |
| `SelfQaGenerator.SelfQA.Request` | lpm_kernel/L2/data_pipeline/data_prep/selfqa/selfqa_generator.py:157-167 | A request is exactly two messages. The first is a system message holding the selected template formatted with the three identity fields. The second is a user message whose content is the question. |
| `SelfQaGenerator.SelfQA.GetOpenAIResponse` | lpm_kernel/L2/data_pipeline/data_prep/selfqa/selfqa_generator.py:189-206 | Never fails. With no client the answer is `None`. With a client, there is an answer iff the call returned without raising and its content is not null, and the answer is that content. |
| `SelfQaGenerator.SelfQA.ProcessQuestion` | lpm_kernel/L2/data_pipeline/data_prep/selfqa/selfqa_generator.py:148-173 | The result is `None` exactly when the response is `None`. Otherwise it is a pair whose `user` is the question and whose `assistant` is the response. |
| `SelfQaGenerator.SelfQA.Futures` | lpm_kernel/L2/data_pipeline/data_prep/selfqa/selfqa_generator.py:178 | One future per question. The future for question i resolves to `process_question` of that question. |
| `SelfQaGenerator.SelfQA.NoClientNoAnswer` | lpm_kernel/L2/data_pipeline/data_prep/selfqa/selfqa_generator.py:198-206 | With a client whose every call raises, the `except` path makes every question process to `None`; so does the client left as `None` at lines 50-51, whose call raises inside the same `try`. |
| `SelfQaGenerator.SelfQA.AnsweredQuestionsInOrder` | lpm_kernel/L2/data_pipeline/data_prep/selfqa/selfqa_generator.py:170-184 | The questions of the successful results, in submission order, are exactly the questions that got an answer. |
| `SelfQaGenerator.SelfQA.AllAnswered` | lpm_kernel/L2/data_pipeline/data_prep/selfqa/selfqa_generator.py:170-184 | When every question gets an answer, the answered questions are the whole question list. |
| `SelfQaGenerator.SelfQA.DrainedPairIsAnswer` | lpm_kernel/L2/data_pipeline/data_prep/selfqa/selfqa_generator.py:168-184 | Every collected pair asks a question of the list, and its `assistant` is the model's response to that question's request. |
| `SelfQaGenerator.SelfQA.DrainedQuestions` | lpm_kernel/L2/data_pipeline/data_prep/selfqa/selfqa_generator.py:176-186 | For every completion order, the multiset of collected `user` fields equals the multiset of questions whose response succeeded. |
| `SelfQaGenerator.SelfQA.NoClientNothingDrained` | lpm_kernel/L2/data_pipeline/data_prep/selfqa/selfqa_generator.py:50-51 | With no client, the collected list is empty. |
| `SelfQaGenerator.SelfQA.EveryQuestionDrained` | lpm_kernel/L2/data_pipeline/data_prep/selfqa/selfqa_generator.py:176-186 | When every call succeeds, one pair comes back per question, and the multiset of `user` fields is the question list's. |
| `SelfQaGenerator.SelfQA.DrainedBatch` | lpm_kernel/L2/data_pipeline/data_prep/selfqa/selfqa_generator.py:176-186 | Every drained batch satisfies `IsBatchResult`. It has at most one pair per question, and each pair asks a listed question with the model's answer to it. The pairs ask exactly the answered questions, as multisets. There are none without a client. There is one per question exactly when every call succeeds, and then each question comes back once. |
| `SelfQaGenerator.SelfQA.FullBatchAllAnswered` | lpm_kernel/L2/data_pipeline/data_prep/selfqa/selfqa_generator.py:176-186 | A result with one pair per question, whose questions are the answered ones as a multiset, can only come from a batch in which every call succeeded. |
| `SelfQaGenerator.SelfQA.EchoClientAnswers` | lpm_kernel/L2/data_pipeline/data_prep/selfqa/selfqa_generator.py:148-186 | With a client that answers "Answer to: " followed by the user message, one pair comes back per question, the multiset of their questions is the question list's, and each pair carries that answer. |
| `SelfQaGenerator.SelfQA.EchoClientBatch` | lpm_kernel/L2/data_pipeline/data_prep/selfqa/selfqa_generator.py:131-186 | Take an English session with that client. Every completion order gives 22 pairs whose questions are the catalog's, each exactly once as a multiset, and each with that answer to its own question. |
| `SelfQaGenerator.SelfQA.DrainAsCompleted` | lpm_kernel/L2/data_pipeline/data_prep/selfqa/selfqa_generator.py:176-186 | The drain loop accumulates exactly `Drained` of the futures in the given order, and the result satisfies `IsBatchResult`: at most one pair per question, each a listed question with its own answer, the multiset of answered questions, none without a client, and one pair per question exactly when every call succeeds. |
| `SelfQaGenerator.SelfQA.GenerateQa` | lpm_kernel/L2/data_pipeline/data_prep/selfqa/selfqa_generator.py:131-186 | Builds the question list of `_get_question_list`, returned as a ghost result. The returned pairs are exactly what draining its futures in the given order collects, and they satisfy `IsBatchResult` for that list. |

## Left out

- The thread pool with `max_workers=2`: the model is sequential. The only
  trace of concurrency is the arbitrary completion order `order`. The bound
  on in-flight requests is not modelled. The worker threads only run
  `process_question`; `q_a_list.append` runs only in the calling thread's
  `as_completed` loop, so that list has a single writer, as in the
  sequential drain loop of the model.
- The `tqdm` progress bar: it only displays progress.
- `logging.error(traceback.format_exc())` on a failed call: logging only.
- The text of `system_prompt_en` and `system_prompt_cn`, and `str.format`:
  the prompt module is not part of this model, so the formatted prompt is
  an arbitrary function of the three identity fields.
- `SelfQaGenerator.SelfQA.Request`: formatting is treated as total. In the
  source, `system_prompt.format(...)` runs outside the `try` of
  `get_openai_response`; an error there would re-raise through
  `future.result()` and abort `generate_qa` instead of being dropped. The
  model does not capture that path.
- `SelfQaGenerator.SelfQA.GetOpenAIResponse`: the client is a function of
  the request, so two identical requests always get the same outcome. A live
  endpoint promises no such thing; this only matters for a question list
  with repeated questions, which the drain lemmas allow.
- How `UserLLMConfigService` finds a configuration, and how the OpenAI
  client authenticates and talks to its endpoint: these are I/O and foreign
  libraries, so they are parameters.
- The model name is assumed to be present whenever the client is. The
  constructor establishes this (`Valid()`), and the functions that make the
  call require it.
- `lpm_kernel/api/__init__.py` (Flask blueprint registration, app flags,
  log-file truncation): web wiring and file I/O with no logic of this core.
- `SelfQaGenerator.SelfQA.GenerateQa`: the futures' results are computed as
  pure values when `generate_qa` runs. The timing of each call relative to the
  drain is not modelled.
