/**
 * `SelfQA`: sends every catalog question, with a system prompt built from the
 * user's identity, to a chat-completion endpoint and collects the answered
 * questions as question/answer pairs. Failed calls are dropped, never raised.
 */
module SelfQaGenerator {
  import opened Wrappers
  import opened Completion
  import opened Questions

  datatype Role = System | User

  /** One chat message: `{"role": ..., "content": ...}`. */
  datatype Message = Message(role: Role, content: string)

  /** One generated pair: `{"user": q, "assistant": a}`. */
  datatype QaPair = QaPair(user: string, assistant: string)

  /**
   * What one `chat.completions.create` call does: it returns a response whose
   * first choice carries a content (which the API may leave null), or it raises.
   */
  datatype CallResult = Returned(content: Option<string>) | Raised

  /** `client.chat.completions.create(messages=..., model=...)` of a constructed OpenAI client. */
  type ChatCompletions = (seq<Message>, string) -> CallResult

  /** The configuration `UserLLMConfigService.get_available_llm()` yields. */
  datatype LlmConfig = LlmConfig(chatModelName: string, chatApiKey: string, chatEndpoint: string)

  /** `openai.OpenAI(api_key=..., base_url=...)`. */
  type Connect = (string, string) -> ChatCompletions

  /**
   * A system-prompt template after `str.format` with the slots `user_name`,
   * `user_input_introduction` and `user_global_bio`.
   */
  type PromptTemplate = (string, string, string) -> string

  /** `system_prompt_en` and `system_prompt_cn` of the prompt module. */
  datatype SystemPrompts = SystemPrompts(en: PromptTemplate, cn: PromptTemplate)

  function QuestionOf(p: QaPair): string
  {
    p.user
  }

  /** The `user` fields of a list of pairs, in order. */
  function Users(pairs: seq<QaPair>): seq<string>
  {
    MapSeq(QuestionOf, pairs)
  }

  lemma UsersAppend(s: seq<QaPair>, c: seq<QaPair>)
    ensures Users(s + c) == Users(s) + Users(c)
  {
    assert MapSeq(QuestionOf, s + c)[..|s|] == MapSeq(QuestionOf, s);
  }

  class SelfQA {
    const userName: string
    const userInputIntroduction: string
    const userGlobalBio: string
    const preferredLanguage: string
    const client: Option<ChatCompletions>
    const modelName: Option<string>

    /** A client exists exactly when a model name was configured. */
    ghost predicate Valid()
    {
      client.Some? <==> modelName.Some?
    }

    /**
     * `__init__`. `availableLlm` is what the configuration service found, and
     * `connect` builds the client from its key and endpoint.
     */
    constructor (userName: string, userInputIntroduction: string, userGlobalBio: string,
                 availableLlm: Option<LlmConfig>, connect: Connect, preferredLanguage: string := "en")
      ensures Valid()
      ensures this.userName == userName && this.userInputIntroduction == userInputIntroduction
      ensures this.userGlobalBio == userGlobalBio && this.preferredLanguage == preferredLanguage
      ensures availableLlm.None? ==> client.None? && modelName.None?
      ensures availableLlm.Some? ==>
        modelName == Some(availableLlm.value.chatModelName) &&
        client == Some(connect(availableLlm.value.chatApiKey, availableLlm.value.chatEndpoint))
    {
      this.userName := userName;
      this.userInputIntroduction := userInputIntroduction;
      this.userGlobalBio := userGlobalBio;
      this.preferredLanguage := preferredLanguage;
      if availableLlm.None? {
        client := None;
        modelName := None;
      } else {
        modelName := Some(availableLlm.value.chatModelName);
        client := Some(connect(availableLlm.value.chatApiKey, availableLlm.value.chatEndpoint));
      }
    }

    /** The template `generate_qa` picks: English unless the tag is exactly "Chinese". */
    function SystemPrompt(prompts: SystemPrompts): (t: PromptTemplate)
      ensures t == (if preferredLanguage == "Chinese" then prompts.cn else prompts.en)
    {
      if !UsesChinese(preferredLanguage) then prompts.en else prompts.cn
    }

    /** The two messages `process_question` sends for question `q`. */
    function Request(prompts: SystemPrompts, q: string): (messages: seq<Message>)
      ensures |messages| == 2
      ensures messages[0].role == System && messages[1].role == User
      ensures messages[0].content == SystemPrompt(prompts)(userName, userInputIntroduction, userGlobalBio)
      ensures messages[1].content == q
    {
      [ Message(System, SystemPrompt(prompts)(userName, userInputIntroduction, userGlobalBio)),
        Message(User, q) ]
    }

    /**
     * `get_openai_response`: any exception, including the `AttributeError`
     * raised by `None.chat` when there is no client, becomes `None`.
     */
    function GetOpenAIResponse(messages: seq<Message>): (a: Option<string>)
      requires Valid()
      ensures client.None? ==> a.None?
      ensures client.Some? ==>
        (a.Some? <==> client.value(messages, modelName.value).Returned? && client.value(messages, modelName.value).content.Some?)
      ensures a.Some? ==> client.Some? && client.value(messages, modelName.value) == Returned(a)
    {
      var res := if client.None? then Raised else client.value(messages, modelName.value);
      match res
      case Raised => None
      case Returned(content) => content
    }

    /** `process_question`. */
    function ProcessQuestion(prompts: SystemPrompts, q: string): (r: Option<QaPair>)
      requires Valid()
      ensures r.None? <==> GetOpenAIResponse(Request(prompts, q)).None?
      ensures r.Some? ==> r.value.user == q && Some(r.value.assistant) == GetOpenAIResponse(Request(prompts, q))
    {
      var a := GetOpenAIResponse(Request(prompts, q));
      if a.None? then None else Some(QaPair(q, a.value))
    }

    /** The result of the future submitted for each question, by submission index. */
    function Futures(prompts: SystemPrompts, qList: seq<string>): (futures: seq<Option<QaPair>>)
      requires Valid()
      ensures |futures| == |qList|
      ensures forall i :: 0 <= i < |qList| ==> futures[i] == ProcessQuestion(prompts, qList[i])
    {
      seq(|qList|, i requires 0 <= i < |qList| => ProcessQuestion(prompts, qList[i]))
    }

    /** The questions whose request produced an answer, in submission order. */
    function AnsweredQuestions(prompts: SystemPrompts, qList: seq<string>): (r: seq<string>)
      requires Valid()
    {
      if qList == [] then []
      else
        var q := qList[|qList| - 1];
        AnsweredQuestions(prompts, qList[..|qList| - 1]) + (if ProcessQuestion(prompts, q).Some? then [q] else [])
    }

    /** With no client, or a client whose every call fails, no question is answered. */
    lemma NoClientNoAnswer(prompts: SystemPrompts, q: string)
      requires Valid()
      requires client.None? || forall messages, model :: client.value(messages, model) == Raised
      ensures ProcessQuestion(prompts, q).None?
    {
    }

    /** The questions of the successful results, in submission order, are the answered questions. */
    lemma {:induction false} AnsweredQuestionsInOrder(prompts: SystemPrompts, qList: seq<string>)
      requires Valid()
      ensures Users(Successes(Futures(prompts, qList))) == AnsweredQuestions(prompts, qList)
    {
      if qList != [] {
        var n := |qList|;
        var init, q := qList[..n - 1], qList[n - 1];
        var futures := Futures(prompts, qList);
        AnsweredQuestionsInOrder(prompts, init);
        FuturesPrefix(prompts, qList);
        var s := Successes(futures[..n - 1]);
        var c := Collected(futures[n - 1]);
        assert Successes(futures) == s + c;
        UsersAppend(s, c);
        assert Users(c) == if ProcessQuestion(prompts, q).Some? then [q] else [];
      }
    }

    lemma FuturesPrefix(prompts: SystemPrompts, qList: seq<string>)
      requires Valid() && qList != []
      ensures Futures(prompts, qList)[..|qList| - 1] == Futures(prompts, qList[..|qList| - 1])
    {
    }

    /** When every question is answered, AnsweredQuestions is the whole list. */
    lemma {:induction false} AllAnswered(prompts: SystemPrompts, qList: seq<string>)
      requires Valid()
      requires forall i :: 0 <= i < |qList| ==> ProcessQuestion(prompts, qList[i]).Some?
      ensures AnsweredQuestions(prompts, qList) == qList
    {
      if qList != [] {
        var n := |qList|;
        AllAnswered(prompts, qList[..n - 1]);
        assert qList == qList[..n - 1] + [qList[n - 1]];
      }
    }

    /** Every drained pair is an answered question of the batch with its own answer. */
    lemma DrainedPairIsAnswer(prompts: SystemPrompts, qList: seq<string>, order: seq<nat>, p: QaPair)
      requires Valid()
      requires InRange(order, |Futures(prompts, qList)|) && p in Drained(Futures(prompts, qList), order)
      ensures p.user in qList && GetOpenAIResponse(Request(prompts, p.user)) == Some(p.assistant)
    {
      var futures := Futures(prompts, qList);
      DrainedFromFutures(futures, order, p);
      var i :| 0 <= i < |futures| && futures[i] == Some(p);
      assert ProcessQuestion(prompts, qList[i]) == Some(p);
    }

    /**
     * Whatever the completion order, the drained pairs ask exactly the
     * answered questions, as many times as they were submitted.
     */
    lemma DrainedQuestions(prompts: SystemPrompts, qList: seq<string>, order: seq<nat>)
      requires Valid()
      requires IsCompletionOrder(order, |qList|)
      ensures InRange(order, |Futures(prompts, qList)|)
      ensures multiset(Users(Drained(Futures(prompts, qList), order))) == multiset(AnsweredQuestions(prompts, qList))
    {
      ProjectedCompletionOrderIrrelevant(QuestionOf, Futures(prompts, qList), order);
      AnsweredQuestionsInOrder(prompts, qList);
    }

    /** Without a client nothing is drained. */
    lemma NoClientNothingDrained(prompts: SystemPrompts, qList: seq<string>, order: seq<nat>)
      requires Valid() && client.None?
      requires InRange(order, |qList|)
      ensures InRange(order, |Futures(prompts, qList)|)
      ensures Drained(Futures(prompts, qList), order) == []
    {
      var futures := Futures(prompts, qList);
      forall i | 0 <= i < |qList| ensures futures[i].None? {
        NoClientNoAnswer(prompts, qList[i]);
      }
      DrainedAllFailed(futures, order);
    }

    /** When every question is answered, every question comes back once. */
    lemma EveryQuestionDrained(prompts: SystemPrompts, qList: seq<string>, order: seq<nat>)
      requires Valid()
      requires IsCompletionOrder(order, |qList|)
      requires forall i :: 0 <= i < |qList| ==> ProcessQuestion(prompts, qList[i]).Some?
      ensures InRange(order, |Futures(prompts, qList)|)
      ensures |Drained(Futures(prompts, qList), order)| == |qList|
      ensures multiset(Users(Drained(Futures(prompts, qList), order))) == multiset(qList)
    {
      CompletionOrderInRange(order, |qList|);
      DrainedAllSucceeded(Futures(prompts, qList), order);
      DrainedQuestions(prompts, qList, order);
      AllAnswered(prompts, qList);
    }

    /**
     * What `generate_qa` promises of the pairs it returns for the questions
     * `qList`: at most one per question; each asks a listed question and
     * carries the model's answer to it; together they ask exactly the answered
     * questions, as often as those were listed; none without a client; one per
     * question exactly when every call succeeds, and then every question once.
     */
    ghost predicate IsBatchResult(prompts: SystemPrompts, qList: seq<string>, qaList: seq<QaPair>)
      requires Valid()
    {
      && |qaList| <= |qList|
      && (forall p :: p in qaList ==> p.user in qList && GetOpenAIResponse(Request(prompts, p.user)) == Some(p.assistant))
      && multiset(Users(qaList)) == multiset(AnsweredQuestions(prompts, qList))
      && (client.None? ==> qaList == [])
      && ((forall i :: 0 <= i < |qList| ==> ProcessQuestion(prompts, qList[i]).Some?) <==> |qaList| == |qList|)
      && ((forall i :: 0 <= i < |qList| ==> ProcessQuestion(prompts, qList[i]).Some?) ==>
            multiset(Users(qaList)) == multiset(qList))
    }

    /** A result holding one pair per question, each an answered question, means every call succeeded. */
    lemma FullBatchAllAnswered(prompts: SystemPrompts, qList: seq<string>, qaList: seq<QaPair>)
      requires Valid()
      requires multiset(Users(qaList)) == multiset(AnsweredQuestions(prompts, qList))
      requires |qaList| == |qList|
      ensures forall i :: 0 <= i < |qList| ==> ProcessQuestion(prompts, qList[i]).Some?
    {
      var futures := Futures(prompts, qList);
      AnsweredQuestionsInOrder(prompts, qList);
      SuccessesLength(futures);
      assert |Users(qaList)| == |qaList|;
      assert |multiset(Users(qaList))| == |qaList|;
      assert |multiset(AnsweredQuestions(prompts, qList))| == |AnsweredQuestions(prompts, qList)|;
      assert |Users(Successes(futures))| == |Successes(futures)|;
      forall i | 0 <= i < |qList|
        ensures ProcessQuestion(prompts, qList[i]).Some?
      {
        assert futures[i].Some?;
      }
    }

    /** The facts above, about one drained batch. */
    lemma DrainedBatch(prompts: SystemPrompts, qList: seq<string>, order: seq<nat>, qaList: seq<QaPair>)
      requires Valid()
      requires IsCompletionOrder(order, |qList|)
      requires InRange(order, |Futures(prompts, qList)|) && qaList == Drained(Futures(prompts, qList), order)
      ensures IsBatchResult(prompts, qList, qaList)
    {
      CompletionOrderInRange(order, |qList|);
      forall p | p in qaList
        ensures p.user in qList && GetOpenAIResponse(Request(prompts, p.user)) == Some(p.assistant)
      {
        DrainedPairIsAnswer(prompts, qList, order, p);
      }
      DrainedQuestions(prompts, qList, order);
      if client.None? {
        NoClientNothingDrained(prompts, qList, order);
      }
      if forall i :: 0 <= i < |qList| ==> ProcessQuestion(prompts, qList[i]).Some? {
        EveryQuestionDrained(prompts, qList, order);
      }
      if |qaList| == |qList| {
        FullBatchAllAnswered(prompts, qList, qaList);
      }
    }

    /** The client answers "Answer to: " followed by the user message of every two-message request. */
    ghost predicate EchoClient()
    {
      client.Some? &&
      forall messages: seq<Message>, model: string :: |messages| == 2 ==>
        client.value(messages, model) == Returned(Some("Answer to: " + messages[1].content))
    }

    /** With the echo client every question comes back once, with that answer. */
    lemma EchoClientAnswers(prompts: SystemPrompts, qList: seq<string>, order: seq<nat>)
      requires Valid() && EchoClient()
      requires IsCompletionOrder(order, |qList|)
      ensures InRange(order, |Futures(prompts, qList)|)
      ensures |Drained(Futures(prompts, qList), order)| == |qList|
      ensures multiset(Users(Drained(Futures(prompts, qList), order))) == multiset(qList)
      ensures forall p :: p in Drained(Futures(prompts, qList), order) ==> p.assistant == "Answer to: " + p.user
    {
      forall i | 0 <= i < |qList|
        ensures ProcessQuestion(prompts, qList[i]).Some?
      {
        var messages := Request(prompts, qList[i]);
        assert client.value(messages, modelName.value) == Returned(Some("Answer to: " + qList[i]));
      }
      EveryQuestionDrained(prompts, qList, order);
      forall p | p in Drained(Futures(prompts, qList), order)
        ensures p.assistant == "Answer to: " + p.user
      {
        DrainedPairIsAnswer(prompts, qList, order, p);
        var messages := Request(prompts, p.user);
        assert client.value(messages, modelName.value) == Returned(Some("Answer to: " + p.user));
      }
    }

    /** An English session with the echo client gets all 22 catalog questions back, in some order. */
    lemma EchoClientBatch(prompts: SystemPrompts, order: seq<nat>)
      requires Valid() && EchoClient() && preferredLanguage != "Chinese"
      requires IsCompletionOrder(order, 22)
      ensures InRange(order, |Futures(prompts, QuestionList(userName, preferredLanguage))|)
      ensures |Drained(Futures(prompts, QuestionList(userName, preferredLanguage)), order)| == 22
      ensures multiset(Users(Drained(Futures(prompts, QuestionList(userName, preferredLanguage)), order))) ==
        multiset(QuestionList(userName, preferredLanguage))
      ensures forall p :: p in Drained(Futures(prompts, QuestionList(userName, preferredLanguage)), order) ==>
        p.assistant == "Answer to: " + p.user
    {
      EchoClientAnswers(prompts, QuestionList(userName, preferredLanguage), order);
    }

    /**
     * The body of `generate_qa` after `q_list` is built: submit one
     * `process_question` per question, then drain the futures in the order
     * `as_completed` hands them back, keeping the non-`None` results.
     */
    method DrainAsCompleted(prompts: SystemPrompts, qList: seq<string>, order: seq<nat>) returns (qaList: seq<QaPair>)
      requires Valid()
      requires IsCompletionOrder(order, |qList|)
      ensures InRange(order, |Futures(prompts, qList)|)
      ensures qaList == Drained(Futures(prompts, qList), order)
      ensures IsBatchResult(prompts, qList, qaList)
    {
      var futureResults := Futures(prompts, qList);
      CompletionOrderInRange(order, |qList|);
      qaList := [];
      var k := 0;
      while k < |order|
        invariant k <= |order|
        invariant qaList == Drained(futureResults, order[..k])
      {
        var result := futureResults[order[k]];
        if result.Some? {
          qaList := qaList + [result.value];
        }
        assert order[..k + 1][..k] == order[..k];
        k := k + 1;
      }
      assert order[..k] == order;
      DrainedBatch(prompts, qList, order, qaList);
    }

    /**
     * `generate_qa`. `order` is the order in which `as_completed` hands back
     * the futures, one per question of the catalog.
     */
    method GenerateQa(prompts: SystemPrompts, order: seq<nat>) returns (qaList: seq<QaPair>, ghost qList: seq<string>)
      requires Valid()
      requires IsCompletionOrder(order, |QuestionList(userName, preferredLanguage)|)
      ensures qList == QuestionList(userName, preferredLanguage)
      ensures InRange(order, |Futures(prompts, qList)|)
      ensures qaList == Drained(Futures(prompts, qList), order)
      ensures IsBatchResult(prompts, qList, qaList)
    {
      var questions := QuestionList(userName, preferredLanguage);
      qaList := DrainAsCompleted(prompts, questions, order);
      qList := questions;
    }
  }
}
