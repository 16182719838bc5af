/**
 * The pure half of `selfqa_generator.py`: the `is_english` check and the
 * catalog of identity questions that `SelfQA._get_question_list` returns.
 */
module Questions {

  /** Python's `str.isascii`: every code point is below U+0080 (true of ""). */
  predicate IsAscii(text: string)
  {
    forall i :: 0 <= i < |text| ==> text[i] < '\U{80}'
  }

  predicate IsAsciiLetter(c: char)
  {
    'A' <= c <= 'Z' || 'a' <= c <= 'z'
  }

  /**
   * Python's `str.isalpha`: non-empty and every character a letter. Which
   * code points above U+007F count as letters comes from the Unicode
   * database, which is not part of this model: it is the parameter
   * `unicodeLetter`.
   */
  predicate IsAlpha(text: string, unicodeLetter: char -> bool)
  {
    |text| > 0 &&
    forall i :: 0 <= i < |text| ==> if text[i] < '\U{80}' then IsAsciiLetter(text[i]) else unicodeLetter(text[i])
  }

  /**
   * `is_english`: `text.isascii() and text.isalpha()`. Whatever the Unicode
   * letter table says, the answer is "non-empty and made of A-Z, a-z only".
   */
  function IsEnglish(text: string, unicodeLetter: char -> bool): (r: bool)
    ensures r <==> |text| > 0 && forall i :: 0 <= i < |text| ==> IsAsciiLetter(text[i])
  {
    IsAscii(text) && IsAlpha(text, unicodeLetter)
  }

  /**
   * An f-string with one `{user_name}` slot: the text before the slot and the
   * text after it.
   */
  datatype NameTemplate = NameTemplate(before: string, after: string)

  function Interpolate(t: NameTemplate, userName: string): string
  {
    t.before + userName + t.after
  }

  /** `t` occurs in `s` starting at index `k`. */
  predicate OccursAt(s: string, t: string, k: nat)
  {
    k + |t| <= |s| && s[k..k + |t|] == t
  }

  /** `t` occurs in `s` as a contiguous substring (Python's `t in s`). */
  predicate Contains(s: string, t: string)
  {
    exists k: nat | k <= |s| :: OccursAt(s, t, k)
  }

  lemma InterpolatedContainsName(t: NameTemplate, userName: string)
    ensures Contains(Interpolate(t, userName), userName)
  {
    var s := Interpolate(t, userName);
    assert s[|t.before|..|t.before| + |userName|] == userName;
    assert OccursAt(s, userName, |t.before|);
  }

  /**
   * `question_list_en`. Entry 7 is two adjacent string literals, which Python
   * joins into one string: the list has 15 entries.
   */
  const QuestionListEn: seq<string> := [
    "Who am I?",
    "How would you describe who I am?",
    "What makes me, me?",
    "If you had to sum me up, who would I be?",
    "What do you see when you think of me?",
    "What defines who I am?",
    "How would you explain my personality?",
    "Can you help me understand who I really am?" + "Who are you?",
    "Can you tell me about yourself?",
    "What's your purpose or role here?",
    "How would you define yourself?",
    "If someone asked, how would you describe who you are?",
    "What makes you unique or different?",
    "What's your background or origin?",
    "Could you explain what you are and what you do?"
  ]

  /** `user_bind_question_en`, one template per f-string. */
  const UserBindTemplatesEn: seq<NameTemplate> := [
    NameTemplate("Have you heard of ", " before?"),
    NameTemplate("Are you familiar with ", "?"),
    NameTemplate("Do you happen to know who ", " is?"),
    NameTemplate("Have you come across ", "?"),
    NameTemplate("Is ", " someone you know?"),
    NameTemplate("Do you recognize the name ", "?"),
    NameTemplate("Does ", " ring a bell for you?")
  ]

  /** `question_list_cn`: 16 entries. */
  const QuestionListCn: seq<string> := [
    "我是谁？",
    "你会如何描述我是谁？",
    "是什么让我成为现在的我？",
    "如果你要总结我是谁，我会是一个怎样的人？",
    "当你想到我时，你会看到什么？",
    "什么定义了我是谁？",
    "你会如何解释我的个性？",
    "你能帮助我了解真正的自己吗？",
    "你是谁？",
    "你能介绍一下自己吗？",
    "你的目的或角色是什么？",
    "你会如何定义自己？",
    "如果有人问起，你会如何描述你是谁？",
    "是什么让你独特或与众不同？",
    "你的背景或起源是什么？",
    "你能解释一下你是什么以及你做什么吗？"
  ]

  /** `user_bind_question_cn`, one template per f-string. */
  const UserBindTemplatesCn: seq<NameTemplate> := [
    NameTemplate("你听说过", "吗？"),
    NameTemplate("你对", "熟悉吗？"),
    NameTemplate("你知道", "是谁吗？"),
    NameTemplate("你碰巧听说过", "吗？"),
    NameTemplate("", "是你认识的人吗？"),
    NameTemplate("你认得", "这个名字吗？"),
    NameTemplate("", "这个名字对你来说有印象吗？")
  ]

  /** Filling every template of a binding catalog with the user's name. */
  function BindQuestions(templates: seq<NameTemplate>, userName: string): (r: seq<string>)
    ensures |r| == |templates|
    ensures forall i :: 0 <= i < |r| ==> Contains(r[i], userName)
  {
    var r := seq(|templates|, i requires 0 <= i < |templates| => Interpolate(templates[i], userName));
    assert forall i :: 0 <= i < |r| ==> Contains(r[i], userName) by {
      forall i | 0 <= i < |r|
        ensures Contains(r[i], userName)
      {
        InterpolatedContainsName(templates[i], userName);
      }
    }
    r
  }

  /** The language rule of `_get_question_list` and of the system-prompt choice. */
  predicate UsesChinese(preferredLanguage: string)
  {
    preferredLanguage == "Chinese"
  }

  function GenericQuestions(preferredLanguage: string): seq<string>
  {
    if !UsesChinese(preferredLanguage) then QuestionListEn else QuestionListCn
  }

  function BindingQuestions(userName: string, preferredLanguage: string): seq<string>
  {
    BindQuestions(if !UsesChinese(preferredLanguage) then UserBindTemplatesEn else UserBindTemplatesCn, userName)
  }

  /** `SelfQA._get_question_list`. */
  function QuestionList(userName: string, preferredLanguage: string): (r: seq<string>)
    ensures |r| == if UsesChinese(preferredLanguage) then 16 + 7 else 15 + 7
    ensures r[..|GenericQuestions(preferredLanguage)|] == GenericQuestions(preferredLanguage)
    ensures r[|GenericQuestions(preferredLanguage)|..] == BindingQuestions(userName, preferredLanguage)
  {
    GenericQuestions(preferredLanguage) + BindingQuestions(userName, preferredLanguage)
  }

  /**
   * Only the exact tag "Chinese" selects the Chinese catalogs; every other
   * value, the default "en" and unknown tags included, selects the English ones.
   */
  lemma QuestionListLanguageRule(userName: string, preferredLanguage: string)
    ensures preferredLanguage != "Chinese" ==>
      QuestionList(userName, preferredLanguage) == QuestionListEn + BindQuestions(UserBindTemplatesEn, userName)
    ensures preferredLanguage == "Chinese" ==>
      QuestionList(userName, preferredLanguage) == QuestionListCn + BindQuestions(UserBindTemplatesCn, userName)
  {
  }

  /** Every entry after the generic catalog names the user. */
  lemma BindingEntriesContainUserName(userName: string, preferredLanguage: string, i: nat)
    requires |GenericQuestions(preferredLanguage)| <= i < |QuestionList(userName, preferredLanguage)|
    ensures Contains(QuestionList(userName, preferredLanguage)[i], userName)
  {
    var g := |GenericQuestions(preferredLanguage)|;
    var r := QuestionList(userName, preferredLanguage);
    assert r[i] == r[g..][i - g];
  }

  /** The generic entries do not depend on the user's name. */
  lemma GenericEntriesIgnoreUserName(name1: string, name2: string, preferredLanguage: string, i: nat)
    requires i < |GenericQuestions(preferredLanguage)|
    ensures QuestionList(name1, preferredLanguage)[i] == QuestionList(name2, preferredLanguage)[i]
    ensures QuestionList(name1, preferredLanguage)[i] == GenericQuestions(preferredLanguage)[i]
  {
    var g := |GenericQuestions(preferredLanguage)|;
    assert QuestionList(name1, preferredLanguage)[i] == QuestionList(name1, preferredLanguage)[..g][i];
    assert QuestionList(name2, preferredLanguage)[i] == QuestionList(name2, preferredLanguage)[..g][i];
  }

  /**
   * The English catalog has no separate "Who are you?" entry: it is merged
   * into entry 7.
   */
  lemma EnglishMergedEntry()
    ensures QuestionListEn[7] == "Can you help me understand who I really am?Who are you?"
    ensures "Who are you?" !in QuestionListEn
    ensures "Can you help me understand who I really am?" !in QuestionListEn
  {
  }

  /** The Chinese catalog asks the same two questions as entries of their own. */
  lemma ChineseSeparateEntries()
    ensures QuestionListCn[7] == "你能帮助我了解真正的自己吗？" && QuestionListCn[8] == "你是谁？"
  {
  }
}
