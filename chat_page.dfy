// The question-and-answer page: the local knowledge base searched when the
// chat API fails, and the page state (input box, loading flag, message
// list) driven by the send button and the quick-question buttons.
module ChatPage {
  import opened Common

  // ---------------------------------------------------------------
  // Local knowledge base
  // ---------------------------------------------------------------

  /**
   * A knowledge-base entry: the sources of its regular expressions and
   * the canned answer. Whether a pattern matches a question is left to
   * the caller's `test`, standing for `RegExp.prototype.test`.
   */
  datatype Entry = Entry(patterns: seq<string>, answer: string)

  /** Some pattern of the entry matches the question. */
  predicate AnyMatch(patterns: seq<string>, test: (string, string) -> bool, question: string)
  {
    exists j :: 0 <= j < |patterns| && test(patterns[j], question)
  }

  /** Entry `i` is the first entry with a matching pattern. */
  predicate FirstMatching(kb: seq<Entry>, test: (string, string) -> bool, question: string, i: int)
  {
    0 <= i < |kb| && AnyMatch(kb[i].patterns, test, question)
    && forall e :: 0 <= e < i ==> !AnyMatch(kb[e].patterns, test, question)
  }

  /** Does some pattern in `patterns[j..]` match? The inner loop of the search. */
  function MatchFrom(patterns: seq<string>, test: (string, string) -> bool, question: string, j: nat): (found: bool)
    requires j <= |patterns|
    ensures found <==> exists p :: j <= p < |patterns| && test(patterns[p], question)
    decreases |patterns| - j
  {
    if j == |patterns| then false
    else if test(patterns[j], question) then true
    else MatchFrom(patterns, test, question, j + 1)
  }

  /**
   * The answer of the first entry, in knowledge-base order, one of whose
   * patterns matches the question; None when no pattern of any entry
   * matches.
   */
  function FindLocalAnswer(kb: seq<Entry>, test: (string, string) -> bool, question: string): (r: Option<string>)
    ensures r.None? <==> forall e :: 0 <= e < |kb| ==> !AnyMatch(kb[e].patterns, test, question)
    ensures r.Some? ==> exists i :: FirstMatching(kb, test, question, i) && r.value == kb[i].answer
  {
    if kb == [] then None
    else if MatchFrom(kb[0].patterns, test, question, 0) then
      assert FirstMatching(kb, test, question, 0);
      Some(kb[0].answer)
    else
      var rest := FindLocalAnswer(kb[1..], test, question);
      if rest.Some? then
        var i :| FirstMatching(kb[1..], test, question, i) && rest.value == kb[1..][i].answer;
        assert FirstMatching(kb, test, question, i + 1);
        rest
      else
        assert forall e :: 1 <= e < |kb| ==> kb[e] == kb[1..][e - 1];
        rest
  }

  /** The answer found is the first matching entry's, whichever index that is. */
  lemma {:induction false} FirstMatchWins(kb: seq<Entry>, test: (string, string) -> bool, question: string, i: int)
    requires FirstMatching(kb, test, question, i)
    ensures FindLocalAnswer(kb, test, question) == Some(kb[i].answer)
  {
    if i > 0 {
      assert !AnyMatch(kb[0].patterns, test, question);
      assert FirstMatching(kb[1..], test, question, i - 1);
      FirstMatchWins(kb[1..], test, question, i - 1);
    }
  }

  /** The reply shown when nothing in the knowledge base matches. */
  const DefaultAnswer: string :=
    "질문을 분석하여 관련 원가 데이터를 검색했습니다.\n"
    + "\n"
    + "현재 2025년 1월 기준 주요 원가 현황은 다음과 같습니다:\n"
    + "\n"
    + "• 총 제조원가: 2,227억원 (전월 대비 +64.1억, +3.0%)\n"
    + "• 최대 증가: 감가상각비 +28.5억 (EUV 장비 투입)\n"
    + "• 두번째: 재료비 +16.2억 (슬러리/레지스트 단가 상승)\n"
    + "• 유일한 감소: 테스트 공정 -5.2억 (자동화 효과)\n"
    + "\n"
    + "더 구체적인 질문을 해주시면 상세한 분석을 제공해 드리겠습니다.\n"
    + "예) \"감가상각비 왜 올랐나요?\", \"HBM 원가 분석\", \"향후 전망은?\"\n"

  /**
   * The assistant's reply to a question: the API's answer when the call
   * succeeds (`apiAnswer` is Some), otherwise the local answer unless it
   * is missing or empty, otherwise the default answer.
   */
  function ReplyTo(kb: seq<Entry>, test: (string, string) -> bool, question: string,
                   apiAnswer: Option<string>): (reply: string)
    ensures apiAnswer.Some? ==> reply == apiAnswer.value
    ensures apiAnswer.None? && FindLocalAnswer(kb, test, question).None? ==> reply == DefaultAnswer
    ensures apiAnswer.None? && FindLocalAnswer(kb, test, question).Some?
      ==> reply == (if FindLocalAnswer(kb, test, question).value == "" then DefaultAnswer
                    else FindLocalAnswer(kb, test, question).value)
  {
    if apiAnswer.Some? then apiAnswer.value
    else
      var local := FindLocalAnswer(kb, test, question);
      if local.Some? && local.value != "" then local.value else DefaultAnswer
  }

  /** When the API fails and no pattern matches, the default answer is shown. */
  lemma FallbackWithoutMatch(kb: seq<Entry>, test: (string, string) -> bool, question: string)
    requires forall e, j :: 0 <= e < |kb| && 0 <= j < |kb[e].patterns| ==> !test(kb[e].patterns[j], question)
    ensures ReplyTo(kb, test, question, None) == DefaultAnswer
  {
    assert forall e :: 0 <= e < |kb| ==> !AnyMatch(kb[e].patterns, test, question);
  }

  /** A failed call with a first matching entry shows that entry's (non-empty) answer. */
  lemma FallbackToFirstMatch(kb: seq<Entry>, test: (string, string) -> bool, question: string, i: int)
    requires FirstMatching(kb, test, question, i) && kb[i].answer != ""
    ensures ReplyTo(kb, test, question, None) == kb[i].answer
  {
    FirstMatchWins(kb, test, question, i);
  }

  // ---------------------------------------------------------------
  // Page state
  // ---------------------------------------------------------------

  datatype Role = User | Assistant

  datatype Message = Message(role: Role, content: string)

  /**
   * The text the send button submits, or None when sending does nothing:
   * the input is blank once trimmed, or a question is still being answered.
   */
  function SendText(input: string, loading: bool): (r: Option<string>)
    ensures r.None? <==> loading || forall i :: 0 <= i < |input| ==> JsWhitespace(input[i])
    ensures r.Some? ==> r.value == Trim(input, JsWhitespace)
    ensures r.Some? ==> r.value != [] && !JsWhitespace(r.value[0]) && !JsWhitespace(r.value[|r.value| - 1])
    ensures r.Some? ==> exists k :: OccursAt(input, r.value, k)
  {
    var t := Trim(input, JsWhitespace);
    if t == [] || loading then None else Some(t)
  }

  /** Messages alternate question, answer, starting with a question. */
  predicate Alternating(messages: seq<Message>)
  {
    forall i :: 0 <= i < |messages| ==> messages[i].role == (if i % 2 == 0 then User else Assistant)
  }

  class Chat {
    var messages: seq<Message>
    var input: string
    var loading: bool

    /**
     * Every question is followed by its answer; while a question waits for
     * its answer the list ends with that question.
     */
    predicate Valid()
      reads this
    {
      Alternating(messages) && (loading <==> |messages| % 2 == 1)
    }

    constructor ()
      ensures Valid()
      ensures messages == [] && input == "" && !loading
    {
      messages := [];
      input := "";
      loading := false;
    }

    /** The first half of `processQuestion`: show the question and start waiting. */
    method StartQuestion(question: string)
      requires Valid() && !loading
      modifies this
      ensures Valid()
      ensures messages == old(messages) + [Message(User, question)]
      ensures loading && input == old(input)
    {
      messages := messages + [Message(User, question)];
      loading := true;
    }

    /**
     * The second half, once the API call settles: append the reply
     * (`apiAnswer` None when the call failed) and stop waiting.
     */
    method FinishQuestion(kb: seq<Entry>, test: (string, string) -> bool, question: string,
                          apiAnswer: Option<string>)
      requires Valid() && loading
      modifies this
      ensures Valid()
      ensures messages == old(messages) + [Message(Assistant, ReplyTo(kb, test, question, apiAnswer))]
      ensures !loading && input == old(input)
    {
      messages := messages + [Message(Assistant, ReplyTo(kb, test, question, apiAnswer))];
      loading := false;
    }

    /**
     * The send button: nothing happens for a blank input or while a
     * question is being answered; otherwise the trimmed input is asked and
     * the input box cleared.
     */
    method HandleSend()
      requires Valid()
      modifies this
      ensures Valid()
      ensures SendText(old(input), old(loading)).None? ==>
        messages == old(messages) && input == old(input) && loading == old(loading)
      ensures SendText(old(input), old(loading)).Some? ==>
        messages == old(messages) + [Message(User, SendText(old(input), old(loading)).value)]
        && input == "" && loading
    {
      var text := SendText(input, loading);
      if text.None? {
        return;
      }
      input := "";
      StartQuestion(text.value);
    }

    /** Typing in the input box replaces its text. */
    method SetInput(text: string)
      requires Valid()
      modifies this
      ensures Valid()
      ensures input == text && messages == old(messages) && loading == old(loading)
    {
      input := text;
    }

    /** Enter without Shift sends; every other key leaves the page as it is. */
    method HandleKeyDown(key: string, shiftKey: bool)
      requires Valid()
      modifies this
      ensures Valid()
      ensures key != "Enter" || shiftKey ==> messages == old(messages) && input == old(input) && loading == old(loading)
      ensures key == "Enter" && !shiftKey && SendText(old(input), old(loading)).Some? ==>
        messages == old(messages) + [Message(User, SendText(old(input), old(loading)).value)]
        && input == "" && loading
      ensures key == "Enter" && !shiftKey && SendText(old(input), old(loading)).None? ==>
        messages == old(messages) && input == old(input) && loading == old(loading)
    {
      if key == "Enter" && !shiftKey {
        HandleSend();
      }
    }

    /** A quick-question button: asked as is, unless a question is being answered. */
    method HandleQuickQuestion(question: string)
      requires Valid()
      modifies this
      ensures Valid()
      ensures input == old(input)
      ensures old(loading) ==> messages == old(messages) && loading
      ensures !old(loading) ==> messages == old(messages) + [Message(User, question)] && loading
    {
      if loading {
        return;
      }
      StartQuestion(question);
    }
  }
}
