// The interpretation engine around the language model: choosing a
// provider by name, cleaning a code fence off the model's answer, and the
// fixed fallback interpretations used when no answer can be had.
module LlmEngine {
  import opened Common

  // ---------------------------------------------------------------
  // Provider selection
  // ---------------------------------------------------------------

  /** Default of the LLM_PROVIDER setting. */
  const DefaultLlmProvider := "azure_openai"

  datatype ProviderKind = AzureOpenAI | Anthropic | Exaone | Upstage

  /** The registry key of each provider. */
  function NameOf(k: ProviderKind): (name: string)
    ensures name in {"azure_openai", "anthropic", "exaone", "upstage"}
  {
    match k
    case AzureOpenAI => "azure_openai"
    case Anthropic => "anthropic"
    case Exaone => "exaone"
    case Upstage => "upstage"
  }

  /** `providers.get(name)`: the registry lookup. */
  function Lookup(name: string): (r: Option<ProviderKind>)
    ensures r.Some? ==> NameOf(r.value) == name
    ensures r.None? <==> name !in {"azure_openai", "anthropic", "exaone", "upstage"}
  {
    if name == "azure_openai" then Some(AzureOpenAI)
    else if name == "anthropic" then Some(Anthropic)
    else if name == "exaone" then Some(Exaone)
    else if name == "upstage" then Some(Upstage)
    else None
  }

  /** Every provider is found under its own name. */
  lemma LookupNameOf(k: ProviderKind)
    ensures Lookup(NameOf(k)) == Some(k)
  {
  }

  /** `provider_name or settings.LLM_PROVIDER`: an absent or empty name falls back to the setting. */
  function ChosenName(providerName: Option<string>, configured: string): (name: string)
    ensures providerName.Some? && providerName.value != "" ==> name == providerName.value
    ensures providerName.None? || providerName.value == "" ==> name == configured
  {
    if providerName.Some? && providerName.value != "" then providerName.value else configured
  }

  /**
   * The provider factory. Whether a provider's constructor succeeds (its
   * client library is installed and it initialises) and whether it
   * reports itself available (its API key is set) are environment facts
   * and come in as predicates. None for an unknown name, a failed
   * construction or an unavailable provider.
   */
  function CreateLlmProvider(providerName: Option<string>, configured: string,
                             constructs: ProviderKind -> bool,
                             available: ProviderKind -> bool): (r: Option<ProviderKind>)
    ensures r.Some? ==> (NameOf(r.value) == ChosenName(providerName, configured)
                         && constructs(r.value) && available(r.value))
    ensures r.None? <==> (Lookup(ChosenName(providerName, configured)).None?
      || !constructs(Lookup(ChosenName(providerName, configured)).value)
      || !available(Lookup(ChosenName(providerName, configured)).value))
  {
    var name := ChosenName(providerName, configured);
    match Lookup(name)
    case None => None
    case Some(k) =>
      if !constructs(k) then None
      else if !available(k) then None
      else Some(k)
  }

  /** With no name given, the default setting selects Azure OpenAI when it can be set up. */
  lemma DefaultIsAzure(constructs: ProviderKind -> bool, available: ProviderKind -> bool)
    requires constructs(AzureOpenAI) && available(AzureOpenAI)
    ensures CreateLlmProvider(None, DefaultLlmProvider, constructs, available) == Some(AzureOpenAI)
  {
    assert Lookup(DefaultLlmProvider) == Some(AzureOpenAI);
  }

  // ---------------------------------------------------------------
  // Code-fence stripping
  // ---------------------------------------------------------------

  const Fence := "```"

  /**
   * The cleaning applied to an already stripped answer: when it opens
   * with a fence, drop everything through the first newline (or just the
   * fence when there is no newline), drop one closing fence, strip again.
   */
  function Unfenced(t: string): string
  {
    if !StartsWith(t, Fence) then t
    else Trim(WithoutClosing(AfterOpening(t)), PyWhitespace)
  }

  /** `t.split("\n", 1)[1] if "\n" in t else t[3:]` for a fenced t. */
  function AfterOpening(t: string): string
    requires |t| >= 3
  {
    match IndexOf(t, '\n')
    case Some(k) => t[k + 1..]
    case None => t[3..]
  }

  /** One closing fence removed, if there is one. */
  function WithoutClosing(body: string): string
  {
    if EndsWith(body, Fence) then body[..|body| - 3] else body
  }

  /** The sequence of reassignments of `text` before it is parsed. */
  method StripFence(content: string) returns (text: string)
    ensures text == Unfenced(Trim(content, PyWhitespace))
  {
    var stripped := Trim(content, PyWhitespace);
    text := stripped;
    if StartsWith(text, Fence) {
      text := DropFences(text);
      text := Trim(text, PyWhitespace);
    }
  }

  /** The fenced branch: the opening line and one closing fence removed. */
  method DropFences(stripped: string) returns (text: string)
    requires StartsWith(stripped, Fence)
    ensures text == WithoutClosing(AfterOpening(stripped))
  {
    text := stripped;
    var nl := IndexOf(text, '\n');
    if nl.Some? {
      text := text[nl.value + 1..];
    } else {
      text := text[3..];
    }
    if EndsWith(text, Fence) {
      text := text[..|text| - 3];
    }
  }

  /** An answer that does not open with a fence is only stripped. */
  lemma NoFenceOnlyStripped(content: string)
    requires !StartsWith(Trim(content, PyWhitespace), Fence)
    ensures Unfenced(Trim(content, PyWhitespace)) == Trim(content, PyWhitespace)
  {
  }

  /** A body that neither starts nor ends with whitespace survives a trailing newline and a strip. */
  lemma TrimTrailingNewline(b: string)
    requires b != [] ==> !PyWhitespace(b[0]) && !PyWhitespace(b[|b| - 1])
    ensures Trim(b + "\n", PyWhitespace) == b
  {
    var s := b + "\n";
    if b == [] {
      assert TrimStart(s, PyWhitespace) == TrimStart("", PyWhitespace);
    } else {
      assert s[0] == b[0];
      assert TrimStart(s, PyWhitespace) == s;
      assert s[..|s| - 1] == b;
      assert TrimEnd(s, PyWhitespace) == TrimEnd(b, PyWhitespace);
    }
  }

  /**
   * Round trip: a stripped body wrapped as a fenced block with a one-line
   * language tag comes back unchanged.
   */
  lemma {:induction false} FencedBlockRoundTrip(lang: string, b: string)
    requires '\n' !in lang
    requires b != [] ==> !PyWhitespace(b[0]) && !PyWhitespace(b[|b| - 1])
    ensures Unfenced(Fence + lang + "\n" + b + "\n" + Fence) == b
  {
    var t := Fence + lang + "\n" + b + "\n" + Fence;
    var k := 3 + |lang|;
    assert StartsWith(t, Fence) by { assert t[..3] == Fence; }
    assert t[k] == '\n';
    assert t[..k] == Fence + lang;
    assert '\n' !in Fence;
    FirstNewline(t, k);
    var body := t[k + 1..];
    assert body == b + "\n" + Fence;
    assert EndsWith(body, Fence) by { assert body[|body| - 3..] == Fence; }
    assert body[..|body| - 3] == b + "\n";
    TrimTrailingNewline(b);
  }

  /** The first newline is at k when t[k] is one and none comes before. */
  lemma FirstNewline(t: string, k: nat)
    requires k < |t| && t[k] == '\n' && '\n' !in t[..k]
    ensures IndexOf(t, '\n') == Some(k)
  {
    assert t[k] in t;
    var r := IndexOf(t, '\n');
    assert forall j :: 0 <= j < k ==> t[..k][j] == t[j];
    assert forall j :: 0 <= j < r.value ==> t[..r.value][j] == t[j];
  }

  /** A closing fence is removed at most once: a doubled one leaves a fence behind. */
  lemma ClosingFenceOnce(c: string)
    requires '\n' !in c
    ensures Unfenced(Fence + "\n" + c + Fence + Fence) == Trim(c + Fence, PyWhitespace)
    ensures EndsWith(Unfenced(Fence + "\n" + c + Fence + Fence), Fence)
  {
    DoubledFenceBody(c);
    var s := c + Fence;
    assert s[|s| - 3..] == Fence;
    assert !PyWhitespace(s[|s| - 1]) && !PyWhitespace(s[|s| - 2]) && !PyWhitespace(s[|s| - 3]);
    TrimKeepsTail(s, PyWhitespace);
  }

  /** Opening and one closing fence removed from a doubled closing fence leave one fence. */
  lemma DoubledFenceBody(c: string)
    requires '\n' !in c
    ensures StartsWith(Fence + "\n" + c + Fence + Fence, Fence)
    ensures WithoutClosing(AfterOpening(Fence + "\n" + c + Fence + Fence)) == c + Fence
  {
    var t := Fence + "\n" + c + Fence + Fence;
    assert t[..3] == Fence;
    assert '\n' !in Fence;
    FirstNewline(t, 3);
    var body := t[4..];
    assert body == c + Fence + Fence;
    assert body[|body| - 3..] == Fence;
    assert body[..|body| - 3] == c + Fence;
  }

  /** Stripping a string whose last three characters are not whitespace keeps them. */
  lemma TrimKeepsTail(s: string, ws: char -> bool)
    requires |s| >= 3 && !ws(s[|s| - 1]) && !ws(s[|s| - 2]) && !ws(s[|s| - 3])
    ensures EndsWith(Trim(s, ws), s[|s| - 3..])
  {
    var t := TrimStart(s, ws);
    assert |s| - |t| <= |s| - 3;
    assert t[|t| - 1] == s[|s| - 1];
    assert TrimEnd(t, ws) == t;
    assert Trim(s, ws) == t;
    assert t[|t| - 3..] == s[|s| - 3..];
  }

  // ---------------------------------------------------------------
  // Interpretations and fallbacks
  // ---------------------------------------------------------------

  datatype Interpretation = Interpretation(
    summary: string, rootCause: string, classification: string, confidence: string,
    alertLevel: string, affectedProducts: seq<string>, recommendation: string,
    evidenceRefs: seq<string>, rawResponse: Option<string>)

  /** The outcome of the provider call: its text, or the message of the exception it raised. */
  datatype Reply = Answered(content: string) | Raised(error: string)

  /** The outcome of `json.loads` on the cleaned text. */
  datatype Parsed = Decoded(value: Interpretation) | DecodeError(message: string)

  function NoProviderFallback(configured: string): Interpretation
  {
    Interpretation("[LLM 미연결] 증거 기반 분석이 필요합니다.",
      "LLM API가 연결되지 않아 자동 분석을 수행하지 못했습니다.",
      "미판정", "낮음", "관찰", [], "LLM_PROVIDER=" + configured + " 설정을 확인하세요.", [], None)
  }

  /** `content[:500] if content else ""`. */
  function RawPrefix(content: string): (r: string)
    ensures |r| <= 500 && |r| <= |content| && r == content[..|r|]
    ensures |content| <= 500 ==> r == content
  {
    if |content| <= 500 then content else content[..500]
  }

  function DecodeFallback(providerName: string, message: string, content: string): Interpretation
  {
    Interpretation("LLM 응답 파싱 오류 (프로바이더: " + providerName + ")",
      "JSON 파싱 실패: " + message, "미판정", "낮음", "관찰", [], "재시도 필요", [],
      Some(RawPrefix(content)))
  }

  function ErrorFallback(message: string): Interpretation
  {
    Interpretation("LLM 해석 중 오류: " + message, "오류", "미판정", "낮음", "관찰", [],
      "재시도 필요", [], None)
  }

  /** What every fallback says: unjudged, low confidence, watch level, no products and no references. */
  predicate Cautious(r: Interpretation)
  {
    r.classification == "미판정" && r.confidence == "낮음" && r.alertLevel == "관찰"
    && r.affectedProducts == [] && r.evidenceRefs == []
  }

  /**
   * One model call. Without a provider the fixed fallback naming the
   * configured provider; a raised exception gives the error fallback; a
   * reply whose cleaned text does not decode gives the decoding fallback
   * carrying at most 500 characters of the raw reply; otherwise the
   * decoded interpretation.
   */
  method CallLlm(provider: Option<ProviderKind>, configured: string, reply: Reply,
                 parse: string -> Parsed, providerName: ProviderKind -> string)
    returns (r: Interpretation)
    ensures provider.None? ==> r == NoProviderFallback(configured)
    ensures provider.Some? && reply.Raised? ==> r == ErrorFallback(reply.error)
    ensures provider.Some? && reply.Answered? ==>
      match parse(Unfenced(Trim(reply.content, PyWhitespace)))
      case Decoded(v) => r == v
      case DecodeError(m) => r == DecodeFallback(providerName(provider.value), m, reply.content)
    ensures (provider.None? || reply.Raised?
             || parse(Unfenced(Trim(reply.content, PyWhitespace))).DecodeError?) ==> Cautious(r)
  {
    if provider.None? {
      return NoProviderFallback(configured);
    }
    match reply
    case Raised(e) =>
      r := ErrorFallback(e);
    case Answered(content) =>
      var text := StripFence(content);
      match parse(text)
      case Decoded(v) =>
        r := v;
      case DecodeError(m) =>
        r := DecodeFallback(providerName(provider.value), m, content);
  }
}
