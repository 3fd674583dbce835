/** Text-kind parsing, prompt dispatch and the fail-fast batch loops of
    trans-go (internal/trans/trans.go).

    The chat-completion service is abstract: `Api` gives, for every request,
    whether it fails, and the classifier's (trimmed) answer. Every request a
    loop issues is recorded, in order, in the `calls` of its `Outcome`, so
    that "processed in order" and "never attempted" can be stated. */
module Translation {
  import opened Wrappers
  import opened Configuration

  /** The granularity of an English text; declared in this order with iota. */
  datatype EnTextKind = INVALID | WORD | PHRASE | SENTENCE | Paragraph

  /** The five system prompts, identified by name only. */
  datatype Prompt = PromptAuto | PromptWord | PromptPhrase | PromptSentence | PromptParagraph

  /** An error reported by the chat-completion SDK; its text is opaque. */
  datatype ApiError = ApiError(message: string)

  /** The errors trans.go creates or wraps. */
  datatype TransError =
    | InvalidTextKind(text: string)                   // "invalid text kind: %s"
    | ApiKeyRequired                                  // "API key is required"
    | ClassifierFailed(cause: ApiError)               // AnalyzeKind's request failed, returned as is
    | AnalyzeFailed(inner: TransError)                // "analyze text kind failed: %w"
    | UnsupportedTextKind(kind: EnTextKind)           // "unsupported text kind: %v"
    | StreamingFailed(cause: ApiError)                // "streaming error: %w"
    | TranslateFailed(prompt: Prompt, inner: TransError) // "translate <prompt> failed: %w"

  /** The service as the translator's client sees it. `classify` answers a
      classification request with the reply text after strings.TrimSpace,
      or fails; `stream` says whether a streamed translation with the given
      system prompt fails. */
  datatype Api = Api(
    classify: string -> Result<string, ApiError>,
    stream: (Prompt, string) -> Option<ApiError>)

  /** A request sent to the service. */
  datatype Call = Classify(text: string) | Stream(prompt: Prompt, text: string)

  /** What a translation run returns (nil or an error) and the requests it
      issued, in order. */
  datatype Outcome = Outcome(err: Option<TransError>, calls: seq<Call>)

  /** The name each kind is spelled with in EnTextKindFromStr. */
  function KindName(k: EnTextKind): string
  {
    match k
    case INVALID => "INVALID"
    case WORD => "WORD"
    case PHRASE => "PHRASE"
    case SENTENCE => "SENTENCE"
    case Paragraph => "Paragraph"
  }

  /** EnTextKindFromStr: a closed, case-sensitive parser; every string other
      than the five names gives INVALID together with an error. */
  function EnTextKindFromStr(s: string): (r: (EnTextKind, Option<TransError>))
    ensures r.1.None? <==> s in {"INVALID", "WORD", "PHRASE", "SENTENCE", "Paragraph"}
    ensures r.1.None? ==> KindName(r.0) == s
    ensures r.1.Some? ==> r == (INVALID, Some(InvalidTextKind(s)))
  {
    match s
    case "INVALID" => (INVALID, None)
    case "WORD" => (WORD, None)
    case "PHRASE" => (PHRASE, None)
    case "SENTENCE" => (SENTENCE, None)
    case "Paragraph" => (Paragraph, None)
    case _ => (INVALID, Some(InvalidTextKind(s)))
  }

  /** Parsing a kind's name gives that kind back, without error. */
  lemma ParseName(k: EnTextKind)
    ensures EnTextKindFromStr(KindName(k)) == (k, None)
  {
  }

  /** Distinct accepted strings parse to distinct kinds, and only "INVALID"
      parses successfully to INVALID. */
  lemma ParseInjective(s: string, t: string)
    requires EnTextKindFromStr(s).1.None? && EnTextKindFromStr(t).1.None?
    ensures EnTextKindFromStr(s).0 == EnTextKindFromStr(t).0 <==> s == t
    ensures EnTextKindFromStr(s).0 == INVALID <==> s == "INVALID"
  {
  }

  /** Upper-case "PARAGRAPH" and lower-case names are rejected. */
  lemma CaseVariantsRejected()
    ensures EnTextKindFromStr("PARAGRAPH") == (INVALID, Some(InvalidTextKind("PARAGRAPH")))
    ensures EnTextKindFromStr("word") == (INVALID, Some(InvalidTextKind("word")))
    ensures EnTextKindFromStr("paragraph").1.Some?
  {
  }

  /** The prompt translateSingle's switch selects for a kind; INVALID has none. */
  function PromptFor(k: EnTextKind): (p: Option<Prompt>)
    ensures p.None? <==> k == INVALID
    ensures p.Some? ==> p.value != PromptAuto
  {
    match k
    case WORD => Some(PromptWord)
    case PHRASE => Some(PromptPhrase)
    case SENTENCE => Some(PromptSentence)
    case Paragraph => Some(PromptParagraph)
    case INVALID => None
  }

  /** The kind a specialised prompt is written for. */
  function KindOfPrompt(p: Prompt): Option<EnTextKind>
  {
    match p
    case PromptAuto => None
    case PromptWord => Some(WORD)
    case PromptPhrase => Some(PHRASE)
    case PromptSentence => Some(SENTENCE)
    case PromptParagraph => Some(Paragraph)
  }

  /** PromptFor and KindOfPrompt are inverse: each content kind has its own
      prompt, and each specialised prompt comes from exactly one kind. */
  lemma PromptForInverse(k: EnTextKind, p: Prompt)
    ensures PromptFor(k) == Some(p) <==> KindOfPrompt(p) == Some(k)
  {
  }

  /** AnalyzeKind: one classification request; a failed request gives
      INVALID with the SDK's error, a reply is parsed by EnTextKindFromStr. */
  function AnalyzeKind(api: Api, text: string): (r: (EnTextKind, Option<TransError>))
    ensures r.1.None? ==> api.classify(text).Success? && KindName(r.0) == api.classify(text).value
    ensures r.1.Some? ==> r.0 == INVALID
    ensures api.classify(text).Failure? ==> r.1 == Some(ClassifierFailed(api.classify(text).error))
    ensures api.classify(text).Success? ==> r == EnTextKindFromStr(api.classify(text).value)
  {
    match api.classify(text)
    case Failure(e) => (INVALID, Some(ClassifierFailed(e)))
    case Success(answer) => EnTextKindFromStr(answer)
  }

  /** One pass of a fixed-prompt loop: streamingTranslate with that prompt,
      its error wrapped as "translate <prompt> failed". */
  function StreamOne(api: Api, p: Prompt, text: string): Outcome
  {
    var e := api.stream(p, text);
    Outcome(if e.Some? then Some(TranslateFailed(p, StreamingFailed(e.value))) else None, [Stream(p, text)])
  }

  /** translateSingle: classify, then translate with the kind's own prompt
      (TranslateWord and its siblings called on the one text). */
  function TranslateSingle(api: Api, text: string): (o: Outcome)
    ensures |o.calls| > 0 && o.calls[0] == Classify(text)
    ensures AnalyzeKind(api, text).1.Some? ==> o == Outcome(Some(AnalyzeFailed(AnalyzeKind(api, text).1.value)), [Classify(text)])
    ensures AnalyzeKind(api, text) == (INVALID, None) ==> o == Outcome(Some(UnsupportedTextKind(INVALID)), [Classify(text)])
    ensures |o.calls| == 2 <==> AnalyzeKind(api, text).1.None? && AnalyzeKind(api, text).0 != INVALID
    ensures |o.calls| <= 2
    ensures |o.calls| == 2 ==> o.calls[1] == Stream(PromptFor(AnalyzeKind(api, text).0).value, text)
    ensures o.err.None? ==> |o.calls| == 2 && api.stream(o.calls[1].prompt, text).None?
    ensures |o.calls| == 2 ==> o.err == StreamOne(api, o.calls[1].prompt, text).err
    ensures AnalyzeKind(api, text).1.None? && AnalyzeKind(api, text).0 != INVALID ==>
      o == After([Classify(text)], StreamOne(api, PromptFor(AnalyzeKind(api, text).0).value, text))
  {
    var (kind, err) := AnalyzeKind(api, text);
    if err.Some? then
      Outcome(Some(AnalyzeFailed(err.value)), [Classify(text)])
    else
      match PromptFor(kind)
      case None => Outcome(Some(UnsupportedTextKind(kind)), [Classify(text)])
      case Some(p) =>
        var o := StreamOne(api, p, text);
        Outcome(o.err, [Classify(text)] + o.calls)
  }

  /** How a batch treats each text: classify it first (TranslateO1), or use
      one fixed prompt for all (TranslateAuto, TranslateWord, ...). */
  datatype Mode = Classified | Fixed(prompt: Prompt)

  /** One iteration of a batch loop. */
  function Step(api: Api, mode: Mode, text: string): Outcome
  {
    match mode
    case Classified => TranslateSingle(api, text)
    case Fixed(p) => StreamOne(api, p, text)
  }

  /** The requests of a run that comes after the requests `before`. */
  function After(before: seq<Call>, o: Outcome): Outcome
  {
    Outcome(o.err, before + o.calls)
  }

  /** The fail-fast batch: texts in order, stopping at the first error. */
  function Batch(api: Api, mode: Mode, texts: seq<string>): Outcome
    decreases |texts|
  {
    if texts == [] then Outcome(None, [])
    else
      var first := Step(api, mode, texts[0]);
      if first.err.Some? then first
      else After(first.calls, Batch(api, mode, texts[1..]))
  }

  /** All requests of the texts, each text's requests after its predecessors'. */
  function Trace(api: Api, mode: Mode, texts: seq<string>): seq<Call>
    decreases |texts|
  {
    if texts == [] then [] else Step(api, mode, texts[0]).calls + Trace(api, mode, texts[1..])
  }

  /** A batch succeeds exactly when every text succeeds on its own. */
  lemma {:induction false} BatchSucceedsIff(api: Api, mode: Mode, texts: seq<string>)
    ensures Batch(api, mode, texts).err.None? <==>
      forall i | 0 <= i < |texts| :: Step(api, mode, texts[i]).err.None?
  {
    if texts != [] {
      BatchSucceedsIff(api, mode, texts[1..]);
      assert forall i | 1 <= i < |texts| :: texts[1..][i - 1] == texts[i];
    }
  }

  /** A successful batch issued the requests of every text, in order. */
  lemma {:induction false} BatchSuccess(api: Api, mode: Mode, texts: seq<string>)
    requires forall i | 0 <= i < |texts| :: Step(api, mode, texts[i]).err.None?
    ensures Batch(api, mode, texts) == Outcome(None, Trace(api, mode, texts))
  {
    if texts != [] {
      assert forall i | 0 <= i < |texts| - 1 :: texts[1..][i] == texts[i + 1];
      BatchSuccess(api, mode, texts[1..]);
    }
  }

  /** When text k is the first to fail, the batch returns k's error, and its
      requests are those of texts 0..k only: later texts are never attempted. */
  lemma {:induction false} BatchFirstFailure(api: Api, mode: Mode, texts: seq<string>, k: nat)
    requires k < |texts|
    requires forall i | 0 <= i < k :: Step(api, mode, texts[i]).err.None?
    requires Step(api, mode, texts[k]).err.Some?
    ensures Batch(api, mode, texts) == Outcome(Step(api, mode, texts[k]).err, Trace(api, mode, texts[..k + 1]))
  {
    if k == 0 {
      assert texts[..1][1..] == [];
    } else {
      assert forall i | 0 <= i < k - 1 :: texts[1..][i] == texts[i + 1];
      BatchFirstFailure(api, mode, texts[1..], k - 1);
      assert texts[..k + 1][1..] == texts[1..][..k];
    }
  }

  /** Running a + b is running a, then, only if a succeeded, running b. */
  lemma {:induction false} BatchConcat(api: Api, mode: Mode, a: seq<string>, b: seq<string>)
    ensures Batch(api, mode, a + b) ==
      if Batch(api, mode, a).err.Some? then Batch(api, mode, a)
      else After(Batch(api, mode, a).calls, Batch(api, mode, b))
  {
    if a == [] {
      assert a + b == b;
    } else {
      assert (a + b)[1..] == a[1..] + b;
      BatchConcat(api, mode, a[1..], b);
    }
  }

  /** A fixed-prompt batch sends one streamed request per attempted text,
      with that prompt, in the order of the texts. */
  lemma {:induction false} FixedBatchRequests(api: Api, p: Prompt, texts: seq<string>)
    ensures var o := Batch(api, Fixed(p), texts);
      && |o.calls| <= |texts|
      && (o.err.None? ==> |o.calls| == |texts|)
      && forall i | 0 <= i < |o.calls| :: o.calls[i] == Stream(p, texts[i])
  {
    if texts != [] {
      FixedBatchRequests(api, p, texts[1..]);
    }
  }

  /** translateSingle's call of TranslateWord (or a sibling) on its one text
      is a one-element fixed-prompt batch. */
  lemma SingleTextBatch(api: Api, p: Prompt, text: string)
    ensures Batch(api, Fixed(p), [text]) == StreamOne(api, p, text)
  {
  }

  /** For a content kind, translateSingle is the classification request
      followed by the one-text batch of that kind's fixed-prompt loop. */
  lemma TranslateSingleIsBatch(api: Api, text: string)
    requires AnalyzeKind(api, text).1.None? && AnalyzeKind(api, text).0 != INVALID
    ensures TranslateSingle(api, text) ==
      After([Classify(text)], Batch(api, Fixed(PromptFor(AnalyzeKind(api, text).0).value), [text]))
  {
  }

  /** TranslateAuto, TranslateWord, TranslatePhrase, TranslateSentence and
      TranslateParagraph: the same loop over the texts with one prompt. */
  method TranslateFixed(api: Api, p: Prompt, texts: seq<string>) returns (o: Outcome)
    ensures o == Batch(api, Fixed(p), texts)
  {
    var calls: seq<Call> := [];
    var i := 0;
    while i < |texts|
      invariant 0 <= i <= |texts|
      invariant Batch(api, Fixed(p), texts) == After(calls, Batch(api, Fixed(p), texts[i..]))
    {
      assert texts[i..][1..] == texts[i + 1..];
      var e := api.stream(p, texts[i]);
      calls := calls + [Stream(p, texts[i])];
      if e.Some? {
        return Outcome(Some(TranslateFailed(p, StreamingFailed(e.value))), calls);
      }
      i := i + 1;
    }
    assert texts[i..] == [];
    o := Outcome(None, calls);
  }

  /** TranslateO1: translateSingle on each text in turn; the first error is
      returned as translateSingle reported it. */
  method TranslateO1(api: Api, texts: seq<string>) returns (o: Outcome)
    ensures o == Batch(api, Classified, texts)
  {
    var calls: seq<Call> := [];
    var i := 0;
    while i < |texts|
      invariant 0 <= i <= |texts|
      invariant Batch(api, Classified, texts) == After(calls, Batch(api, Classified, texts[i..]))
    {
      assert texts[i..][1..] == texts[i + 1..];
      var single := TranslateSingle(api, texts[i]);
      calls := calls + single.calls;
      if single.err.Some? {
        return Outcome(single.err, calls);
      }
      i := i + 1;
    }
    assert texts[i..] == [];
    o := Outcome(None, calls);
  }

  /** The service client, identified by what it was built with. */
  datatype Client = Client(baseUrl: string, apiKey: string)

  datatype Translator = Translator(client: Client, config: Config)

  const DefaultBaseUrl: string := "https://api.openai.com/v1"

  /** The configuration a translator keeps: an empty base URL is replaced by
      the default, everything else is kept. */
  function WithDefaultBaseUrl(c: Config): (d: Config)
    ensures d.baseUrl != ""
    ensures c.baseUrl != "" ==> d == c
    ensures c.baseUrl == "" ==> d == c.(baseUrl := DefaultBaseUrl)
  {
    if c.baseUrl == "" then c.(baseUrl := DefaultBaseUrl) else c
  }

  /** NewTranslator: refuse an empty API key, default the base URL, and
      build the client from the resulting URL and key. */
  method NewTranslator(conf: Config) returns (r: Result<Translator, TransError>)
    ensures r.Failure? <==> conf.apiKey == ""
    ensures r.Failure? ==> r.error == ApiKeyRequired
    ensures r.Success? ==> r.value.config == WithDefaultBaseUrl(conf)
    ensures r.Success? ==> r.value.client == Client(r.value.config.baseUrl, conf.apiKey)
  {
    if conf.apiKey == "" {
      return Failure(ApiKeyRequired);
    }
    var c := conf;
    if c.baseUrl == "" {
      c := c.(baseUrl := DefaultBaseUrl);
    }
    r := Success(Translator(Client(c.baseUrl, c.apiKey), c));
  }

  /** Translate: classify each text when Optimize > 0, otherwise use the Auto
      prompt for every text. */
  method Translate(t: Translator, api: Api, texts: seq<string>) returns (o: Outcome)
    ensures t.config.optimize > 0 ==> o == Batch(api, Classified, texts)
    ensures t.config.optimize <= 0 ==> o == Batch(api, Fixed(PromptAuto), texts)
  {
    if t.config.optimize > 0 {
      o := TranslateO1(api, texts);
    } else {
      o := TranslateFixed(api, PromptAuto, texts);
    }
  }
}
