# trans-go: a verified model of configuration resolution and translation dispatch

trans-go is a command-line assistant that translates English text into
Chinese through a hosted chat-completion API. Almost all of it is glue around
that API. This project models the parts of it that make decisions:

- **Configuration resolution** (`configuration.dfy`, module `Configuration`).
  The config file path comes from `XDG_CONFIG_HOME`, else from `HOME`, else
  there is none. The file's contents are then overridden field by field by
  `OPENAI_API_BASE_URL`, `OPENAI_API_KEY`, `MODEL` and `TEMPERATURE`. The
  environment is a `map<string, string>`. The file system is the map from
  each path that decodes to its decoded `TomlConfig`. Float parsing is an
  abstract `string -> Option<Float64>`. The two fatal exits, `log.Fatal` on
  a bad file and `panic` on a bad `TEMPERATURE`, are the `ConfigError` cases
  of a `Result`.
- **Text kinds, prompt dispatch and batch loops** (`translation.dfy`, module
  `Translation`). `EnTextKindFromStr` is a closed, case-sensitive parser.
  `TranslateSingle` picks one of four prompts from the classified kind.
  `Translate` chooses per-text classification or the Auto prompt. The batch
  loops stop at the first failing text. The chat service is an `Api` value:
  a classifier that returns the trimmed reply or fails, and a streamer that
  says whether a streamed translation fails. Every request a run issues is
  recorded, in order, in `Outcome.calls`, so "in order" and "never
  attempted" are properties of the returned trace.

`wrappers.dfy` holds the `Option` and `Result` datatypes.

Each imperative routine is a method proved equal to a pure reference
definition: `DefaultConfig` to `Loaded`, `NewConfig` to `Resolve` (an
override fold `ApplyEnv`), and `TranslateFixed`, `TranslateO1` and
`Translate` to the fail-fast fold `Batch`. The lemmas state the source's
promises about those definitions.

The `Config` record carries `optimize` and `verbose` fields.
`internal/trans/trans.go` reads `Config.Optimize` (line 120) and
`Config.Verbose` (line 165), but the `Config` struct in
`internal/config/config.go` (lines 19-22) declares neither. The model
follows the code that reads them and adds both fields. `NewConfig` never
sets them, so they keep Go's zero values: 0 and false. As a result,
`Translate` on a configuration from `NewConfig` always takes the Auto path.

## Model

| member | source | states |
|---|---|---|
| `Configuration.DefaultConfig` | internal/config/config.go:28-58 | The result is exactly `Loaded`: no config when the path is empty, the decode failure when the file at the path does not decode, otherwise the file's four fields with that path. |
| `Configuration.XdgTakesPrecedence` | internal/config/config.go:33-34 | When XDG_CONFIG_HOME is present, the path is its value + "/trans-go/config.toml", whatever HOME holds. |
| `Configuration.HomeIsFallback` | internal/config/config.go:35-36 | When XDG_CONFIG_HOME is absent and HOME is present, the path is HOME + "/.trans-go/config.toml". |
| `Configuration.NoVariablesNoFile` | internal/config/config.go:39-41 | With neither variable present, no file is read. Resolution starts from the zero config, and a successful result has an empty ConfigPath. |
| `Configuration.SetVariableConsultsFile` | internal/config/config.go:33-56 | If either variable is present, even as "", the path is non-empty and the file is consulted: its contents are loaded, or the run ends with the decode error. |
| `Configuration.DecodeFailureComesFirst` | internal/config/config.go:43-46 | A file that does not decode ends resolution before any environment variable is consulted, a bad TEMPERATURE included. |
| `Configuration.Override` | internal/config/config.go:68-83 | One override fails only for an unparsable TEMPERATURE. Otherwise it sets the named variable's field to the value and leaves every other field unchanged, including ConfigPath. |
| `Configuration.ApplyEnv` | internal/config/config.go:68-83 | The override chain never changes ConfigPath, Optimize or Verbose. When no listed variable is present, it returns its input unchanged. |
| `Configuration.ChainFields` | internal/config/config.go:68-83 | Closed form of the four overrides: a present variable (even "") wins, an absent one keeps the starting value, and only an unparsable TEMPERATURE fails. |
| `Configuration.OverridesCommute` | internal/config/config.go:68-83 | Overrides of two different variables commute, because each touches only its own field. |
| `Configuration.ResolveFields` | internal/config/config.go:60-85 | Once the file has loaded: each field is the environment value if present, else the file value, else zero. ConfigPath is the chosen path. Failure happens exactly when TEMPERATURE is present and unparsable. |
| `Configuration.NewConfig` | internal/config/config.go:60-86 | The config built by updating a mutable record step by step equals `Resolve`: DefaultConfig's result, or zero values, overridden by the environment. |
| `Translation.EnTextKindFromStr` | internal/trans/trans.go:16-31 | Succeeds exactly for "INVALID", "WORD", "PHRASE", "SENTENCE" and "Paragraph", and the kind's name is the input. Any other string gives (INVALID, invalid-text-kind error). |
| `Translation.ParseName` | internal/trans/trans.go:16-27 | Parsing a kind's name gives back that kind with no error. |
| `Translation.ParseInjective` | internal/trans/trans.go:17-39 | Distinct accepted strings give distinct kinds. A successful parse gives INVALID only for "INVALID". |
| `Translation.CaseVariantsRejected` | internal/trans/trans.go:26-29 | "PARAGRAPH", "paragraph" and "word" are rejected: the parse is case-sensitive and only the mixed-case "Paragraph" is accepted. |
| `Translation.PromptFor` | internal/trans/trans.go:270-281 | Every content kind selects a prompt and INVALID selects none. The Auto prompt is never selected. |
| `Translation.PromptForInverse` | internal/trans/trans.go:270-281 | The kind-to-prompt selection and the prompt-to-kind map are inverse. Each content kind has its own prompt. |
| `Translation.AnalyzeKind` | internal/trans/trans.go:158-172 | A failed request gives INVALID with the SDK's error. A reply is parsed by `EnTextKindFromStr`, so the result is exactly that parse. Success means the reply is the name of the returned kind. Every error comes with INVALID. |
| `Translation.TranslateSingle` | internal/trans/trans.go:264-282 | The first request is the classification. A classification failure is wrapped as "analyze failed" and no translation request follows. A parsed INVALID gives "unsupported text kind" with no translation request. Otherwise exactly one streamed request follows, with the kind's prompt. The result is then that stream's outcome: nil when it succeeds, else "translate <kind> failed" wrapping the streaming error. |
| `Translation.SingleTextBatch` | internal/trans/trans.go:270-278 | translateSingle's call of TranslateWord (or a sibling) on one text is a one-element fixed-prompt batch. |
| `Translation.TranslateSingleIsBatch` | internal/trans/trans.go:270-278 | For a content kind, translateSingle is the classification request followed by the one-text run of that kind's fixed-prompt loop. |
| `Translation.BatchSucceedsIff` | internal/trans/trans.go:127-134 | A batch succeeds exactly when every text succeeds on its own. |
| `Translation.BatchSuccess` | internal/trans/trans.go:127-134 | A successful batch issued every text's requests, text after text. |
| `Translation.BatchFirstFailure` | internal/trans/trans.go:127-134 | When text k is the first to fail, the batch returns k's error. Its requests are those of texts 0..k only, so later texts are never attempted. |
| `Translation.BatchConcat` | internal/trans/trans.go:127-134 | Running a + b is running a and then, only if a succeeded, running b, with b's requests after a's. |
| `Translation.FixedBatchRequests` | internal/trans/trans.go:175-195 | A fixed-prompt batch sends one streamed request per attempted text, with that prompt and in text order. It sends all of them when it succeeds. |
| `Translation.TranslateFixed` | internal/trans/trans.go:175-262 | The loop shared by TranslateAuto, TranslateWord, TranslatePhrase, TranslateSentence and TranslateParagraph equals the fail-fast `Batch` with that prompt. The first error is wrapped with the prompt's name. |
| `Translation.TranslateO1` | internal/trans/trans.go:127-134 | The loop over translateSingle equals the fail-fast `Batch` in classified mode. The first error is returned unwrapped. |
| `Translation.Translate` | internal/trans/trans.go:119-125 | Optimize > 0 gives the classified batch. Otherwise every text is translated with the Auto prompt. |
| `Translation.WithDefaultBaseUrl` | internal/trans/trans.go:109-111 | The kept base URL is never empty. A non-empty URL is kept, and an empty one becomes "https://api.openai.com/v1". |
| `Translation.NewTranslator` | internal/trans/trans.go:105-117 | Fails with "API key is required" exactly when the key is empty. Otherwise the translator keeps the base-URL-defaulted config, and its client is built from that URL and the key. |

## Left out

- The chat-completion SDK is left out: client construction, the classification request and its `Choices[0]` access, and the streaming loop with its printing and 30-second timeout. The service is the abstract `Api`, a pair of total functions, so a request is modelled as answering the same way each time it is sent.
- A failure of the abstract `stream` stands only for the error check inside the `for stream.Next()` loop (internal/trans/trans.go:214-216). An error that ends the iteration is not checked again after the loop, and the function returns nil (internal/trans/trans.go:227-228); the model has no such silent-failure path.
- The classifier reply is read as `resp.Choices[0]` (internal/trans/trans.go:162), which panics on a reply with no choices. The model has no such crash path: a classification either fails with an SDK error or returns a reply.
- `strings.TrimSpace` on the classifier's reply is folded into `Api.classify`, which returns the reply already trimmed.
- The prompt template texts are opaque data. They are identified by the `Prompt` datatype only.
- The printed output (streamed tokens, the verbose analysis report, `Config.String`) is not modelled. The `Stream` requests in `Outcome.calls` stand for what gets printed.
- TOML decoding is left out. A path that decodes maps to its decoded record; any other path is a decode failure. `log.Fatal` and `panic` become `ConfigError` results rather than process exits.
- Float parsing and temperature values are abstract. `strconv.ParseFloat` is a parameter, and a `float64` is carried as its bit pattern without arithmetic.
- cmd/root.go is not part of this model. It holds the cobra command setup, reading stdin when an argument is "-", and a second streaming loop that imports a different module path (`tl-go`).
