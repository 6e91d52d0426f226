# jenai prompt composition and sessions, in Dafny

This project models the core of `jenai`, a command-line front end that builds a prompt for a
language model and keeps chat sessions on disk. The model covers these parts:

- the assembly of the final prompt (`config/prompt.go`) from the positional arguments, a primary
  text, the clipboard, standard input and a block of file context placed above or below;
- the evaluation of named prompt templates (`prompts/eval.go`). Its builtins are `strings`, `join`,
  `git`, `consume_args` (which drains the positional arguments once) and the fragment calls
  `per`, `ins` and `sec1`;
- the file-context builder (`config/context.go`): a header, then every file and every file under
  every directory framed between `START OF` / `END OF` markers, optionally numbered line by line;
- session naming (`config/session.go`). A session gets a fresh time-stamped name, the `/last`
  session found in the session directory, or an explicit name. It has a path and is loaded from
  YAML;
- the configuration rules (`config/config.go`): prompt mode, the prompt-name shift, validation,
  the choice of primary source, and `Session` preparing the metadata once;
- the prompt library lookup with its call-once memoiser, the model table, the error-wrapping
  helpers, the legacy prompt table, and the legacy `main` validation.

Each Go file is one module. Go `(T, error)` results are `Result<T>`. Go errors are the `Error`
datatype, whose `Wrap` case keeps the cause that `%w` keeps for `errors.Unwrap`. State that the
Go code updates in place has a class beside the pure specification it is proved against:

- `EvalContext`;
- the context buffer;
- `SessionMetadata`;
- `Jenai`;
- the `onceErr` memo;
- the `*error` of `utils.Wrap`;
- the legacy `Config`.

Everything outside the program is a parameter:

- files, URLs and directory walks (`ContextBuilder.World`);
- git, the clock, the session directory listing and `os.Stat` (`Session.Env`);
- the clipboard;
- the template parser (`Eval.Engine`).

Points where the code differs from what its names or comments suggest, modelled as written:

- `mostRecent` keeps a session only when it is strictly older. `/last` therefore resolves to the
  oldest `.yaml` session, the first one listed among equal times (`Session.MostRecentIsOldest`).
- With no `.yaml` entry, `mostRecentSession` calls `Name()` on a nil `fs.FileInfo`. The model
  returns this as the error `Wrappers.NilDereference` (`Session.NoSessionDereferencesNil`).
- `Context.Build` returns two results, but `BuildPrompt` destructures three (`paths`). The model
  takes `Paths` to be the names `allPaths` yields.
- `BuildPrompt` calls `Build` without checking `Empty`. The bare header therefore reaches the
  prompt (`Config.HeaderOnlyContextReachesPrompt`).
- `Validate` accepts `--paste` together with `--oneshot`; only the legacy `main` rejects them.
  Under both flags the clipboard wins (`Config.ValidateAcceptsPasteWithOneShot`,
  `Config.PrimarySource`).
- After a failed `/last` resolution, `prepare` has already set the directory. The next
  `Session()` call therefore returns the metadata with an empty name and no error
  (`Config.SessionAfterFailedLast`).
- `NewEvalContext` leaves the template nil; only `Evaluate` creates one. As the code reads,
  `execute` on a fresh context therefore dereferences nil in `ctx.tmpl.Parse`, and so do the
  package's own tests that call `eval.tmpl.Funcs` or `ctx.execute` on a fresh context
  (`go/ai/prompts/prompts_test.go:65-66` and `:91-92`). The model returns the error
  `Wrappers.NilDereference` (`Eval.Exec`, `Eval.EvalContext.Execute`).
- The legacy `main` prints `Error: ` in front of messages that already start with `Error: `
  (`LegacyMain.DoubledErrorPrefix`).

## Model

| member | source | states |
|---|---|---|
| PromptAssembly.StaticParts | go/ai/config/prompt.go:38-57 | `static` keeps at most four parts, and none exactly when the prompt is `Empty` (clipboard, positional, primary and stdin all empty) |
| PromptAssembly.StaticPartsFilter | go/ai/config/prompt.go:38-57 | `static` is exactly the non-empty strings of positional, primary, clipboard, stdin, in that order |
| PromptAssembly.NonEmpty | go/ai/config/prompt.go:38-57 | the filter keeps only non-empty strings, and yields nothing exactly when every input is empty |
| PromptAssembly.Static | go/ai/config/prompt.go:60-62 | `Static` is empty exactly when the prompt is `Empty` |
| PromptAssembly.Empty | go/ai/config/prompt.go:29-31 | by definition: clipboard, positional, primary and stdin are all empty (the context is not looked at) |
| PromptAssembly.StaticIgnoresContext | go/ai/config/prompt.go:29-31 | `Empty` and `Static` do not depend on the context, its position or the paths; every static part is one of the four text fields |
| PromptAssembly.AddContext | go/ai/config/prompt.go:64-76 | an empty context leaves the parts unchanged; otherwise the list grows by one, with the context first when above and last when below, and the other parts in their order |
| PromptAssembly.StringWithoutContext | go/ai/config/prompt.go:34-36 | without context, `String` equals `Static` |
| PromptAssembly.StringContextAbove | go/ai/config/prompt.go:34-36 | a context above is followed by a blank line and `Static` (or stands alone when the prompt is `Empty`) |
| PromptAssembly.StringContextBelow | go/ai/config/prompt.go:34-36 | a context below follows `Static` and a blank line (or stands alone when the prompt is `Empty`) |
| PromptAssembly.String | go/ai/config/prompt.go:34-36 | the prompt text is empty exactly when the prompt is `Empty` and has no context |
| PromptAssembly.FullPromptExample | go/ai/config/prompt.go:34-76 | with all four parts set and the context below, the prompt is positional, primary, clipboard, stdin and context, in that order, separated by blank lines |
| Str.JoinSnoc | go/ai/config/prompt.go:60-62 | joining one more part adds exactly one separator and the part |
| Str.JoinConcat | go/ai/config/prompt.go:34-36 | joining two non-empty lists puts exactly one separator between their joins |
| Eval.StringsFlat | go/ai/prompts/eval.go:91-113 | a failure of `stringsFlat` is a `cannot flatten …` error |
| Eval.StringsFlatOkIff | go/ai/prompts/eval.go:91-113 | `stringsFlat` succeeds exactly when every argument is a string, a `[]string` or a `[]any` of such values at every depth |
| Eval.StringsFlatConcat | go/ai/prompts/eval.go:94-112 | flattening is left to right: the flattening of a concatenation is the concatenation of the flattenings, and the first failure wins with no partial result |
| Eval.StringsFlatOfStrings | go/ai/prompts/eval.go:96-97 | plain strings flatten to themselves |
| Eval.JoinStrings | go/ai/prompts/eval.go:86-88 | by definition `strings.Join(elems, sep)`; `Str.JoinSnoc` and `Str.JoinConcat` state what it produces |
| Eval.GitCommand | go/ai/prompts/eval.go:70-83 | a flattening error is returned without running git; otherwise the result succeeds exactly when git does and is git's output |
| Eval.GitFlattenFailure | go/ai/prompts/eval.go:71-74 | an integer argument makes `git` fail with the flattening error |
| Eval.Consume | go/ai/prompts/eval.go:121-129 | a non-empty cursor is returned whole and left empty; an empty one fails with `no positional arguments` |
| Eval.EvalContext.ConsumeArgs | go/ai/prompts/eval.go:121-129 | the method returns the whole cursor and empties it, or fails with `no positional arguments` on an empty cursor |
| Eval.SecondConsumeFails | go/ai/prompts/eval.go:122-124 | a second `consume_args` in one evaluation fails, and the cursor stays drained |
| Eval.Persona | go/ai/prompts/eval.go:132-139 | an unknown persona fails with `unknown persona: <name>` and changes nothing; the cursor is kept or drained |
| Eval.Instruction | go/ai/prompts/eval.go:142-149 | an unknown instruction fails with `unknown instruction: <name>` and changes nothing |
| Eval.Section1 | go/ai/prompts/eval.go:152-159 | an unknown section fails with `unknown section1: <name>` and changes nothing |
| Eval.UnknownFragmentFails | go/ai/prompts/eval.go:132-159 | a fragment call naming an unknown fragment fails the evaluation with `error calling <fn>` wrapping `unknown <category>: <name>` |
| Eval.UnknownFragmentCall | go/ai/prompts/eval.go:132-159 | calling `per`, `ins` or `sec1` with an unknown name fails with `error calling <fn>` wrapping `unknown <category>: <name>` and leaves the state as it was |
| Eval.PersonaExample | go/ai/prompts/eval.go:132-139 | `per "A" "bob"` runs persona A behind the `# Persona` header with the call's arguments as its input |
| Eval.PersonaBodyExample | go/ai/prompts/eval.go:132-139 | persona A's template run on `["bob"]` yields the `# Persona` header followed by `hi bob` |
| Eval.EvalPrompt | go/ai/prompts/eval.go:27-35 | an unknown prompt fails with the library's error before any template exists; the cursor is only ever kept or drained |
| Eval.LiteralPrompt | go/ai/prompts/eval.go:27-35 | a prompt whose source is plain text evaluates to that text and leaves the cursor alone |
| Eval.Exec | go/ai/prompts/eval.go:51-64 | parsing into a nil template is the nil dereference; a parse error leaves a nil template and is returned; the cursor is only ever kept or drained |
| Eval.RunNodes | go/ai/prompts/eval.go:58-63 | executing a template keeps or drains the cursor; `RunNodesConcat` states the order and the first-error stop |
| Eval.EvalExpr | go/ai/prompts/eval.go:37-48 | a call of a registered function with the wrong number of arguments fails with the engine's count error before any argument is evaluated, leaving the state as it was |
| Eval.EvalArg | go/ai/prompts/eval.go:37-48 | an argument that evaluates is of its parameter's Go type |
| Eval.EvalArgs | go/ai/prompts/eval.go:37-48 | arguments are evaluated left to right; on success there is one value per argument, each of its parameter's type |
| Eval.Conform | go/ai/prompts/eval.go:37-48 | a value of the parameter's type passes unchanged; the only other value that passes is nil, as the empty `[]string` |
| Eval.ArityError | go/ai/prompts/eval.go:37-48 | a count is refused exactly when it differs from a non-variadic signature's or falls short of a variadic one's fixed parameters |
| Eval.CallFunction | go/ai/prompts/eval.go:70-129 | `consume_args` drains the cursor and fails exactly on an empty one; `join` joins its list with its separator; `strings` and `git` succeed exactly when `stringsFlat` and `gitCommand` do; only `consume_args` changes the state |
| Eval.CallFragment | go/ai/prompts/eval.go:132-159 | a fragment call keeps or drains the cursor |
| Eval.ConsumeCall | go/ai/prompts/eval.go:121-129 | `{{ consume_args }}` yields the whole cursor and drains it, or fails with `error calling consume_args` wrapping `no positional arguments` |
| Eval.ArityCheckedFirst | go/ai/prompts/eval.go:37-48 | a call with a wrong argument count fails with the count error whatever its arguments would do |
| Eval.JoinMissingArgumentKeepsCursor | go/ai/prompts/eval.go:86-88 | `join (consume_args)` fails with `want 2 got 1` and leaves the cursor untouched |
| Eval.NilJoinsEmpty | go/ai/prompts/eval.go:86-88 | `join sep .` on a nil input joins the empty list, giving the empty text |
| Eval.NilStringRefused | go/ai/prompts/eval.go:86-88 | a nil input passed as `join`'s separator fails with `invalid value; expected string` |
| Eval.RunNodesConcat | go/ai/prompts/eval.go:58-63 | running concatenated templates runs the first, then the second from the state the first left; the first error stops everything |
| Eval.EvalContext.Execute | go/ai/prompts/eval.go:51-64 | on a nil template the call fails with the nil dereference and changes nothing; otherwise the template field becomes the parsed source (nil on a parse error), and the result and new state are those of `Exec` |
| Eval.EvalContext.Evaluate | go/ai/prompts/eval.go:27-35 | the result and new state are those of `EvalPrompt`; an unknown prompt returns the lookup error and changes nothing |
| Eval.EvalContext.constructor | go/ai/prompts/eval.go:19-24 | a new context holds a copy of the given cursor and has no template |
| ContextBuilder.AllPaths | go/ai/config/context.go:51-65 | all files in list order, each without error, then each directory's walk; nothing for an `Empty` context |
| ContextBuilder.Empty | go/ai/config/context.go:28 | by definition: no file and no directory |
| ContextBuilder.IterFiles | go/ai/config/context.go:152-175 | at most one item per walk event |
| ContextBuilder.Yield | go/ai/config/context.go:154-172 | one walk event yields at most one item |
| ContextBuilder.IterFilesOne | go/ai/config/context.go:154-172 | a single event yields what `Yield` says: its error with its path, nothing for a directory, else its path |
| ContextBuilder.IterFilesConcat | go/ai/config/context.go:152-175 | items come in walk order: the items of two successive stretches of the walk are those of the first, then those of the second |
| ContextBuilder.IterFilesMembers | go/ai/config/context.go:152-175 | a clean path is yielded exactly for a non-directory event without error; every reported error is yielded with its path |
| ContextBuilder.DirItemsSnoc | go/ai/config/context.go:58-64 | one more directory appends its walk after those of the earlier directories |
| ContextBuilder.IsURLIff | go/ai/config/context.go:122-125 | a path is a URL exactly when it parses, its host is non-empty and its scheme is `http` or `https` |
| ContextBuilder.IsURL | go/ai/config/context.go:122-125 | by definition the parsed URL has a non-empty host and an `http` or `https` scheme; `IsURLIff` states it |
| ContextBuilder.ReadContent | go/ai/config/context.go:107-119 | by definition a URL is downloaded and any other path opened |
| ContextBuilder.DownloadContent | go/ai/config/context.go:128-140 | the body is returned exactly when the request succeeds with status 200; every failure reads `failed to download URL <u>…`, and a request error is kept as the cause |
| ContextBuilder.NumberedLines | go/ai/config/context.go:86-92 | line `k` of the numbered text is the number `first + k`, `: ` and the source line |
| ContextBuilder.NumberedSnoc | go/ai/config/context.go:89-92 | numbering one more line appends exactly that line's rendering |
| ContextBuilder.LinesOfTerminated | go/ai/config/context.go:87-89 | scanning newline-terminated lines gives back those lines |
| ContextBuilder.LinesOfNumbered | go/ai/config/context.go:86-92 | reading the numbered text back line by line gives each source line behind its number |
| ContextBuilder.NumberedBody | go/ai/config/context.go:86-101 | with `--linum` a newline-terminated text is rewritten line by line from 1; without, it is copied verbatim |
| ContextBuilder.LinesOfUnterminated | go/ai/config/context.go:87-89 | a final line without a newline is still scanned as a line of its own |
| ContextBuilder.NumberedBodyUnterminated | go/ai/config/context.go:86-92 | with `--linum`, a final line without a newline is numbered like the others, and gains a newline |
| ContextBuilder.FileContentFraming | go/ai/config/context.go:77-105 | a path fails exactly when opening or reading it fails; on success the start marker, the body and the end marker are appended; an open error is wrapped as `error reading content from <p>` and nothing is written |
| ContextBuilder.FileContentSpec | go/ai/config/context.go:77-105 | by definition the text `fileContent` appends and the error it returns; `FileContentFraming` states its cases |
| ContextBuilder.WriteNumbered | go/ai/config/context.go:86-92 | the numbering loop appends the numbered text to the buffer |
| ContextBuilder.FileContent | go/ai/config/context.go:77-105 | the buffer grows by what `FileContentSpec` says, and the error is the one it says |
| ContextBuilder.WriteFrames | go/ai/config/context.go:37-45 | the loop fails exactly when some item's frame fails, with the first error; otherwise the buffer grows by every frame in order |
| ContextBuilder.Frame | go/ai/config/context.go:37-45 | by definition one item's walk error, or its `FileContentSpec` text or error |
| ContextBuilder.Frames | go/ai/config/context.go:37-45 | by definition the frames of all items in order, up to the first error; `FramesStopAtError` and `BuildOkIff` state it |
| ContextBuilder.FramesStopAtError | go/ai/config/context.go:37-45 | once an item fails, later items change nothing |
| ContextBuilder.BuildSpec | go/ai/config/context.go:33-48 | the output starts with the header, and is the bare header when no path is yielded (in particular for an `Empty` context); every error reads `failed to build file context: …` with the cause flattened |
| ContextBuilder.Build | go/ai/config/context.go:33-48 | `Build` returns what `BuildSpec` says |
| ContextBuilder.BuildOkIff | go/ai/config/context.go:33-48 | `Build` succeeds exactly when every yielded path comes without a walk error and reads cleanly |
| ContextBuilder.TwoFilesExample | go/ai/config/context.go:33-105 | two local files are framed one after the other below the header |
| ContextBuilder.NumberingExample | go/ai/config/context.go:88-91 | three lines are numbered `1: `, `2: `, `3: `, each ending with a newline |
| Session.SessionDir | go/ai/config/session.go:89-99 | without git the session directory is `.jenai/session` |
| Session.PathJoin | go/ai/config/session.go:56 | by definition `filepath.Join` of a directory and a clean name: empty and `.` directories are dropped |
| Session.CandidateInjective | go/ai/config/session.go:103-114 | distinct counters give distinct names |
| Session.ProbeInjective | go/ai/config/session.go:107 | distinct counters probe distinct paths |
| Session.ProbeSetSize | go/ai/config/session.go:106-115 | the first `n` tries probe `n` different paths, so the model's loop ends when the set of existing paths is finite |
| Session.FreeNameIsFirstFree | go/ai/config/session.go:102-116 | the chosen name is the first try whose file does not exist, and every earlier try exists |
| Session.FreeName | go/ai/config/session.go:102-116 | by definition the first free try from `k`; `FreeNameIsFirstFree` states it |
| Session.UniqueFilePrefix | go/ai/config/session.go:102-116 | the loop returns a name whose file does not exist, namely the first free try |
| Session.MostRecent | go/ai/config/session.go:140-151 | an `Info` error is returned; otherwise the result is the entry or the reference, no later than either, and differs from the reference only when strictly older |
| Session.MostRecentSessionSpec | go/ai/config/session.go:118-138 | a listing error is returned as is |
| Session.MostRecentSession | go/ai/config/session.go:118-138 | the loop returns what `MostRecentSessionSpec` says for the listing |
| Session.FoldOkIff | go/ai/config/session.go:126-135 | the fold succeeds exactly when every `.yaml` file entry has its info |
| Session.Fold | go/ai/config/session.go:126-135 | a fold started from a session ends on a session when it succeeds |
| Session.FoldEmptyIff | go/ai/config/session.go:124-135 | the fold finds nothing exactly when no entry is a `.yaml` file |
| Session.FoldOldest | go/ai/config/session.go:126-151 | the fold ends on the entry with the smallest modification time, the first among ties |
| Session.MostRecentIsOldest | go/ai/config/session.go:118-151 | `/last` names the oldest `.yaml` file (the first listed among ties), without its suffix |
| Session.NoSessionDereferencesNil | go/ai/config/session.go:137 | with no `.yaml` file, the result is the nil-dereference error |
| Session.LastSessionExample | go/ai/config/session.go:118-151 | of `b.yaml` (time 20), a directory and `a.yaml` (time 10), `a` is chosen |
| Session.PrepareSpec | go/ai/config/session.go:31-52 | the directory is always set; an empty name mints one with `Requested` false; any other name sets `Requested`; an explicit name is kept, and a resolved `/last` becomes the found session's name; all three then report the `MkdirAll` result |
| Session.PrepareMintsFreeName | go/ai/config/session.go:36-38 | a minted name never names an existing session file |
| Session.PrepareLastErrorSkipsMkdir | go/ai/config/session.go:39-44 | a `/last` resolution error is returned as is, before and regardless of the directory creation, leaving the directory set and the name empty |
| Session.SessionMetadata.Prepare | go/ai/config/session.go:31-52 | the new fields and the error are those of `PrepareSpec` |
| Session.SessionMetadata.Path | go/ai/config/session.go:55-57 | the path is `<Dir>/<Name>.yaml` for a proper directory |
| Session.SessionMetadata.Load | go/ai/config/session.go:75-83 | a read error is returned unwrapped; a decode error gives the empty conversation and `failed to load session <path> from YAML` wrapping it; otherwise the decoded conversation |
| Session.SessionMetadata.constructor | go/ai/config/session.go:20-27 | new metadata carries only the requested name |
| Config.ShiftPromptName | go/ai/config/config.go:72-76 | in prompt mode with arguments, the prompt name and the rest rebuild the arguments; otherwise nothing changes |
| Config.ShiftKeepsArguments | go/ai/config/config.go:69-76 | in prompt mode the first argument becomes the prompt name and the rest stay positional; outside it the arguments are untouched |
| Config.Jenai.PromptMode | go/ai/config/config.go:148-150 | by definition neither `--oneshot` nor `--paste` is set |
| Config.Jenai.ParseCLI | go/ai/config/config.go:64-79 | a parse error is returned with nothing changed; otherwise the raw arguments are kept whole and the name is shifted as `ShiftPromptName` says |
| Config.Jenai.Validate | go/ai/config/config.go:82-89 | validation fails, with `No positional arguments provided`, exactly when there is no `--paste`, no raw argument and no session name |
| Config.ValidateAcceptsPasteWithOneShot | go/ai/config/config.go:82-89 | `--paste` with `--oneshot` passes validation |
| Config.ReadClipboard | go/ai/config/config.go:156-164 | the clipboard text, or `failed to get clipboard content` wrapping the command's error |
| Config.Primary | go/ai/config/config.go:97-108 | `--paste` reads the clipboard even with `--oneshot`; `--oneshot` alone gives the empty text; the arguments are only ever kept or drained |
| Config.BuildPromptSpec | go/ai/config/config.go:95-127 | the prompt is built exactly when the primary source and the context both succeed; a context error is returned after the primary source ran; on success the primary and context fields are those results, the paths are the names `allPaths` yields, the clipboard and stdin fields are empty, the positional field joins the arguments left after evaluation, and the context position is the option's |
| Config.PrimarySource | go/ai/config/config.go:97-111 | a primary-source error is returned before any context is read; the primary field is the clipboard under `--paste`, empty under `--oneshot`, the evaluated prompt otherwise |
| Config.ConsumedArgumentsNotRepeated | go/ai/config/config.go:95-127 | arguments a template consumed are not repeated in the positional field |
| Config.HeaderOnlyContextReachesPrompt | go/ai/config/config.go:113-121 | with no file and no directory, the prompt's context is the bare header and it lists no paths |
| Config.Jenai.BuildPrompt | go/ai/config/config.go:95-127 | the result and the arguments left are those of `BuildPromptSpec` |
| Config.SessionSpec | go/ai/config/config.go:133-141 | once the directory is set, the stored metadata is returned unchanged with no error |
| Config.SessionPreparesOnce | go/ai/config/config.go:133-141 | after a successful call, later calls return the same metadata without preparing again |
| Config.SessionAfterFailedLast | go/ai/config/config.go:133-141 | after a `/last` resolution that failed with a listing or `Info` error, the next call returns metadata with an empty name and no error |
| Config.Jenai.Session | go/ai/config/config.go:133-141 | the result and the stored metadata are those of `SessionSpec` |
| Config.Jenai.constructor | go/ai/config/config.go:14-31 | a new configuration carries the flag values and no positional argument |
| Prompts.RawPrompt | go/ai/prompts/prompts.go:30-37 | the stored source exactly for a known name, else `unknown prompt: <name>` |
| Prompts.UnknownPromptMessagesDiffer | go/ai/prompts/prompts.go:32-34 | the library's unknown-prompt message differs from the legacy table's |
| Prompts.FromYAML | go/ai/prompts/prompts.go:24-27 | a decode error gives the zero library and `failed to load prompt library from YAML` wrapping it |
| Prompts.OnceErr.Get | go/ai/prompts/prompts.go:42-55 | the first call stores and returns what `mk` produces; later calls return the stored pair, a cached error included, without calling `mk` |
| Prompts.OnceErrStable | go/ai/prompts/prompts.go:42-55 | two calls return the same pair, and `mk` ran once |
| Prompts.OnceErr.constructor | go/ai/prompts/prompts.go:42-55 | a new memo holds nothing and has not called `mk` |
| Models.ParseAichat | go/ai/models/models.go:31-33 | a parsed identifier reassembles into the string it came from |
| Models.Aichat | go/ai/models/models.go:31-33 | by definition `provider:author/model`; `AichatRoundTrip` reads it back |
| Models.AichatRoundTrip | go/ai/models/models.go:31-33 | the identifier `provider:author/model` reads back to the spec's provider, author and model |
| Models.ModelSpecsWellFormed | go/ai/models/models.go:18-28 | every entry is filed under its own name and served by `openrouter` |
| Models.ModelSpecsRoundTrip | go/ai/models/models.go:18-33 | every identifier the table produces reads back to its entry |
| Models.CodestralIdentifier | go/ai/models/models.go:19 | `codestral` is `openrouter:mistralai/codestral-2501` |
| Utils.FromYAML | go/utils/utils.go:13-21 | a decode error gives the zero value; otherwise the decoded value |
| Utils.FromYAMLFile | go/utils/utils.go:24-32 | a read error is returned with the zero value, without decoding |
| Utils.Wrapf | go/utils/utils.go:36-42 | the value is passed through unchanged; a nil error stays nil; a non-nil one reads prefix, `: `, original, and unwraps to it |
| Utils.WrapError | go/utils/utils.go:46-52 | a nil pointer or nil error is left alone; otherwise the error is replaced by its prefixed wrapping |
| Utils.ErrorVar.constructor | go/utils/utils.go:46 | the variable holds the given error |
| LegacyPrompts.Raw | go/prompts/prompts.go:31-38 | the stored prompt exactly for a known name, else `unknown prompt <name>` |
| LegacyPrompts.MapKeys | go/prompts/prompts.go:6-29 | the table holds exactly five prompts |
| LegacyMain.LegacyConfig.Validate | go/ai/jenai.go:82-109 | the outcome and the new fields are those of `Process` |
| LegacyMain.Process | go/ai/jenai.go:82-109 | by definition the outcome and configuration of validation; the `LegacyMain` lemmas below state its cases |
| LegacyMain.LegacyConfig.constructor | go/ai/jenai.go:13-27 | a configuration holds the given fields |
| LegacyMain.PasteOneShotFatalFirst | go/ai/jenai.go:83-85 | `--paste` with `--oneshot` is fatal first and changes nothing |
| LegacyMain.NoPositionalFatal | go/ai/jenai.go:88-90 | past that, the run stops with `No positional arguments provided` exactly when there is no `--paste`, no argument and no session |
| LegacyMain.PromptNameShift | go/ai/jenai.go:92-101 | in prompt mode the first argument becomes the prompt name, the rest stay; an unknown name is fatal with the `Raw` error; a known one sets the raw prompt |
| LegacyMain.NoShiftOutsidePromptMode | go/ai/jenai.go:92 | outside prompt mode the configuration is left as it was |
| LegacyMain.DryRunEmitsRawPrompt | go/ai/jenai.go:106-109 | dry-run mode, once validation passes, emits exactly the raw prompt and is the only way to do so |
| LegacyMain.FatalLine | go/ai/jenai.go:29-32 | `fatal` prints `Error: ` and the error's text |
| LegacyMain.DoubledErrorPrefix | go/ai/jenai.go:83-90 | both validation messages are printed with the prefix twice |
| Str.NatToStringInjective | go/ai/config/context.go:90 | distinct line numbers print differently |

## Left out

- Go's `text/template` engine is replaced by a small explicit template language and a parse
  oracle (`Eval.Engine.parse`). Template semantics (pipelines, `if`, `range`, variables,
  method calls) are not modelled, and neither are the engine's own functions (`len`, `index`,
  `print`, `printf`, `eq`, `and`, `or`, `not`, …): the model's parse check rejects them with
  `function "len" not defined`, where Go's parser accepts them. Nor is the engine's rule that a defined template is kept
  across `Parse` calls: each `Exec` replaces the template field.
- Fragment calls nest without bound in Go. The interpreter takes a `fuel` bound on the nesting
  and fails when it runs out, so unbounded recursion through fragments is not captured.
- External processes are parameters: `git` (the `git` builtin and `git rev-parse` in
  `sessionDir`) and `xclip`. So are the filesystem and the network: `os.Open`, `http.Get`,
  `filepath.Walk`, `os.ReadDir`, `os.Stat`, `os.MkdirAll` and `os.ReadFile`. So are the clock
  (`time.Now().Format`) and `url.Parse`.
- `uniqueFilePrefix` sees the filesystem as the set of paths for which `os.Stat` does not report
  "not exist"; a `Stat` error of another kind counts as existing, as in the source.
- Session.UniqueFilePrefix: in Go the loop never ends when every probe fails with an error other
  than "not exist" (for example, `.jenai` is a regular file, so every probe fails with ENOTDIR,
  or `.jenai/session` cannot be searched, so every probe fails with EACCES). `prepare` with an
  empty name then hangs before `MkdirAll` could report the error. The model takes the set of
  existing paths to be finite, so its loop always ends. `Session.ProbeSetSize`,
  `Session.FreeName` and `Session.PrepareMintsFreeName` hold only under that assumption.
- `Session.PathJoin` models `filepath.Join` only for empty and `.` components. It does not clean
  `..`, repeated or trailing separators.
- `bufio.Scanner` details are left out: lines are split on `\n` with a trailing empty segment
  dropped; CRLF stripping and the token-too-long error are not modelled. Text is a sequence of
  characters, not bytes.
- YAML and JSON (de)serialisation are a decoder parameter (`Utils.Decoded`). The legacy `main`'s
  JSON printing of the configuration is left out.
- Flag registration and parsing (`RegisterCLI`, `parser.Parse`, the legacy flag set) come from an
  external package: `Config.Jenai.ParseCLI` receives the parser's result. The `--list` action,
  printing and `os.Exit` are left out; `LegacyMain.Outcome` says how `main` leaves validation.
- The configuration fields that nothing here reads (`Interactive`, `Model`, `TeeFile`, and the
  context options of the legacy configuration) are left out.
- The call of `Name()` on a nil `fs.FileInfo`, and `Parse` on the nil template of a fresh
  `EvalContext`, panic in Go; the model returns both as the error `Wrappers.NilDereference`.
- Engine errors carry no `template: NAME:LINE:COL: executing "NAME" at <…>:` location prefix;
  the model keeps only the text after it (`error calling <fn>: …`, the count and type errors).
- In the engine's `can't handle` error a string constant is shown in Go's quoted form; the
  model writes it between plain `"` marks, with no escaping. Integer constants print as
  decimals.
- Of the engine's argument conversions only those the builtins' parameter types need
  (`string`, `[]string`, `any`) are modelled; a value is never converted between Go types.
- The thread safety of `sync.OnceValue` behind `onceErr`; only its call-once memo is modelled,
  with a ghost call counter.
- `Config.Jenai.BuildPrompt` shares `Positional` with the evaluation context through a pointer. The
  model copies the cursor into a fresh `EvalContext` and writes it back after evaluation, which
  gives the same final value because nothing else reads it meanwhile.
- Session.SessionDir: only the case without git is stated as a contract; with git the directory is
  the trimmed output joined with `.jenai/session` by definition.
- Eval.Persona, Eval.Instruction, Eval.Section1: the success case is stated by their definitions
  (header, source and input handed to `Exec`) and by `Eval.PersonaExample`, not as a general
  `ensures`.
