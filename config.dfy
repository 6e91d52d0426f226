/** jenai's configuration, as `go/ai/config/config.go` checks it and turns it
    into a prompt. */
module Config {
  import opened Wrappers
  import opened Str
  import Prompts
  import Eval
  import ContextBuilder
  import PromptAssembly
  import Session

  /** What `BuildPrompt` reaches outside the configuration: the template
      engine and its fuel, the output of `xclip -o -selection clipboard`, and
      the files the context reads. */
  datatype Host = Host(
    eng: Eval.Engine,
    fuel: nat,
    xclip: Result<string>,
    world: ContextBuilder.World)

  /** `readClipboard`. */
  function ReadClipboard(xclip: Result<string>): (r: Result<string>)
    ensures xclip.Ok? ==> r == xclip
    ensures xclip.Err? ==> r == Err(Wrap("failed to get clipboard content", xclip.error))
  {
    if xclip.Err? then Err(Wrap("failed to get clipboard content", xclip.error)) else xclip
  }

  /** The prompt-name shift of `ParseCLI`: in prompt mode the first positional
      argument names the prompt; the result is the prompt name and the
      remaining positional arguments. */
  function ShiftPromptName(promptMode: bool, promptName: string, args: seq<string>): (r: (string, seq<string>))
    ensures promptMode && args != [] ==> [r.0] + r.1 == args
    ensures !(promptMode && args != []) ==> r == (promptName, args)
  {
    if promptMode && |args| > 0 then
      assert [args[0]] + args[1..] == args;
      (args[0], args[1..])
    else (promptName, args)
  }

  /** The primary text and the positional arguments left after producing it:
      the clipboard under `--paste` (even with `--oneshot`), nothing under
      `--oneshot`, and otherwise the evaluated named prompt, whose
      `consume_args` drains the arguments. */
  function Primary(lib: Prompts.Library, host: Host, paste: bool, oneShot: bool,
                   promptName: string, positional: seq<string>): (r: (Result<string>, seq<string>))
    ensures paste ==> r == (ReadClipboard(host.xclip), positional)
    ensures !paste && oneShot ==> r == (Ok(""), positional)
    ensures r.1 == positional || r.1 == []
  {
    if paste then (ReadClipboard(host.xclip), positional)
    else if oneShot then (Ok(""), positional)
    else
      var o := Eval.EvalPrompt(lib, host.eng, host.fuel, promptName, Eval.State(positional, None));
      (o.res, o.st.args)
  }

  function PathNames(items: seq<ContextBuilder.PathItem>): (r: seq<string>)
    ensures |r| == |items|
    ensures forall i :: 0 <= i < |items| ==> r[i] == items[i].path
  {
    seq(|items|, i requires 0 <= i < |items| => items[i].path)
  }

  /** What `BuildPrompt` returns, with the positional arguments it leaves. */
  function BuildPromptSpec(lib: Prompts.Library, host: Host, context: ContextBuilder.Context,
                           paste: bool, oneShot: bool, promptName: string, positional: seq<string>)
    : (r: (Result<PromptAssembly.Prompt>, seq<string>))
    ensures r.1 == Primary(lib, host, paste, oneShot, promptName, positional).1
    ensures r.0.Ok? ==> r.0.value.clipboard == "" && r.0.value.stdin == ""
    ensures r.0.Ok? ==> r.0.value.positional == Join(r.1, " ")
    ensures r.0.Ok? ==> r.0.value.contextAbove == context.above
    ensures r.0.Ok? <==>
      Primary(lib, host, paste, oneShot, promptName, positional).0.Ok? && ContextBuilder.BuildSpec(context, host.world).Ok?
    ensures Primary(lib, host, paste, oneShot, promptName, positional).0.Ok? && ContextBuilder.BuildSpec(context, host.world).Err? ==>
      r.0 == Err(ContextBuilder.BuildSpec(context, host.world).error)
    ensures r.0.Ok? ==> r.0.value.primary == Primary(lib, host, paste, oneShot, promptName, positional).0.value
    ensures r.0.Ok? ==> r.0.value.context == ContextBuilder.BuildSpec(context, host.world).value
    ensures r.0.Ok? ==> r.0.value.paths == PathNames(ContextBuilder.AllPaths(context, host.world.walk))
  {
    var (primary, rest) := Primary(lib, host, paste, oneShot, promptName, positional);
    if primary.Err? then (Err(primary.error), rest)
    else
      var built := ContextBuilder.BuildSpec(context, host.world);
      if built.Err? then (Err(built.error), rest)
      else
        var paths := PathNames(ContextBuilder.AllPaths(context, host.world.walk));
        (Ok(PromptAssembly.Prompt(built.value, context.above, "", paths, Join(rest, " "), primary.value, "")), rest)
  }

  /** The zero `Metadata` `Session` returns beside an error. */
  const NoMetadata: Session.Metadata := Session.Metadata("", "", false)

  /** What `Session` returns, with the metadata it leaves behind. */
  function SessionSpec(m: Session.Metadata, env: Session.Env): (r: ((Session.Metadata, Option<Error>), Session.Metadata))
    ensures m.dir != "" ==> r == ((m, None), m)
  {
    if m.dir == "" then
      var (m', e) := Session.PrepareSpec(m, env);
      if e.Some? then ((NoMetadata, e), m') else ((m', None), m')
    else ((m, None), m)
  }

  /** `Jenai`: the options that shape the prompt and the session. */
  class Jenai {
    var context: ContextBuilder.Context
    var dryRun: bool
    var oneShot: bool
    var paste: bool
    var positional: seq<string>
    var promptName: string
    const session: Session.SessionMetadata
    var rawPositional: seq<string>

    /** The options as the flags set them, before `ParseCLI` reads the
        positional arguments. */
    constructor (context: ContextBuilder.Context, dryRun: bool, oneShot: bool, paste: bool,
                 promptName: string, session: Session.SessionMetadata)
      ensures this.context == context && this.dryRun == dryRun && this.oneShot == oneShot
      ensures this.paste == paste && this.promptName == promptName && this.session == session
      ensures positional == [] && rawPositional == []
    {
      this.context := context;
      this.dryRun := dryRun;
      this.oneShot := oneShot;
      this.paste := paste;
      this.promptName := promptName;
      this.session := session;
      positional := [];
      rawPositional := [];
    }

    /** `PromptMode`: neither `--oneshot` nor `--paste`. */
    predicate PromptMode()
      reads this
    {
      !oneShot && !paste
    }

    /** `ParseCLI`, given what the flag parser made of the command line: its
        error, or the positional arguments. */
    method ParseCLI(parsed: Result<seq<string>>) returns (err: Option<Error>)
      modifies this
      ensures parsed.Err? ==> err == Some(parsed.error) && unchanged(this)
      ensures parsed.Ok? ==> err == None && rawPositional == parsed.value
      ensures parsed.Ok? ==> (promptName, positional) == ShiftPromptName(PromptMode(), old(promptName), parsed.value)
      ensures context == old(context) && oneShot == old(oneShot) && paste == old(paste) && dryRun == old(dryRun)
    {
      if parsed.Err? {
        return Some(parsed.error);
      }
      positional := parsed.value;
      rawPositional := parsed.value;
      if PromptMode() && |positional| > 0 {
        promptName := positional[0];
        positional := positional[1..];
      }
      return None;
    }

    /** `Validate`: some positional argument, `--paste` or a session is needed. */
    function Validate(): (r: Option<Error>)
      reads this, session
      ensures r.Some? <==> !paste && rawPositional == [] && session.name == ""
      ensures r.Some? ==> r.value == Fail("No positional arguments provided")
    {
      if !paste && |rawPositional| == 0 && session.name == "" then Some(Fail("No positional arguments provided"))
      else None
    }

    /** `BuildPrompt`: the primary source, then the context, then the prompt. */
    method BuildPrompt(lib: Prompts.Library, host: Host) returns (r: Result<PromptAssembly.Prompt>)
      modifies this`positional
      ensures (r, positional) == BuildPromptSpec(lib, host, context, paste, oneShot, promptName, old(positional))
    {
      var primary: Result<string>;
      if paste {
        primary := ReadClipboard(host.xclip);
      } else if oneShot {
        primary := Ok("");
      } else {
        var ec := new Eval.EvalContext(lib, positional);
        primary := ec.Evaluate(host.eng, host.fuel, promptName);
        positional := ec.args;
      }
      if primary.Err? {
        return Err(primary.error);
      }
      var built := ContextBuilder.Build(context, host.world);
      if built.Err? {
        return Err(built.error);
      }
      var paths := PathNames(ContextBuilder.AllPaths(context, host.world.walk));
      return Ok(PromptAssembly.Prompt(built.value, context.above, "", paths, Join(positional, " "), primary.value, ""));
    }

    /** `Session`: prepares the metadata while its directory is unset, and
        returns the stored metadata. */
    method Session(env: Session.Env) returns (m: Session.Metadata, err: Option<Error>)
      modifies session
      ensures ((m, err), session.Snapshot()) == SessionSpec(old(session.Snapshot()), env)
    {
      if session.dir == "" {
        err := session.Prepare(env);
        if err.Some? {
          return NoMetadata, err;
        }
      }
      return session.Snapshot(), None;
    }
  }

  //////////////////////////////////////////////////////////////////////
  // Properties

  /** The session directory is never empty. */
  lemma SessionDirNotEmpty(g: Result<string>)
    ensures Session.SessionDir(g) != ""
  {
    var root := if g.Ok? then TrimSpace(g.value) else ".";
    var d := Session.PathJoin(root, ".jenai");
    assert Session.SessionDir(g) == Session.PathJoin(d, "session");
  }

  /** After a successful `Session` call, later calls return the same metadata
      and prepare nothing. */
  lemma SessionPreparesOnce(m: Session.Metadata, env: Session.Env, env2: Session.Env)
    requires SessionSpec(m, env).0.1.None?
    ensures var after := SessionSpec(m, env).1;
      SessionSpec(after, env2) == ((SessionSpec(m, env).0.0, None), after)
  {
    SessionDirNotEmpty(env.gitTopLevel);
  }

  /** A `/last` resolution that fails with a listing or `Info` error (rather
      than the nil dereference, where Go has already panicked) still sets the
      directory, so the next `Session` call returns metadata with an empty
      name and no error. */
  lemma SessionAfterFailedLast(m: Session.Metadata, env: Session.Env, env2: Session.Env)
    requires m.dir == "" && m.name == "/last"
    requires Session.MostRecentSessionSpec(env.readDir(Session.SessionDir(env.gitTopLevel))).Err?
    requires Session.MostRecentSessionSpec(env.readDir(Session.SessionDir(env.gitTopLevel))).error != NilDereference
    ensures SessionSpec(m, env).0.1.Some?
    ensures var after := SessionSpec(m, env).1;
      SessionSpec(after, env2).0 == (Session.Metadata(Session.SessionDir(env.gitTopLevel), "", true), None)
  {
    SessionDirNotEmpty(env.gitTopLevel);
  }

  /** `Validate` lets `--paste` and `--oneshot` through together, and passes
      whenever a session is named. */
  lemma ValidateAcceptsPasteWithOneShot(j: Jenai)
    requires j.paste && j.oneShot
    ensures j.Validate() == None
  {
  }

  /** In prompt mode the first positional argument names the prompt and is not
      passed on; nothing is lost. */
  lemma ShiftKeepsArguments(promptName: string, args: seq<string>)
    requires args != []
    ensures ShiftPromptName(true, promptName, args).0 == args[0]
    ensures ShiftPromptName(true, promptName, args).1 == args[1..]
    ensures ShiftPromptName(false, promptName, args) == (promptName, args)
  {
  }

  /** In prompt mode, arguments a template consumed with `consume_args` are
      not repeated in the Positional field. */
  lemma ConsumedArgumentsNotRepeated(lib: Prompts.Library, host: Host, context: ContextBuilder.Context,
                                     promptName: string, positional: seq<string>)
    requires Eval.EvalPrompt(lib, host.eng, host.fuel, promptName, Eval.State(positional, None)).st.args == []
    ensures var r := BuildPromptSpec(lib, host, context, false, false, promptName, positional);
      r.0.Ok? ==> r.0.value.positional == ""
  {
  }

  /** The primary part is the clipboard under `--paste` (whatever `--oneshot`
      says), empty under `--oneshot` alone, the evaluated prompt otherwise;
      a failure there is returned before any context is read. */
  lemma PrimarySource(lib: Prompts.Library, host: Host, context: ContextBuilder.Context,
                      paste: bool, oneShot: bool, promptName: string, positional: seq<string>)
    ensures var r := BuildPromptSpec(lib, host, context, paste, oneShot, promptName, positional);
      var p := Primary(lib, host, paste, oneShot, promptName, positional).0;
      (p.Err? ==> r.0 == Err(p.error)) &&
      (r.0.Ok? ==> r.0.value.primary == p.value) &&
      (paste && r.0.Ok? ==> r.0.value.primary == host.xclip.value) &&
      (!paste && oneShot && r.0.Ok? ==> r.0.value.primary == "") &&
      (!paste && !oneShot ==> p == Eval.EvalPrompt(lib, host.eng, host.fuel, promptName, Eval.State(positional, None)).res)
  {
  }

  /** Without any file or directory the context is still the bare header, and
      it reaches the prompt: `String` then always carries it. */
  lemma HeaderOnlyContextReachesPrompt(lib: Prompts.Library, host: Host, context: ContextBuilder.Context,
                                       paste: bool, oneShot: bool, promptName: string, positional: seq<string>)
    requires ContextBuilder.Empty(context)
    ensures var r := BuildPromptSpec(lib, host, context, paste, oneShot, promptName, positional);
      r.0.Ok? ==> r.0.value.context == ContextBuilder.Header && r.0.value.paths == []
  {
  }
}
