/** Model of go/ai/prompts/eval.go: evaluation of named prompt templates with a
    fixed namespace of builtins and a shared cursor over the positional arguments.

    Go's text/template engine is foreign to the model. It is replaced by a small
    explicit template language (literal text and actions that call builtins on
    literals, the template's input value and nested calls), an oracle that parses
    template sources into it, and an interpreter written here. Fragments may call
    fragments without bound in Go; the interpreter takes a `fuel` bound on the
    nesting depth of fragment calls. */
module Eval {
  import opened Wrappers
  import opened Str
  import opened Prompts

  /** The Go values that flow through a template: `string`, `[]string`, `[]any`,
      an integer constant and nil. */
  datatype Value = VStr(s: string) | VStrs(ss: seq<string>) | VList(items: seq<Value>) | VInt(i: int) | VNil

  /** What `%T` prints for a value. */
  function TypeName(v: Value): string
  {
    match v
    case VStr(_) => "string"
    case VStrs(_) => "[]string"
    case VList(_) => "[]interface {}"
    case VInt(_) => "int"
    case VNil => "<nil>"
  }

  /** What `fmt.Sprint` prints for a value. */
  function Sprint(v: Value): string
  {
    match v
    case VStr(s) => s
    case VStrs(ss) => "[" + Join(ss, " ") + "]"
    case VList(items) => "[" + Join(SprintAll(items), " ") + "]"
    case VInt(i) => IntToString(i)
    case VNil => "<nil>"
  }

  function SprintAll(items: seq<Value>): (r: seq<string>)
    ensures |r| == |items|
  {
    if items == [] then [] else [Sprint(items[0])] + SprintAll(items[1..])
  }

  /** What an action writes for its value: a nil value prints as `<no value>`. */
  function Render(v: Value): string
  {
    if v.VNil? then "<no value>" else Sprint(v)
  }

  /** Template expressions: a string or integer constant, the input value `.`,
      or a call of a builtin on argument expressions. */
  datatype Expr = Lit(s: string) | IntLit(i: int) | Dot | Call(fn: string, args: seq<Expr>)

  /** A template is literal text interleaved with actions that print a value. */
  datatype Node = Text(s: string) | Action(e: Expr)
  type Template = seq<Node>

  /** The foreign collaborators of the evaluation: the template parser and the
      `git` executable (its arguments to its standard output or its failure). */
  datatype Engine = Engine(parse: string -> Result<Template>, git: seq<string> -> Result<string>)

  /** The builtin namespace registered by `functions()`. */
  const Builtins: set<string> := {"git", "join", "strings", "ins", "per", "sec1", "consume_args"}

  /** The mutable part of an `EvalContext`: the positional-argument cursor and
      the engine's current template (`None` is a nil `*Template`). */
  datatype State = State(args: seq<string>, tmpl: Option<Template>)

  /** A result together with the state after producing it. */
  datatype Out<+T> = Out(res: Result<T>, st: State)

  /** The cursor either stays as it was or has been drained. */
  predicate ArgsKept(before: State, after: State)
  {
    after.args == before.args || after.args == []
  }

  //////////////////////////
  // Template functions //

  /** `stringsFlat`: strings are kept, `[]string` values spliced in, `[]any`
      values flattened recursively, left to right; any other value fails. */
  function StringsFlat(vs: seq<Value>): (r: Result<seq<string>>)
    ensures r.Err? ==> r.error.Fail? && HasPrefix(r.error.text, "cannot flatten ")
    decreases vs
  {
    if vs == [] then Ok([])
    else
      var head := FlatOne(vs[0]);
      if head.Err? then head
      else
        var tail := StringsFlat(vs[1..]);
        if tail.Err? then tail else Ok(head.value + tail.value)
  }

  /** What one argument of `stringsFlat` contributes. */
  function FlatOne(v: Value): (r: Result<seq<string>>)
    ensures r.Err? ==> r.error.Fail? && HasPrefix(r.error.text, "cannot flatten ")
    decreases v
  {
    match v
    case VStr(s) => Ok([s])
    case VStrs(ss) => Ok(ss)
    case VList(items) => StringsFlat(items)
    case _ => Err(Fail("cannot flatten " + TypeName(v) + " to []string"))
  }

  /** The values `stringsFlat` accepts at every depth. */
  predicate Flattenable(v: Value)
  {
    match v
    case VStr(_) => true
    case VStrs(_) => true
    case VList(items) => forall i :: 0 <= i < |items| ==> Flattenable(items[i])
    case _ => false
  }

  /** `joinStrings(sep, xs)` is `strings.Join(xs, sep)`. */
  function JoinStrings(sep: string, elems: seq<string>): string
  {
    Join(elems, sep)
  }

  /** `gitCommand`: a flattening error is returned before git runs; a git
      failure is wrapped with the flattened arguments. */
  function GitCommand(git: seq<string> -> Result<string>, vals: seq<Value>): (r: Result<string>)
    ensures StringsFlat(vals).Err? ==> r == Err(StringsFlat(vals).error)
    ensures StringsFlat(vals).Ok? ==> (r.Ok? <==> git(StringsFlat(vals).value).Ok?)
    ensures r.Ok? ==> r == git(StringsFlat(vals).value)
  {
    match StringsFlat(vals)
    case Err(e) => Err(e)
    case Ok(strargs) =>
      match git(strargs)
      case Err(e) => Err(Wrap("git " + Sprint(VStrs(strargs)) + " failed", e))
      case Ok(output) => Ok(output)
  }

  /** `consumeArgs` on the cursor: the whole sequence, leaving the cursor
      empty, or `no positional arguments` when there is nothing to take. */
  function Consume(args: seq<string>): (r: (Result<seq<string>>, seq<string>))
    ensures r.1 == []
    ensures args != [] <==> r.0.Ok?
    ensures r.0.Ok? ==> r.0.value == args
    ensures r.0.Err? ==> r.0.error == Fail("no positional arguments")
  {
    if |args| == 0 then (Err(Fail("no positional arguments")), args)
    else (Ok(args), [])
  }

  const PersonaHeader := "# Persona\n\n"
  const InstructionsHeader := "# Instructions\n\n"

  //////////////////
  // Evaluation //

  /** What `Evaluate` computes: an unknown prompt name fails with the library's error before
      any engine is made; otherwise a fresh engine executes the prompt's source
      with a nil input value. */
  function EvalPrompt(lib: Library, eng: Engine, fuel: nat, prompt: string, st: State): (o: Out<string>)
    ensures RawPrompt(lib, prompt).Err? ==> o == Out(Err(RawPrompt(lib, prompt).error), st)
    ensures ArgsKept(st, o.st)
  {
    match RawPrompt(lib, prompt)
    case Err(e) => Out(Err(e), st)
    case Ok(content) => Exec(lib, eng, fuel, content, VNil, st.(tmpl := Some([])))
  }

  /** Parsing a source, including the engine's check that every function
      named in it is defined. */
  function ParseChecked(eng: Engine, content: string): Result<Template>
  {
    match eng.parse(content)
    case Err(e) => Err(e)
    case Ok(t) =>
      match FirstUndefined(t)
      case Some(f) => Err(Fail("function \"" + f + "\" not defined"))
      case None => Ok(t)
  }

  function FirstUndefined(t: Template): Option<string>
    decreases t
  {
    if t == [] then None
    else
      var here := if t[0].Action? then FirstUndefinedExpr(t[0].e) else None;
      if here.Some? then here else FirstUndefined(t[1..])
  }

  function FirstUndefinedExpr(e: Expr): Option<string>
    decreases e
  {
    match e
    case Call(fn, args) => if fn !in Builtins then Some(fn) else FirstUndefinedArgs(args)
    case _ => None
  }

  function FirstUndefinedArgs(args: seq<Expr>): Option<string>
    decreases args
  {
    if args == [] then None
    else
      var here := FirstUndefinedExpr(args[0]);
      if here.Some? then here else FirstUndefinedArgs(args[1..])
  }

  /** `execute(content, dot)`: parse the source into the engine's template
      (a failed parse leaves a nil template) and run it on `dot`. Parsing
      into a nil template dereferences nil. */
  function Exec(lib: Library, eng: Engine, fuel: nat, content: string, dot: Value, st: State): (o: Out<string>)
    ensures ArgsKept(st, o.st)
    ensures st.tmpl.None? ==> o == Out(Err(NilDereference), st)
    ensures st.tmpl.Some? && ParseChecked(eng, content).Err? ==> o == Out(Err(ParseChecked(eng, content).error), st.(tmpl := None))
    decreases fuel, 4
  {
    if st.tmpl.None? then Out(Err(NilDereference), st)
    else
    match ParseChecked(eng, content)
    case Err(e) => Out(Err(e), st.(tmpl := None))
    case Ok(t) => RunNodes(lib, eng, fuel, t, dot, st.(tmpl := Some(t)))
  }

  /** Running a template: its pieces' output concatenated, or the first error. */
  function RunNodes(lib: Library, eng: Engine, fuel: nat, t: Template, dot: Value, st: State): (o: Out<string>)
    ensures ArgsKept(st, o.st)
    decreases fuel, 3, t
  {
    if t == [] then Out(Ok(""), st)
    else
      var first := RunNode(lib, eng, fuel, t[0], dot, st);
      if first.res.Err? then first
      else
        var rest := RunNodes(lib, eng, fuel, t[1..], dot, first.st);
        if rest.res.Err? then rest else Out(Ok(first.res.value + rest.res.value), rest.st)
  }

  /** Literal text is written as is; an action writes its value's rendering. */
  function RunNode(lib: Library, eng: Engine, fuel: nat, n: Node, dot: Value, st: State): (o: Out<string>)
    ensures ArgsKept(st, o.st)
    decreases fuel, 3, n
  {
    match n
    case Text(s) => Out(Ok(s), st)
    case Action(e) =>
      var v := EvalExpr(lib, eng, fuel, e, dot, st);
      if v.res.Err? then Out(Err(v.res.error), v.st) else Out(Ok(Render(v.res.value)), v.st)
  }

  /** The Go parameter types of the builtins, as the engine converts arguments
      to them: `string`, `[]string` and `any`. */
  datatype Param = PString | PStrings | PAny

  /** A builtin's Go signature: its fixed parameters and, when it is variadic,
      the element type of its last parameter. */
  datatype Signature = Signature(fixed: seq<Param>, variadic: Option<Param>)

  /** The signatures of the functions registered by `functions()`. */
  function SignatureOf(fn: string): Signature
  {
    if fn == "join" then Signature([PString, PStrings], None)
    else if fn == "git" || fn == "strings" then Signature([], Some(PAny))
    else if fn == "per" || fn == "ins" then Signature([PString], Some(PAny))
    else if fn == "sec1" then Signature([PString], Some(PString))
    else Signature([], None)
  }

  /** The argument count check the engine makes before evaluating any argument. */
  function ArityError(fn: string, n: nat): (r: Option<Error>)
    ensures var sig := SignatureOf(fn);
      r.None? <==> (if sig.variadic.Some? then n >= |sig.fixed| else n == |sig.fixed|)
  {
    var sig := SignatureOf(fn);
    if sig.variadic.Some? then
      if n < |sig.fixed| then Some(WrongArity(fn, "at least " + NatToString(|sig.fixed|), n)) else None
    else if n != |sig.fixed| then Some(WrongArity(fn, NatToString(|sig.fixed|), n))
    else None
  }

  /** The parameter the `i`th argument is converted to. */
  function ParamAt(sig: Signature, i: nat): Param
    requires i < |sig.fixed| || sig.variadic.Some?
  {
    if i < |sig.fixed| then sig.fixed[i] else sig.variadic.value
  }

  /** The parameters of a call with `n` arguments that passed the count check. */
  function Params(fn: string, n: nat): (r: seq<Param>)
    requires ArityError(fn, n).None?
    ensures |r| == n
    ensures forall i :: 0 <= i < n ==> r[i] == ParamAt(SignatureOf(fn), i)
  {
    seq(n, i requires 0 <= i < n => ParamAt(SignatureOf(fn), i))
  }

  /** A Go value of the parameter's type. */
  predicate Fits(v: Value, p: Param)
  {
    match p
    case PString => v.VStr?
    case PStrings => v.VStrs?
    case PAny => true
  }

  /** Arguments the Go function can be called with: the right count, each of
      its parameter's type. */
  predicate Conforms(fn: string, vals: seq<Value>)
  {
    ArityError(fn, |vals|).None? &&
    forall i :: 0 <= i < |vals| ==> Fits(vals[i], ParamAt(SignatureOf(fn), i))
  }

  /** `validateType`: a value of the parameter's type passes, nil becomes the
      zero value of a slice parameter, anything else is the wrong type. */
  function Conform(v: Value, p: Param): (r: Result<Value>)
    ensures r.Ok? ==> Fits(r.value, p)
    ensures Fits(v, p) ==> r == Ok(v)
    ensures r.Ok? && !Fits(v, p) ==> v.VNil? && p == PStrings && r.value == VStrs([])
  {
    match p
    case PAny => Ok(v)
    case PString =>
      if v.VStr? then Ok(v)
      else if v.VNil? then Err(Fail("invalid value; expected string"))
      else Err(WrongType("string", v))
    case PStrings =>
      if v.VStrs? then Ok(v)
      else if v.VNil? then Ok(VStrs([]))
      else Err(WrongType("[]string", v))
  }

  /** The Go name of a parameter type. */
  function ParamName(p: Param): string
  {
    match p
    case PString => "string"
    case PStrings => "[]string"
    case PAny => "interface {}"
  }

  /** The failure for a constant that has no conversion to the parameter type. */
  function CantHandle(node: string, p: Param): Error
  {
    Fail("can't handle " + node + " for arg of type " + ParamName(p))
  }

  /** An action's expression: a constant, the input value, or a call, which is
      refused on its argument count before any argument is evaluated. */
  function EvalExpr(lib: Library, eng: Engine, fuel: nat, e: Expr, dot: Value, st: State): (o: Out<Value>)
    ensures ArgsKept(st, o.st)
    ensures e.Call? && e.fn in Builtins && ArityError(e.fn, |e.args|).Some? ==> o == Out(Err(ArityError(e.fn, |e.args|).value), st)
    decreases fuel, 2, e, 0
  {
    match e
    case Lit(s) => Out(Ok(VStr(s)), st)
    case IntLit(i) => Out(Ok(VInt(i)), st)
    case Dot => Out(Ok(dot), st)
    case Call(fn, args) =>
      // Unreachable after `ParseChecked`, which refuses undefined names; kept
      // for expressions evaluated on their own.
      if fn !in Builtins then Out(Err(Fail("\"" + fn + "\" is not a defined function")), st)
      else
        match ArityError(fn, |args|)
        case Some(err) => Out(Err(err), st)
        case None =>
          var a := EvalArgs(lib, eng, fuel, Params(fn, |args|), args, dot, st);
          if a.res.Err? then Out(Err(a.res.error), a.st)
          else CallBuiltin(lib, eng, fuel, fn, a.res.value, a.st)
  }

  /** `evalArg`: one argument, evaluated and converted to its parameter's type.
      A constant is converted directly; the input value and a call's result
      go through `Conform`. */
  function EvalArg(lib: Library, eng: Engine, fuel: nat, p: Param, e: Expr, dot: Value, st: State): (o: Out<Value>)
    ensures ArgsKept(st, o.st)
    ensures o.res.Ok? ==> Fits(o.res.value, p)
    decreases fuel, 2, e, 1
  {
    match e
    case Lit(s) =>
      if p == PStrings then Out(Err(CantHandle("\"" + s + "\"", p)), st) else Out(Ok(VStr(s)), st)
    case IntLit(i) =>
      if p == PString then Out(Err(Fail("expected string; found " + IntToString(i))), st)
      else if p == PStrings then Out(Err(CantHandle(IntToString(i), p)), st)
      else Out(Ok(VInt(i)), st)
    case Dot => Out(Conform(dot, p), st)
    case Call(_, _) =>
      var v := EvalExpr(lib, eng, fuel, e, dot, st);
      if v.res.Err? then v else Out(Conform(v.res.value, p), v.st)
  }

  /** Arguments are evaluated and converted left to right; the first error
      stops the call. */
  function EvalArgs(lib: Library, eng: Engine, fuel: nat, params: seq<Param>, args: seq<Expr>, dot: Value, st: State): (o: Out<seq<Value>>)
    requires |params| == |args|
    ensures ArgsKept(st, o.st)
    ensures o.res.Ok? ==> |o.res.value| == |args|
    ensures o.res.Ok? ==> forall i :: 0 <= i < |args| ==> Fits(o.res.value[i], params[i])
    decreases fuel, 2, args, 0
  {
    if args == [] then Out(Ok([]), st)
    else
      var h := EvalArg(lib, eng, fuel, params[0], args[0], dot, st);
      if h.res.Err? then Out(Err(h.res.error), h.st)
      else
        var rest := EvalArgs(lib, eng, fuel, params[1..], args[1..], dot, h.st);
        if rest.res.Err? then rest
        else
          var vals := [h.res.value] + rest.res.value;
          assert forall i :: 1 <= i < |args| ==> vals[i] == rest.res.value[i - 1] && params[i] == params[1..][i - 1];
          Out(Ok(vals), rest.st)
  }

  /** The engine's wrapping of a builtin's own error: `error calling <fn>`
      around the cause. The engine's `template: NAME:LINE:COL: executing …`
      location prefix is not modelled. */
  function Calling<T>(fn: string, r: Result<T>): Result<T>
  {
    if r.Err? then Err(Wrap("error calling " + fn, r.error)) else r
  }

  function WrongArity(fn: string, want: string, got: nat): Error
  {
    Fail("wrong number of args for " + fn + ": want " + want + " got " + NatToString(got))
  }

  function WrongType(expected: string, v: Value): Error
  {
    Fail("wrong type for value; expected " + expected + "; got " + TypeName(v))
  }

  /** Calling a builtin on arguments already checked against its signature. */
  function CallBuiltin(lib: Library, eng: Engine, fuel: nat, fn: string, vals: seq<Value>, st: State): (o: Out<Value>)
    requires fn in Builtins && Conforms(fn, vals)
    ensures ArgsKept(st, o.st)
    decreases fuel, 1
  {
    if fn == "per" || fn == "ins" || fn == "sec1" then CallFragment(lib, eng, fuel, fn, vals, st)
    else CallFunction(eng, fn, vals, st)
  }

  /** The builtins that do not evaluate further templates. */
  function CallFunction(eng: Engine, fn: string, vals: seq<Value>, st: State): (o: Out<Value>)
    requires fn == "consume_args" || fn == "join" || fn == "strings" || fn == "git"
    requires Conforms(fn, vals)
    ensures fn != "consume_args" ==> o.st == st
    ensures fn == "consume_args" ==> o.st == st.(args := []) && (o.res.Ok? <==> st.args != [])
    ensures fn == "consume_args" && o.res.Ok? ==> o.res.value == VStrs(st.args)
    ensures fn == "consume_args" && o.res.Err? ==> o.res.error == Wrap("error calling " + fn, Fail("no positional arguments"))
    ensures fn == "join" ==> o.res == Ok(VStr(Join(vals[1].ss, vals[0].s)))
    ensures fn == "strings" ==> (o.res.Ok? <==> StringsFlat(vals).Ok?)
    ensures fn == "strings" && o.res.Ok? ==> o.res.value == VStrs(StringsFlat(vals).value)
    ensures fn == "git" ==> (o.res.Ok? <==> GitCommand(eng.git, vals).Ok?)
    ensures ArgsKept(st, o.st)
  {
    if fn == "consume_args" then
      var (r, rest) := Consume(st.args);
      Out(Calling(fn, if r.Ok? then Ok(VStrs(r.value)) else Err(r.error)), st.(args := rest))
    else if fn == "join" then
      Out(Ok(VStr(JoinStrings(vals[0].s, vals[1].ss))), st)
    else if fn == "strings" then
      var r := StringsFlat(vals);
      Out(Calling(fn, if r.Ok? then Ok(VStrs(r.value)) else Err(r.error)), st)
    else
      var r := GitCommand(eng.git, vals);
      Out(Calling(fn, if r.Ok? then Ok(VStr(r.value)) else Err(r.error)), st)
  }

  /** `per`, `ins` and `sec1`: a name, then the fragment's arguments (strings
      only for `sec1`); each nested fragment costs one unit of fuel. */
  function CallFragment(lib: Library, eng: Engine, fuel: nat, fn: string, vals: seq<Value>, st: State): (o: Out<Value>)
    requires fn == "per" || fn == "ins" || fn == "sec1"
    requires Conforms(fn, vals)
    ensures ArgsKept(st, o.st)
    decreases fuel, 0
  {
    if fuel == 0 then Out(Err(Fail("fragment nesting exceeds the evaluation fuel")), st)
    else
      var o :=
        if fn == "per" then Persona(lib, eng, fuel - 1, vals[0].s, vals[1..], st)
        else if fn == "ins" then Instruction(lib, eng, fuel - 1, vals[0].s, vals[1..], st)
        else Section1(lib, eng, fuel - 1, vals[0].s, Strings(vals[1..]), st);
      Out(Calling(fn, if o.res.Ok? then Ok(VStr(o.res.value)) else Err(o.res.error)), o.st)
  }

  function Strings(vals: seq<Value>): (r: seq<string>)
    requires forall i :: 0 <= i < |vals| ==> vals[i].VStr?
    ensures |r| == |vals|
    ensures forall i :: 0 <= i < |vals| ==> r[i] == vals[i].s
  {
    if vals == [] then [] else [vals[0].s] + Strings(vals[1..])
  }

  /** `persona(name, args...)`: the `# Persona` header and the persona's source,
      executed in the same engine with the call's arguments as input. */
  function Persona(lib: Library, eng: Engine, fuel: nat, name: string, args: seq<Value>, st: State): (o: Out<string>)
    ensures name !in lib.personas ==> o == Out(Err(Fail("unknown persona: " + name)), st)
    ensures ArgsKept(st, o.st)
    decreases fuel, 5
  {
    if name !in lib.personas then Out(Err(Fail("unknown persona: " + name)), st)
    else Exec(lib, eng, fuel, PersonaHeader + lib.personas[name], VList(args), st)
  }

  /** `instruction(name, args...)`: likewise with the `# Instructions` header. */
  function Instruction(lib: Library, eng: Engine, fuel: nat, name: string, args: seq<Value>, st: State): (o: Out<string>)
    ensures name !in lib.instructions ==> o == Out(Err(Fail("unknown instruction: " + name)), st)
    ensures ArgsKept(st, o.st)
    decreases fuel, 5
  {
    if name !in lib.instructions then Out(Err(Fail("unknown instruction: " + name)), st)
    else Exec(lib, eng, fuel, InstructionsHeader + lib.instructions[name], VList(args), st)
  }

  /** `section1(name, args...)`: the section's source with no header, given
      its string arguments as a `[]string` input. */
  function Section1(lib: Library, eng: Engine, fuel: nat, name: string, args: seq<string>, st: State): (o: Out<string>)
    ensures name !in lib.section1 ==> o == Out(Err(Fail("unknown section1: " + name)), st)
    ensures ArgsKept(st, o.st)
    decreases fuel, 5
  {
    if name !in lib.section1 then Out(Err(Fail("unknown section1: " + name)), st)
    else Exec(lib, eng, fuel, lib.section1[name], VStrs(args), st)
  }

  ////////////////////
  // EvalContext //

  /** `EvalContext`: the library, the shared positional-argument cursor
      (`*PositionalArguments`, a slice the caller shares) and the engine's
      template (`tmpl`). */
  class EvalContext {
    const lib: Library
    var args: seq<string>
    var tmpl: Option<Template>

    /** `NewEvalContext(lib, args)`: no template yet. */
    constructor (lib: Library, args: seq<string>)
      ensures this.lib == lib && this.args == args && tmpl == None
    {
      this.lib := lib;
      this.args := args;
      tmpl := None;
    }

    function Snapshot(): State
      reads this
    {
      State(args, tmpl)
    }

    /** `consumeArgs`: takes the whole cursor and leaves it empty; fails when
        it is already empty. */
    method ConsumeArgs() returns (r: Result<seq<string>>)
      modifies this`args
      ensures old(args) != [] ==> r == Ok(old(args))
      ensures old(args) == [] ==> r == Err(Fail("no positional arguments"))
      ensures args == []
      ensures (r, args) == Consume(old(args))
    {
      if |args| == 0 {
        return Err(Fail("no positional arguments"));
      }
      r := Ok(args);
      args := [];
    }

    /** `execute(content, dot)`: the engine's template becomes the parsed source
        (nil when parsing fails), then runs on `dot`; with no template yet, as
        on a fresh context, the parse dereferences nil. */
    method Execute(eng: Engine, fuel: nat, content: string, dot: Value) returns (r: Result<string>)
      modifies this
      ensures Out(r, Snapshot()) == Exec(lib, eng, fuel, content, dot, old(Snapshot()))
      ensures old(tmpl).None? ==> r == Err(NilDereference) && Snapshot() == old(Snapshot())
      ensures args == old(args) || args == []
    {
      if tmpl.None? {
        return Err(NilDereference);
      }
      var parsed := ParseChecked(eng, content);
      if parsed.Err? {
        tmpl := None;
        return Err(parsed.error);
      }
      tmpl := Some(parsed.value);
      var o := RunNodes(lib, eng, fuel, parsed.value, dot, Snapshot());
      args, tmpl := o.st.args, o.st.tmpl;
      r := o.res;
    }

    /** `Evaluate(prompt)`: looks the prompt up, makes a fresh engine and
        executes the prompt's source with a nil input. */
    method Evaluate(eng: Engine, fuel: nat, prompt: string) returns (r: Result<string>)
      modifies this
      ensures Out(r, Snapshot()) == EvalPrompt(lib, eng, fuel, prompt, old(Snapshot()))
      ensures RawPrompt(lib, prompt).Err? ==> r == Err(RawPrompt(lib, prompt).error) && Snapshot() == old(Snapshot())
      ensures args == old(args) || args == []
    {
      var content := RawPrompt(lib, prompt);
      if content.Err? {
        return Err(content.error);
      }
      tmpl := Some([]);
      r := Execute(eng, fuel, content.value, VNil);
    }
  }

  ////////////////
  // Properties //

  /** `stringsFlat` succeeds exactly when every argument is flattenable at
      every depth. */
  lemma {:induction false} StringsFlatOkIff(vs: seq<Value>)
    ensures StringsFlat(vs).Ok? <==> forall i :: 0 <= i < |vs| ==> Flattenable(vs[i])
    decreases vs
  {
    if vs != [] {
      match vs[0] {
        case VList(items) => StringsFlatOkIff(items);
        case _ =>
      }
      StringsFlatOkIff(vs[1..]);
      assert forall i :: 1 <= i < |vs| ==> vs[i] == vs[1..][i - 1];
    }
  }

  /** Flattening is left to right: flattening a concatenation concatenates the
      two flattenings, and the first failure wins. */
  lemma {:induction false} StringsFlatConcat(a: seq<Value>, b: seq<Value>)
    ensures StringsFlat(a + b) ==
      if StringsFlat(a).Err? then StringsFlat(a)
      else if StringsFlat(b).Err? then StringsFlat(b)
      else Ok(StringsFlat(a).value + StringsFlat(b).value)
    decreases a
  {
    if a == [] {
      assert a + b == b;
      assert StringsFlat(a) == Ok([]);
      if StringsFlat(b).Ok? {
        assert [] + StringsFlat(b).value == StringsFlat(b).value;
      }
    } else {
      assert (a + b)[0] == a[0];
      assert (a + b)[1..] == a[1..] + b;
      StringsFlatConcat(a[1..], b);
      var h, x, y := FlatOne(a[0]), StringsFlat(a[1..]), StringsFlat(b);
      if h.Ok? && x.Ok? && y.Ok? {
        assert h.value + (x.value + y.value) == (h.value + x.value) + y.value;
      }
    }
  }

  /** Arguments that are all strings flatten to themselves. */
  lemma {:induction false} StringsFlatOfStrings(ss: seq<string>)
    ensures StringsFlat(seq(|ss|, i requires 0 <= i < |ss| => VStr(ss[i]))) == Ok(ss)
  {
    var vs := seq(|ss|, i requires 0 <= i < |ss| => VStr(ss[i]));
    if ss != [] {
      StringsFlatOfStrings(ss[1..]);
      assert vs[1..] == seq(|ss[1..]|, i requires 0 <= i < |ss[1..]| => VStr(ss[1..][i]));
      assert [ss[0]] + ss[1..] == ss;
    }
  }

  /** A failing flattening is reported by `git` itself, before running git. */
  lemma GitFlattenFailure(git: seq<string> -> Result<string>, vals: seq<Value>, i: nat)
    requires i < |vals| && vals[i].VInt?
    ensures GitCommand(git, vals).Err?
    ensures HasPrefix(ErrorString(GitCommand(git, vals).error), "cannot flatten ")
  {
    StringsFlatOkIff(vals);
  }

  /** Running a concatenation of templates runs the first, then the second from
      the state the first left, and concatenates the output; an error in the
      first stops everything. */
  lemma {:induction false} RunNodesConcat(lib: Library, eng: Engine, fuel: nat, t1: Template, t2: Template, dot: Value, st: State)
    ensures RunNodes(lib, eng, fuel, t1 + t2, dot, st) ==
      var o1 := RunNodes(lib, eng, fuel, t1, dot, st);
      if o1.res.Err? then o1
      else
        var o2 := RunNodes(lib, eng, fuel, t2, dot, o1.st);
        if o2.res.Err? then o2 else Out(Ok(o1.res.value + o2.res.value), o2.st)
    decreases t1
  {
    if t1 == [] {
      assert t1 + t2 == t2;
      var o2 := RunNodes(lib, eng, fuel, t2, dot, st);
      if o2.res.Ok? {
        assert "" + o2.res.value == o2.res.value;
      }
    } else {
      assert (t1 + t2)[0] == t1[0];
      assert (t1 + t2)[1..] == t1[1..] + t2;
      var first := RunNode(lib, eng, fuel, t1[0], dot, st);
      if first.res.Ok? {
        RunNodesConcat(lib, eng, fuel, t1[1..], t2, dot, first.st);
        var o1 := RunNodes(lib, eng, fuel, t1[1..], dot, first.st);
        if o1.res.Ok? {
          var o2 := RunNodes(lib, eng, fuel, t2, dot, o1.st);
          if o2.res.Ok? {
            assert first.res.value + (o1.res.value + o2.res.value) == (first.res.value + o1.res.value) + o2.res.value;
          }
        }
      }
    }
  }

  /** A prompt whose source is plain text evaluates to exactly that text and
      leaves the cursor alone. */
  lemma LiteralPrompt(lib: Library, eng: Engine, fuel: nat, prompt: string, st: State)
    requires prompt in lib.prompts
    requires eng.parse(lib.prompts[prompt]) == Ok([Text(lib.prompts[prompt])])
    ensures EvalPrompt(lib, eng, fuel, prompt, st).res == Ok(lib.prompts[prompt])
    ensures EvalPrompt(lib, eng, fuel, prompt, st).st.args == st.args
  {
    var c := lib.prompts[prompt];
    var t := [Text(c)];
    assert FirstUndefined(t) == None;
    assert ParseChecked(eng, c) == Ok(t);
    var st1 := st.(tmpl := Some([])).(tmpl := Some(t));
    assert RunNode(lib, eng, fuel, Text(c), VNil, st1) == Out(Ok(c), st1);
    assert t[1..] == [];
    assert c + "" == c;
    assert RunNodes(lib, eng, fuel, t, VNil, st1) == Out(Ok(c), st1);
  }

  /** A second `consume_args` in one evaluation fails, after the first one has
      drained the cursor. */
  lemma SecondConsumeFails(lib: Library, eng: Engine, fuel: nat, content: string, dot: Value, st: State)
    requires st.args != [] && st.tmpl.Some?
    requires eng.parse(content) == Ok([Action(Call("consume_args", [])), Action(Call("consume_args", []))])
    ensures Exec(lib, eng, fuel, content, dot, st).res == Err(Wrap("error calling consume_args", Fail("no positional arguments")))
    ensures Exec(lib, eng, fuel, content, dot, st).st.args == []
  {
    var call := Action(Call("consume_args", []));
    var t := [call, call];
    assert FirstUndefined([call]) == None;
    assert FirstUndefined(t) == None;
    assert ParseChecked(eng, content) == Ok(t);
    var st1 := st.(tmpl := Some(t));
    var st2 := st1.(args := []);
    ConsumeCall(lib, eng, fuel, dot, st1);
    ConsumeCall(lib, eng, fuel, dot, st2);
    assert RunNode(lib, eng, fuel, call, dot, st1) == Out(Ok(Render(VStrs(st.args))), st2);
    var failed: Out<string> := Out(Err(Wrap("error calling consume_args", Fail("no positional arguments"))), st2);
    assert RunNode(lib, eng, fuel, call, dot, st2) == failed;
    RunNodesOne(lib, eng, fuel, call, dot, st2);
    assert t[1..] == [call];
  }

  /** One `{{ consume_args }}` action: the cursor's arguments, or the error on
      an empty cursor; the cursor is empty afterwards. */
  lemma ConsumeCall(lib: Library, eng: Engine, fuel: nat, dot: Value, st: State)
    ensures var o := EvalExpr(lib, eng, fuel, Call("consume_args", []), dot, st);
      o.st == st.(args := []) &&
      o.res == if st.args != [] then Ok(VStrs(st.args)) else Err(Wrap("error calling consume_args", Fail("no positional arguments")))
  {
    assert ArityError("consume_args", 0).None?;
    assert EvalArgs(lib, eng, fuel, Params("consume_args", 0), [], dot, st) == Out(Ok([]), st);
  }

  /** The name of a fragment builtin's category, as its error message spells it. */
  function CategoryName(fn: string): string
  {
    if fn == "per" then "persona" else if fn == "ins" then "instruction" else "section1"
  }

  function Category(lib: Library, fn: string): map<string, string>
  {
    if fn == "per" then lib.personas else if fn == "ins" then lib.instructions else lib.section1
  }

  /** A fragment call naming an unknown fragment fails the whole evaluation
      with an error naming the category and the requested name. */
  lemma UnknownFragmentFails(lib: Library, eng: Engine, fuel: nat, content: string, fn: string, name: string, dot: Value, st: State)
    requires fuel > 0 && st.tmpl.Some?
    requires fn == "per" || fn == "ins" || fn == "sec1"
    requires name !in Category(lib, fn)
    requires eng.parse(content) == Ok([Action(Call(fn, [Lit(name)]))])
    ensures Exec(lib, eng, fuel, content, dot, st).res ==
      Err(Wrap("error calling " + fn, Fail("unknown " + CategoryName(fn) + ": " + name)))
  {
    var e := Call(fn, [Lit(name)]);
    assert FirstUndefinedArgs([Lit(name)]) == None;
    assert FirstUndefined([Action(e)]) == None;
    assert ParseChecked(eng, content) == Ok([Action(e)]);
    var st1 := st.(tmpl := Some([Action(e)]));
    assert Params(fn, 1) == [PString];
    EvalArgsOne(lib, eng, fuel, PString, Lit(name), dot, st1);
    assert EvalArgs(lib, eng, fuel, [PString], [Lit(name)], dot, st1) == Out(Ok([VStr(name)]), st1);
    var called := Out(Err(Wrap("error calling " + fn, Fail("unknown " + CategoryName(fn) + ": " + name))), st1);
    UnknownFragmentCall(lib, eng, fuel, fn, name, st1);
    assert EvalExpr(lib, eng, fuel, e, dot, st1) == called;
    assert RunNode(lib, eng, fuel, Action(e), dot, st1) == Out(Err(Wrap("error calling " + fn, Fail("unknown " + CategoryName(fn) + ": " + name))), st1);
  }

  /** The fragment call itself, once its one argument is evaluated. */
  lemma UnknownFragmentCall(lib: Library, eng: Engine, fuel: nat, fn: string, name: string, st: State)
    requires fuel > 0
    requires fn == "per" || fn == "ins" || fn == "sec1"
    requires name !in Category(lib, fn)
    ensures CallBuiltin(lib, eng, fuel, fn, [VStr(name)], st) ==
      Out(Err(Wrap("error calling " + fn, Fail("unknown " + CategoryName(fn) + ": " + name))), st)
  {
    if fn == "per" {
      UnknownPersonaCall(lib, eng, fuel, name, st);
    } else if fn == "ins" {
      UnknownInstructionCall(lib, eng, fuel, name, st);
    } else {
      UnknownSection1Call(lib, eng, fuel, name, st);
    }
  }

  /** `per` naming an unknown persona. */
  lemma UnknownPersonaCall(lib: Library, eng: Engine, fuel: nat, name: string, st: State)
    requires fuel > 0 && name !in lib.personas
    ensures CallBuiltin(lib, eng, fuel, "per", [VStr(name)], st) ==
      Out(Err(Wrap("error calling " + "per", Fail("unknown " + "persona" + ": " + name))), st)
  {
    assert "unknown " + "persona" + ": " + name == "unknown persona: " + name;
    assert Persona(lib, eng, fuel - 1, name, [], st).res == Err(Fail("unknown persona: " + name));
  }

  /** `ins` naming an unknown instruction. */
  lemma UnknownInstructionCall(lib: Library, eng: Engine, fuel: nat, name: string, st: State)
    requires fuel > 0 && name !in lib.instructions
    ensures CallBuiltin(lib, eng, fuel, "ins", [VStr(name)], st) ==
      Out(Err(Wrap("error calling " + "ins", Fail("unknown " + "instruction" + ": " + name))), st)
  {
    assert "unknown " + "instruction" + ": " + name == "unknown instruction: " + name;
    assert Instruction(lib, eng, fuel - 1, name, [], st).res == Err(Fail("unknown instruction: " + name));
  }

  /** `sec1` naming an unknown section. */
  lemma UnknownSection1Call(lib: Library, eng: Engine, fuel: nat, name: string, st: State)
    requires fuel > 0 && name !in lib.section1
    ensures CallBuiltin(lib, eng, fuel, "sec1", [VStr(name)], st) ==
      Out(Err(Wrap("error calling " + "sec1", Fail("unknown " + "section1" + ": " + name))), st)
  {
    assert "unknown " + "section1" + ": " + name == "unknown section1: " + name;
    assert Strings([VStr(name)][1..]) == [];
    assert Section1(lib, eng, fuel - 1, name, [], st).res == Err(Fail("unknown section1: " + name));
  }

  /** A one-node template runs as that node. */
  lemma RunNodesOne(lib: Library, eng: Engine, fuel: nat, n: Node, dot: Value, st: State)
    ensures RunNodes(lib, eng, fuel, [n], dot, st) == RunNode(lib, eng, fuel, n, dot, st)
  {
    assert [n][1..] == [];
    var o := RunNode(lib, eng, fuel, n, dot, st);
    if o.res.Ok? {
      assert o.res.value + "" == o.res.value;
    }
  }

  /** A one-argument list evaluates to that argument's converted value. */
  lemma EvalArgsOne(lib: Library, eng: Engine, fuel: nat, p: Param, e: Expr, dot: Value, st: State)
    ensures var h := EvalArg(lib, eng, fuel, p, e, dot, st);
      EvalArgs(lib, eng, fuel, [p], [e], dot, st) == if h.res.Err? then Out(Err(h.res.error), h.st) else Out(Ok([h.res.value]), h.st)
  {
    assert [e][1..] == [] && [p][1..] == [];
    var h := EvalArg(lib, eng, fuel, p, e, dot, st);
    assert EvalArgs(lib, eng, fuel, [], [], dot, h.st) == Out(Ok([]), h.st);
    if h.res.Ok? {
      assert [h.res.value] + [] == [h.res.value];
    }
  }

  /** Two arguments evaluate to their converted values, the second from the
      state the first left. */
  lemma EvalArgsTwo(lib: Library, eng: Engine, fuel: nat, p: Param, q: Param, e: Expr, f: Expr, dot: Value, st: State)
    requires EvalArg(lib, eng, fuel, p, e, dot, st).res.Ok?
    requires EvalArg(lib, eng, fuel, q, f, dot, EvalArg(lib, eng, fuel, p, e, dot, st).st).res.Ok?
    ensures var h := EvalArg(lib, eng, fuel, p, e, dot, st);
      var k := EvalArg(lib, eng, fuel, q, f, dot, h.st);
      EvalArgs(lib, eng, fuel, [p, q], [e, f], dot, st) == Out(Ok([h.res.value, k.res.value]), k.st)
  {
    var h := EvalArg(lib, eng, fuel, p, e, dot, st);
    assert [e, f][1..] == [f] && [p, q][1..] == [q];
    EvalArgsOne(lib, eng, fuel, q, f, dot, h.st);
    var k := EvalArg(lib, eng, fuel, q, f, dot, h.st);
    assert [h.res.value] + [k.res.value] == [h.res.value, k.res.value];
  }

  /** The persona example: `persona("A", "bob")` with persona A's source
      `hi {{ join "" (strings .) }}` yields the persona header and `hi bob`. */
  lemma PersonaExample(lib: Library, eng: Engine, fuel: nat, content: string, st: State)
    requires fuel > 0 && st.tmpl.Some?
    requires "A" in lib.personas
    requires eng.parse(content) == Ok([Action(Call("per", [Lit("A"), Lit("bob")]))])
    requires eng.parse(PersonaHeader + lib.personas["A"]) ==
      Ok([Text("# Persona\n\nhi "), Action(Call("join", [Lit(""), Call("strings", [Dot])]))])
    ensures Exec(lib, eng, fuel, content, VNil, st).res == Ok("# Persona\n\nhi bob")
  {
    // The top-level template and its arguments.
    var outerArgs := [Lit("A"), Lit("bob")];
    var outer := Call("per", outerArgs);
    assert outerArgs[1..] == [Lit("bob")];
    assert FirstUndefinedArgs(outerArgs) == None;
    assert FirstUndefined([Action(outer)]) == None;
    assert ParseChecked(eng, content) == Ok([Action(outer)]);
    var st1 := st.(tmpl := Some([Action(outer)]));
    assert Params("per", 2) == [PString, PAny];
    EvalArgsTwo(lib, eng, fuel, PString, PAny, Lit("A"), Lit("bob"), VNil, st1);
    assert EvalArgs(lib, eng, fuel, [PString, PAny], outerArgs, VNil, st1) == Out(Ok([VStr("A"), VStr("bob")]), st1);

    // Persona A's template, run on the call's arguments.
    PersonaBodyExample(lib, eng, fuel - 1, st1);
    var st2 := st1.(tmpl := Some([Text("# Persona\n\nhi "), Action(Call("join", [Lit(""), Call("strings", [Dot])]))]));

    // Back in the top-level template.
    var done: Out<Value> := Out(Ok(VStr("# Persona\n\nhi bob")), st2);
    assert [VStr("A"), VStr("bob")][1..] == [VStr("bob")];
    assert CallFragment(lib, eng, fuel, "per", [VStr("A"), VStr("bob")], st1) == done;
    assert EvalExpr(lib, eng, fuel, outer, VNil, st1) == done;
    RunNodesOne(lib, eng, fuel, Action(outer), VNil, st1);
  }

  /** Persona A's template `hi {{ join "" (strings .) }}`, run with `["bob"]`
      as its dot. */
  lemma PersonaBodyExample(lib: Library, eng: Engine, fuel: nat, st1: State)
    requires st1.tmpl.Some?
    requires "A" in lib.personas
    requires eng.parse(PersonaHeader + lib.personas["A"]) ==
      Ok([Text("# Persona\n\nhi "), Action(Call("join", [Lit(""), Call("strings", [Dot])]))])
    ensures Persona(lib, eng, fuel, "A", [VStr("bob")], st1) ==
      Out(Ok("# Persona\n\nhi bob"), st1.(tmpl := Some([Text("# Persona\n\nhi "), Action(Call("join", [Lit(""), Call("strings", [Dot])]))])))
  {
    var innerArgs := [Lit(""), Call("strings", [Dot])];
    var inner := Call("join", innerArgs);
    var innerT := [Text("# Persona\n\nhi "), Action(inner)];
    assert innerArgs[1..] == [Call("strings", [Dot])];
    assert FirstUndefinedArgs([Dot]) == None;
    assert FirstUndefinedArgs(innerArgs) == None;
    assert innerT[1..] == [Action(inner)];
    assert FirstUndefined(innerT) == None;
    assert ParseChecked(eng, PersonaHeader + lib.personas["A"]) == Ok(innerT);
    var dot := VList([VStr("bob")]);
    var st2 := st1.(tmpl := Some(innerT));

    // {{ join "" (strings .) }}
    StringsOfDotExample(lib, eng, fuel, st2);
    assert EvalArg(lib, eng, fuel, PStrings, Call("strings", [Dot]), dot, st2) == Out(Ok(VStrs(["bob"])), st2);
    assert Params("join", 2) == [PString, PStrings];
    EvalArgsTwo(lib, eng, fuel, PString, PStrings, Lit(""), Call("strings", [Dot]), dot, st2);
    assert EvalArgs(lib, eng, fuel, [PString, PStrings], innerArgs, dot, st2) == Out(Ok([VStr(""), VStrs(["bob"])]), st2);
    assert Join(["bob"], "") == "bob";
    assert CallFunction(eng, "join", [VStr(""), VStrs(["bob"])], st2) == Out(Ok(VStr("bob")), st2);
    assert EvalExpr(lib, eng, fuel, inner, dot, st2) == Out(Ok(VStr("bob")), st2);
    RunNodesOne(lib, eng, fuel, Action(inner), dot, st2);
    assert RunNodes(lib, eng, fuel, [Action(inner)], dot, st2) == Out(Ok("bob"), st2);
    assert "# Persona\n\nhi " + "bob" == "# Persona\n\nhi bob";
    assert RunNodes(lib, eng, fuel, innerT, dot, st2) == Out(Ok("# Persona\n\nhi bob"), st2);
  }

  /** `{{ strings . }}` with `["bob"]` as the dot flattens it to `["bob"]`. */
  lemma StringsOfDotExample(lib: Library, eng: Engine, fuel: nat, st: State)
    ensures EvalExpr(lib, eng, fuel, Call("strings", [Dot]), VList([VStr("bob")]), st) == Out(Ok(VStrs(["bob"])), st)
  {
    var dot := VList([VStr("bob")]);
    assert Params("strings", 1) == [PAny];
    EvalArgsOne(lib, eng, fuel, PAny, Dot, dot, st);
    assert EvalArg(lib, eng, fuel, PAny, Dot, dot, st) == Out(Ok(dot), st);
    assert [VStr("bob")][1..] == [];
    assert ["bob"] + [] == ["bob"];
    assert FlatOne(VStr("bob")) == Ok(["bob"]);
    assert StringsFlat([VStr("bob")]) == Ok(["bob"]);
    assert FlatOne(dot) == Ok(["bob"]);
    assert [dot][1..] == [];
    assert StringsFlat([dot]) == Ok(["bob"]);
    assert EvalArgs(lib, eng, fuel, [PAny], [Dot], dot, st) == Out(Ok([dot]), st);
    assert CallBuiltin(lib, eng, fuel, "strings", [dot], st) == Out(Ok(VStrs(["bob"])), st);
  }

  /** The argument count is checked before any argument is evaluated: a call
      with the wrong count fails without running its arguments, so a
      `consume_args` among them leaves the cursor alone. */
  lemma ArityCheckedFirst(lib: Library, eng: Engine, fuel: nat, fn: string, args: seq<Expr>, dot: Value, st: State)
    requires fn in Builtins && ArityError(fn, |args|).Some?
    ensures EvalExpr(lib, eng, fuel, Call(fn, args), dot, st) == Out(Err(ArityError(fn, |args|).value), st)
  {
  }

  /** `{{ join "," (consume_args) }}`'s shape with one argument too few:
      `join (consume_args)` fails on the count, and the cursor keeps its
      arguments. */
  lemma JoinMissingArgumentKeepsCursor(lib: Library, eng: Engine, fuel: nat, dot: Value, st: State)
    ensures var o := EvalExpr(lib, eng, fuel, Call("join", [Call("consume_args", [])]), dot, st);
      o.res == Err(WrongArity("join", "2", 1)) && o.st == st
  {
    ArityCheckedFirst(lib, eng, fuel, "join", [Call("consume_args", [])], dot, st);
    assert NatToString(2) == "2";
  }

  /** A nil input passed where `join` expects `[]string` is the empty slice, so
      `{{ join "," . }}` on a nil input prints nothing. */
  lemma NilJoinsEmpty(lib: Library, eng: Engine, fuel: nat, sep: string, st: State)
    ensures EvalExpr(lib, eng, fuel, Call("join", [Lit(sep), Dot]), VNil, st) == Out(Ok(VStr("")), st)
  {
    assert Params("join", 2) == [PString, PStrings];
    EvalArgsTwo(lib, eng, fuel, PString, PStrings, Lit(sep), Dot, VNil, st);
  }

  /** A nil input passed where a string is expected is refused. */
  lemma NilStringRefused(lib: Library, eng: Engine, fuel: nat, st: State)
    ensures EvalExpr(lib, eng, fuel, Call("join", [Dot, Lit("")]), VNil, st).res == Err(Fail("invalid value; expected string"))
  {
    assert Params("join", 2) == [PString, PStrings];
    assert EvalArg(lib, eng, fuel, PString, Dot, VNil, st).res == Err(Fail("invalid value; expected string"));
    assert EvalArgs(lib, eng, fuel, [PString, PStrings], [Dot, Lit("")], VNil, st).res == Err(Fail("invalid value; expected string"));
  }
}
