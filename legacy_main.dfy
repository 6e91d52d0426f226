/** The validation and prompt-name shift of the legacy `main` in
    `go/ai/jenai.go`, which stops the program at the first failure. */
module LegacyMain {
  import opened Wrappers
  import LegacyPrompts

  /** The fields of the legacy `Config` that validation reads or writes. */
  datatype Cfg = Cfg(
    paste: bool,
    oneShot: bool,
    dryRun: bool,
    session: string,
    promptName: string,
    rawPrompt: string,
    positional: seq<string>)

  /** How `main` leaves validation: through `fatal` with an error, by printing
      the raw prompt in dry-run mode, or by going on to print the
      configuration. */
  datatype Outcome = Fatal(err: Error) | DryRun(text: string) | Proceed

  const ErrorPrefix: string := "Error: "

  /** The line `fatal` prints before exiting with status 1. */
  function FatalLine(e: Error): (r: string)
    ensures |r| >= |ErrorPrefix| && r[..|ErrorPrefix|] == ErrorPrefix
    ensures r[|ErrorPrefix|..] == ErrorString(e)
  {
    ErrorPrefix + ErrorString(e)
  }

  const MutuallyExclusive: Error := Fail(ErrorPrefix + "--paste and --oneshot are mutually exclusive")
  const NoPositional: Error := Fail(ErrorPrefix + "No positional arguments provided")

  /** What validation does to `c`, step by step: the outcome, and the
      configuration it leaves. */
  function Process(c: Cfg): (r: (Outcome, Cfg))
  {
    if c.paste && c.oneShot then (Fatal(MutuallyExclusive), c)
    else if !c.paste && |c.positional| == 0 && c.session == "" then (Fatal(NoPositional), c)
    else
      var c' :=
        if !c.oneShot && !c.paste && |c.positional| > 0
        then c.(promptName := c.positional[0], positional := c.positional[1..])
        else c;
      if !c.oneShot && !c.paste && |c.positional| > 0 then
        var raw := LegacyPrompts.Raw(c'.promptName);
        var c'' := c'.(rawPrompt := if raw.Ok? then raw.value else "");
        if raw.Err? then (Fatal(raw.error), c'')
        else if c''.dryRun then (DryRun(c''.rawPrompt), c'')
        else (Proceed, c'')
      else if c'.dryRun then (DryRun(c'.rawPrompt), c')
      else (Proceed, c')
  }

  /** The legacy `Config`, updated in place by `main`. */
  class LegacyConfig {
    var paste: bool
    var oneShot: bool
    var dryRun: bool
    var session: string
    var promptName: string
    var rawPrompt: string
    var positional: seq<string>

    constructor (c: Cfg)
      ensures Snapshot() == c
    {
      paste, oneShot, dryRun, session := c.paste, c.oneShot, c.dryRun, c.session;
      promptName, rawPrompt, positional := c.promptName, c.rawPrompt, c.positional;
    }

    function Snapshot(): Cfg
      reads this
    {
      Cfg(paste, oneShot, dryRun, session, promptName, rawPrompt, positional)
    }

    /** Lines 82-109 of `main`: validate, shift the prompt name, look up the
        raw prompt, and stop there in dry-run mode. */
    method Validate() returns (o: Outcome)
      modifies this
      ensures (o, Snapshot()) == Process(old(Snapshot()))
    {
      if paste && oneShot {
        return Fatal(MutuallyExclusive);
      }
      if !paste && |positional| == 0 && session == "" {
        return Fatal(NoPositional);
      }
      if !oneShot && !paste && |positional| > 0 {
        promptName := positional[0];
        positional := positional[1..];
        var raw := LegacyPrompts.Raw(promptName);
        rawPrompt := if raw.Ok? then raw.value else "";
        if raw.Err? {
          return Fatal(raw.error);
        }
      }
      if dryRun {
        return DryRun(rawPrompt);
      }
      return Proceed;
    }
  }

  //////////////////////////////////////////////////////////////////////
  // Properties

  /** `--paste` with `--oneshot` is fatal before anything else is looked at,
      and changes nothing. */
  lemma PasteOneShotFatalFirst(c: Cfg)
    requires c.paste && c.oneShot
    ensures Process(c) == (Fatal(MutuallyExclusive), c)
  {
  }

  /** Without `--paste`, positional arguments or a session, the program stops;
      otherwise this check passes. */
  lemma NoPositionalFatal(c: Cfg)
    requires !(c.paste && c.oneShot)
    ensures Process(c).0 == Fatal(NoPositional) <==> !c.paste && c.positional == [] && c.session == ""
  {
    if !(!c.paste && c.positional == [] && c.session == "") && !c.oneShot && !c.paste && |c.positional| > 0 {
      var raw := LegacyPrompts.Raw(c.positional[0]);
      var u := "unknown prompt " + c.positional[0];
      assert u[0] == 'u' && NoPositional.text[0] == 'E';
      assert raw.Err? ==> raw.error.text != NoPositional.text;
    }
  }

  /** In prompt mode the first positional argument becomes the prompt name and
      the rest stay positional; an unknown name is the `Raw` error, fatal. */
  lemma PromptNameShift(c: Cfg)
    requires !c.oneShot && !c.paste && c.positional != []
    ensures Process(c).1.promptName == c.positional[0]
    ensures Process(c).1.positional == c.positional[1..]
    ensures Process(c).0.Fatal? <==> c.positional[0] !in LegacyPrompts.Map
    ensures Process(c).0.Fatal? ==> Process(c).0.err == Fail("unknown prompt " + c.positional[0])
    ensures c.positional[0] in LegacyPrompts.Map ==> Process(c).1.rawPrompt == LegacyPrompts.Map[c.positional[0]]
  {
  }

  /** Outside prompt mode the configuration is left as it was. */
  lemma NoShiftOutsidePromptMode(c: Cfg)
    requires c.oneShot || c.paste
    ensures Process(c).1 == c
  {
  }

  /** Dry-run mode emits exactly the raw prompt once validation passes, and is
      the only way to reach `DryRun`. */
  lemma DryRunEmitsRawPrompt(c: Cfg)
    ensures Process(c).0.DryRun? <==> c.dryRun && !Process(c).0.Fatal?
    ensures Process(c).0.DryRun? ==> Process(c).0.text == Process(c).1.rawPrompt
  {
  }

  /** `fatal` prints the prefix once more, before the one in the message. */
  lemma DoubledErrorPrefix(e: Error)
    requires e == MutuallyExclusive || e == NoPositional
    ensures FatalLine(e)[..2 * |ErrorPrefix|] == ErrorPrefix + ErrorPrefix
  {
    var t := ErrorString(e);
    assert t[..|ErrorPrefix|] == ErrorPrefix;
    assert FatalLine(e)[..2 * |ErrorPrefix|] == ErrorPrefix + t[..|ErrorPrefix|];
  }
}
