/** The assembled prompt of `go/ai/config/prompt.go`: up to four text parts
    joined by blank lines, with the file context above or below them. */
module PromptAssembly {
  import opened Str

  datatype Prompt = Prompt(
    context: string,        // content of the included paths
    contextAbove: bool,     // context before the other parts
    clipboard: string,
    paths: seq<string>,     // names of the included paths
    positional: string,     // the joined positional arguments
    primary: string,        // the evaluated named prompt, or the clipboard
    stdin: string)

  const Separator: string := "\n\n"

  /** `Prompt.Empty`: nothing to send besides, possibly, the context. */
  predicate Empty(p: Prompt)
  {
    p.clipboard == "" && p.positional == "" && p.primary == "" && p.stdin == ""
  }

  /** The non-empty strings of `parts`, in order. */
  function NonEmpty(parts: seq<string>): (r: seq<string>)
    ensures |r| <= |parts|
    ensures forall k :: 0 <= k < |r| ==> r[k] != ""
    ensures r == [] <==> forall k :: 0 <= k < |parts| ==> parts[k] == ""
  {
    if parts == [] then []
    else (if parts[0] == "" then [] else [parts[0]]) + NonEmpty(parts[1..])
  }

  /** Filtering one more string keeps it exactly when it is not empty. */
  lemma {:induction false} NonEmptySnoc(parts: seq<string>, x: string)
    ensures NonEmpty(parts + [x]) == NonEmpty(parts) + (if x == "" then [] else [x])
  {
    if parts == [] {
      assert [x][1..] == [];
    } else {
      assert (parts + [x])[1..] == parts[1..] + [x];
      NonEmptySnoc(parts[1..], x);
    }
  }

  /** One conditional append of `static`. */
  function Keep(buf: seq<string>, part: string): seq<string>
  {
    if |part| > 0 then buf + [part] else buf
  }

  /** `static`: four conditional appends, in the order positional, primary,
      clipboard, stdin. */
  function StaticParts(p: Prompt): (r: seq<string>)
    ensures |r| <= 4
    ensures r == [] <==> Empty(p)
  {
    Keep(Keep(Keep(Keep([], p.positional), p.primary), p.clipboard), p.stdin)
  }

  /** A conditional append extends the filter of the parts seen so far. */
  lemma KeepFilters(parts: seq<string>, part: string)
    ensures Keep(NonEmpty(parts), part) == NonEmpty(parts + [part])
  {
    NonEmptySnoc(parts, part);
  }

  /** `static` keeps exactly the non-empty parts, in their fixed order. */
  lemma StaticPartsFilter(p: Prompt)
    ensures StaticParts(p) == NonEmpty([p.positional, p.primary, p.clipboard, p.stdin])
  {
    var x1, x2, x3, x4 := p.positional, p.primary, p.clipboard, p.stdin;
    assert NonEmpty([]) == [];
    KeepFilters([], x1);
    assert [] + [x1] == [x1];
    KeepFilters([x1], x2);
    assert [x1] + [x2] == [x1, x2];
    KeepFilters([x1, x2], x3);
    assert [x1, x2] + [x3] == [x1, x2, x3];
    KeepFilters([x1, x2, x3], x4);
    assert [x1, x2, x3] + [x4] == [x1, x2, x3, x4];
  }

  /** A non-empty list of non-empty strings joins to a non-empty string. */
  lemma JoinNonEmpty(xs: seq<string>, sep: string)
    requires forall k :: 0 <= k < |xs| ==> xs[k] != ""
    ensures Join(xs, sep) == "" <==> xs == []
  {
    if |xs| >= 2 {
      assert Join(xs, sep) == xs[0] + sep + Join(xs[1..], sep);
      assert |Join(xs, sep)| >= |xs[0]| > 0;
    }
  }

  /** `Static`: the parts without the context, joined by blank lines. */
  function Static(p: Prompt): (r: string)
    ensures r == "" <==> Empty(p)
  {
    JoinNonEmpty(StaticParts(p), Separator);
    Join(StaticParts(p), Separator)
  }

  /** `addContext`: a non-empty context goes first or last. */
  function AddContext(p: Prompt, buf: seq<string>): (r: seq<string>)
    ensures p.context == "" ==> r == buf
    ensures p.context != "" ==> |r| == |buf| + 1
    ensures p.context != "" && p.contextAbove ==> r[0] == p.context && r[1..] == buf
    ensures p.context != "" && !p.contextAbove ==> r[|buf|] == p.context && r[..|buf|] == buf
  {
    if |p.context| == 0 then buf
    else if p.contextAbove then [p.context] + buf
    else buf + [p.context]
  }

  /** `String`: everything, joined by blank lines. Nothing is sent exactly
      when the prompt is `Empty` and has no context. */
  function String(p: Prompt): (r: string)
    ensures r == "" <==> Empty(p) && p.context == ""
  {
    var parts := AddContext(p, StaticParts(p));
    assert forall k :: 0 <= k < |parts| ==> parts[k] != "" by {
      forall k | 0 <= k < |parts| ensures parts[k] != "" {
        if p.context != "" && p.contextAbove && k > 0 {
          assert parts[k] == parts[1..][k - 1];
        }
      }
    }
    JoinNonEmpty(parts, Separator);
    Join(parts, Separator)
  }

  /** The context changes neither `Empty` nor `Static`. */
  lemma StaticIgnoresContext(p: Prompt, context: string, above: bool, paths: seq<string>)
    ensures Empty(p.(context := context, contextAbove := above, paths := paths)) == Empty(p)
    ensures Static(p.(context := context, contextAbove := above, paths := paths)) == Static(p)
    ensures forall k :: 0 <= k < |StaticParts(p)| ==> StaticParts(p)[k] in {p.positional, p.primary, p.clipboard, p.stdin}
  {
    var parts := [p.positional, p.primary, p.clipboard, p.stdin];
    StaticPartsFilter(p);
    NonEmptyFrom(parts);
  }

  /** Every kept part comes from the input. */
  lemma {:induction false} NonEmptyFrom(parts: seq<string>)
    ensures forall k :: 0 <= k < |NonEmpty(parts)| ==> NonEmpty(parts)[k] in parts
  {
    if parts != [] {
      NonEmptyFrom(parts[1..]);
      assert forall x :: x in parts[1..] ==> x in parts;
    }
  }

  /** Without context the full prompt is the static prompt. */
  lemma StringWithoutContext(p: Prompt)
    requires p.context == ""
    ensures String(p) == Static(p)
  {
  }

  /** A context above comes first, then a blank line and the other parts
      (if any). */
  lemma StringContextAbove(p: Prompt)
    requires p.context != "" && p.contextAbove
    ensures String(p) == if Empty(p) then p.context else p.context + Separator + Static(p)
  {
    var parts := StaticParts(p);
    if parts != [] {
      JoinConcat([p.context], parts, Separator);
    }
  }

  /** A context below comes after the other parts (if any) and a blank line. */
  lemma StringContextBelow(p: Prompt)
    requires p.context != "" && !p.contextAbove
    ensures String(p) == if Empty(p) then p.context else Static(p) + Separator + p.context
  {
    var parts := StaticParts(p);
    if parts != [] {
      JoinSnoc(parts, p.context, Separator);
    } else {
      assert [] + [p.context] == [p.context];
    }
  }

  /** All four parts set, context below: the documented order, positional,
      primary, clipboard, stdin, then the context. */
  lemma FullPromptExample(p: Prompt)
    requires p.positional != "" && p.primary != "" && p.clipboard != "" && p.stdin != ""
    requires p.context != "" && !p.contextAbove
    ensures String(p) ==
      p.positional + Separator + (p.primary + Separator + (p.clipboard + Separator + p.stdin)) + Separator + p.context
  {
    var parts := StaticParts(p);
    assert parts == [p.positional, p.primary, p.clipboard, p.stdin];
    assert parts[1..] == [p.primary, p.clipboard, p.stdin];
    assert parts[1..][1..] == [p.clipboard, p.stdin];
    assert parts[1..][1..][1..] == [p.stdin];
    assert Join(parts[1..][1..], Separator) == p.clipboard + Separator + p.stdin;
    assert Join(parts[1..], Separator) == p.primary + Separator + (p.clipboard + Separator + p.stdin);
    StringContextBelow(p);
  }
}
