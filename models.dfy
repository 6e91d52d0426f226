/** Model of go/ai/models/models.go: the table of known models and the model
    identifier handed to the aichat client. */
module Models {
  import opened Wrappers
  import opened Str

  datatype Spec = Spec(name: string, provider: string, author: string, model: string)

  /** `Spec.Aichat`: the `provider:author/model` form aichat's `--model` expects. */
  function Aichat(sp: Spec): string
  {
    sp.provider + ":" + sp.author + "/" + sp.model
  }

  /** Cutting `s` at its first `c`, as `strings.Cut` does: the text before it and the text after it. */
  function Cut(s: string, c: char): (r: Option<(string, string)>)
    ensures r.Some? <==> c in s
    ensures r.Some? ==> c !in r.value.0 && r.value.0 + [c] + r.value.1 == s
  {
    if c !in s then None
    else
      var i := IndexOf(s, c);
      CutAt(s, i);
      Some((s[..i], s[i + 1..]))
  }

  /** A `c`-free word followed by `c` is cut right after the word. */
  lemma CutAfter(w: string, c: char, rest: string)
    requires c !in w
    ensures Cut(w + [c] + rest, c) == Some((w, rest))
  {
    IndexOfAfter(w, c, rest);
    PeelWord(w, c, rest);
  }

  /** Reading an aichat model identifier back: the provider is everything before
      the first ':', the author everything between it and the next '/', the model
      the rest (which may itself hold ':' or '/'). */
  function ParseAichat(s: string): (r: Option<(string, string, string)>)
    ensures r.Some? ==> r.value.0 + ":" + r.value.1 + "/" + r.value.2 == s
  {
    match Cut(s, ':')
    case None => None
    case Some((p, rest)) =>
      match Cut(rest, '/')
      case None => None
      case Some((a, m)) =>
        Reassemble(p, a, m);
        Some((p, a, m))
  }

  /** Aichat's identifier determines the spec's provider, author and model,
      provided the provider holds no ':' and the author no '/'. */
  lemma AichatRoundTrip(sp: Spec)
    requires ':' !in sp.provider && '/' !in sp.author
    ensures ParseAichat(Aichat(sp)) == Some((sp.provider, sp.author, sp.model))
  {
    var p, a, m := sp.provider, sp.author, sp.model;
    Reassemble(p, a, m);
    CutAfter(p, ':', a + ['/'] + m);
    CutAfter(a, '/', m);
  }

  /** The identifier's shape, regrouped around its two separators. */
  lemma Reassemble(p: string, a: string, m: string)
    ensures p + ":" + a + "/" + m == p + [':'] + (a + ['/'] + m)
  {
  }

  /** The two sides of the separator after a word. */
  lemma PeelWord(w: string, c: char, rest: string)
    ensures (w + [c] + rest)[..|w|] == w
    ensures (w + [c] + rest)[|w| + 1..] == rest
  {
  }

  /** `ModelSpecs`. */
  const ModelSpecs: map<string, Spec> := map[
    "codestral" := Spec("codestral", "openrouter", "mistralai", "codestral-2501"),
    "gemini" := Spec("gemini", "openrouter", "google", "gemini-2.0-flash-001"),
    "gemini-pro" := Spec("gemini-pro", "openrouter", "google", "gemini-2.0-pro-exp-02-05:free"),
    "haiku" := Spec("haiku", "openrouter", "anthropic", "claude-3-haiku"),
    "r1" := Spec("r1", "openrouter", "deepseek", "deepseek-r1:nitro"),
    "sonnet" := Spec("sonnet", "openrouter", "anthropic", "claude-3.7-sonnet"),
    "r1-70" := Spec("r1-70", "openrouter", "deepseek", "deepseek-r1-distill-llama-70b:free"),
    "qwco" := Spec("qwco", "openrouter", "qwen", "qwen-2.5-coder-32b-instruct"),
    "ds-v3" := Spec("ds-v3", "openrouter", "deepseek", "deepseek-chat")
  ]

  /** Every entry is filed under its own name and served by openrouter. */
  lemma ModelSpecsWellFormed()
    ensures forall k :: k in ModelSpecs ==> ModelSpecs[k].name == k
    ensures forall k :: k in ModelSpecs ==> ModelSpecs[k].provider == "openrouter"
  {
  }

  /** Every identifier the table produces reads back to its entry. */
  lemma ModelSpecsRoundTrip()
    ensures forall k :: k in ModelSpecs ==>
      ParseAichat(Aichat(ModelSpecs[k])) == Some((ModelSpecs[k].provider, ModelSpecs[k].author, ModelSpecs[k].model))
  {
    ModelSpecsWellFormed();
    assert ':' !in "openrouter";
    ModelSpecsAuthors();
    forall k | k in ModelSpecs
      ensures ParseAichat(Aichat(ModelSpecs[k])) == Some((ModelSpecs[k].provider, ModelSpecs[k].author, ModelSpecs[k].model))
    {
      AichatRoundTrip(ModelSpecs[k]);
    }
  }

  /** No author in the table holds a '/'. */
  lemma ModelSpecsAuthors()
    ensures forall k :: k in ModelSpecs ==> '/' !in ModelSpecs[k].author
  {
    var authors := {"mistralai", "google", "anthropic", "deepseek", "qwen"};
    assert forall k :: k in ModelSpecs ==> ModelSpecs[k].author in authors;
    assert forall w :: w in authors ==> '/' !in w;
  }

  lemma CodestralIdentifier()
    ensures "codestral" in ModelSpecs
    ensures Aichat(ModelSpecs["codestral"]) == "openrouter:mistralai/codestral-2501"
  {
    assert ModelSpecs["codestral"] == Spec("codestral", "openrouter", "mistralai", "codestral-2501");
  }
}
