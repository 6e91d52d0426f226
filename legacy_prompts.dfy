/** Model of go/prompts/prompts.go: the legacy, shell-flavoured prompt table
    and its lookup. */
module LegacyPrompts {
  import opened Wrappers

  /** `Map`: the five built-in prompts, verbatim. */
  const Map: map<string, string> := map[
    "review-diff" := "$(perins-jaded-review)\n\n# Diffs\n\n$(git diff HEAD^ HEAD)",
    "review-staged" := "$(perins-jaded-review)\n\n# Diffs\n\n$(git diff --staged)",
    "commit-message" := "$(per-jaded-dev)\n\n$(ins-commit-msg)\n\n# Diffs\n\n$(git diff --staged)",
    "project-graph" := "$(project-graph)\n\n${POSARGS[@]}",
    "test" := "Count the files:\n$(ls)"
  ]

  /** `Raw`: the stored prompt for a known name, and an `unknown prompt <name>`
      error (no colon) for any other. */
  function Raw(name: string): (r: Result<string>)
    ensures r.Ok? <==> name in Map
    ensures r.Ok? ==> r.value == Map[name]
    ensures r.Err? ==> r.error == Fail("unknown prompt " + name)
  {
    if name in Map then Ok(Map[name]) else Err(Fail("unknown prompt " + name))
  }

  /** The table holds exactly the five prompts. */
  lemma MapKeys()
    ensures Map.Keys == {"review-diff", "review-staged", "commit-message", "project-graph", "test"}
  {
  }
}
