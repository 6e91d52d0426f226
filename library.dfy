/** Model of go/ai/prompts/prompts.go: the prompt library, its loading from
    YAML and the call-once memoiser used for the embedded library. */
module Prompts {
  import opened Wrappers
  import Utils
  import LegacyPrompts

  /** The four categories of named template sources. */
  datatype Library = Library(
    prompts: map<string, string>,
    personas: map<string, string>,
    instructions: map<string, string>,
    section1: map<string, string>)

  /** The zero `Library` (four nil maps). */
  const EmptyLibrary := Library(map[], map[], map[], map[])

  /** `FromYAML`: the decoded library, or the zero library and the decoder's
      error wrapped as `failed to load prompt library from YAML`. */
  function FromYAML(data: Utils.Bytes, decode: Utils.Bytes -> Utils.Decoded<Library>): (r: (Library, Option<Error>))
    ensures decode(data).err.None? ==> r == (decode(data).partial, None)
    ensures decode(data).err.Some? ==>
      r == (EmptyLibrary, Some(Wrap("failed to load prompt library from YAML", decode(data).err.value)))
  {
    var (res, err) := Utils.FromYAML(data, decode, EmptyLibrary);
    Utils.Wrapf(res, err, "failed to load prompt library from YAML")
  }

  /** `Library.RawPrompt`: the stored source for a known prompt name, and an
      `unknown prompt: <name>` error for any other. */
  function RawPrompt(lib: Library, name: string): (r: Result<string>)
    ensures r.Ok? <==> name in lib.prompts
    ensures r.Ok? ==> r.value == lib.prompts[name]
    ensures r.Err? ==> r.error == Fail("unknown prompt: " + name)
  {
    if name in lib.prompts then Ok(lib.prompts[name]) else Err(Fail("unknown prompt: " + name))
  }

  /** The library's message for an unknown prompt differs from the legacy
      table's: it has a colon after `prompt`. */
  lemma UnknownPromptMessagesDiffer(lib: Library, name: string)
    requires name !in lib.prompts && name !in LegacyPrompts.Map
    ensures ErrorString(RawPrompt(lib, name).error) != ErrorString(LegacyPrompts.Raw(name).error)
  {
    var a, b := ErrorString(RawPrompt(lib, name).error), ErrorString(LegacyPrompts.Raw(name).error);
    assert a[14] == ':' && b[14] == ' ';
  }

  /** `onceErr(mk)`: the memoised `(value, err)` pair. `calls` counts the calls
      of `mk`; the cache holds the pair of its only call. */
  class OnceErr<T> {
    var cache: Option<(T, Option<Error>)>
    ghost var calls: nat

    ghost predicate Valid()
      reads this
    {
      calls <= 1 && (cache.None? <==> calls == 0)
    }

    constructor ()
      ensures Valid() && cache == None && calls == 0
    {
      cache := None;
      calls := 0;
    }

    /** One call of the memoised getter; `produced` is what `mk` returns if it
        is called now. The first call stores it; every later call returns the
        stored pair, a cached error included, without calling `mk` again. */
    method Get(produced: (T, Option<Error>)) returns (value: T, err: Option<Error>)
      requires Valid()
      modifies this
      ensures Valid() && calls == 1
      ensures old(cache).None? ==> (value, err) == produced
      ensures old(cache).Some? ==> (value, err) == old(cache).value && calls == old(calls)
      ensures cache == Some((value, err))
    {
      if cache.None? {
        cache := Some(produced);
        calls := calls + 1;
      }
      value, err := cache.value.0, cache.value.1;
    }
  }

  /** Two calls of the memoised getter return the same pair, whatever `mk`
      would produce the second time. */
  method OnceErrStable<T>(once: OnceErr<T>, first: (T, Option<Error>), second: (T, Option<Error>))
    returns (a: (T, Option<Error>), b: (T, Option<Error>))
    requires once.Valid()
    modifies once
    ensures a == b && once.calls == 1
  {
    var v1, e1 := once.Get(first);
    var v2, e2 := once.Get(second);
    a, b := (v1, e1), (v2, e2);
  }
}
