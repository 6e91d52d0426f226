/** Model of go/utils/utils.go: YAML loading with a zero value on failure and
    the two error-wrapping helpers. */
module Utils {
  import opened Wrappers

  newtype byte = x: int | 0 <= x < 256
  type Bytes = seq<byte>

  /** What the foreign YAML decoder leaves behind: the value it filled in so far
      and the error it reported, if any. */
  datatype Decoded<T> = Decoded(partial: T, err: Option<Error>)

  /** `FromYAML[T](data)`: the decoded value, or the zero value of `T` with the
      decoder's error (whatever the decoder had filled in is discarded). */
  function FromYAML<T>(data: Bytes, decode: Bytes -> Decoded<T>, zero: T): (r: (T, Option<Error>))
    ensures r.1 == decode(data).err
    ensures r.1.Some? ==> r.0 == zero
    ensures r.1.None? ==> r.0 == decode(data).partial
  {
    var d := decode(data);
    if d.err.Some? then (zero, d.err) else (d.partial, None)
  }

  /** `FromYAMLFile[T](path)`: a read error is returned as is, with the zero value
      and without decoding; otherwise `FromYAML` of the file's bytes. */
  function FromYAMLFile<T>(path: string, readFile: string -> Result<Bytes>,
                           decode: Bytes -> Decoded<T>, zero: T): (r: (T, Option<Error>))
    ensures readFile(path).Err? ==> r == (zero, Some(readFile(path).error))
    ensures readFile(path).Ok? ==> r == FromYAML(readFile(path).value, decode, zero)
  {
    match readFile(path)
    case Err(e) => (zero, Some(e))
    case Ok(data) => FromYAML(data, decode, zero)
  }

  /** `Wrapf(res, err, format, args...)` with `prefix` the formatted `format`:
      the result is passed through unchanged (never zeroed) and a non-nil error
      gets the prefix, keeping the original as its cause. */
  function Wrapf<T>(res: T, err: Option<Error>, prefix: string): (r: (T, Option<Error>))
    ensures r.0 == res
    ensures r.1.None? <==> err.None?
    ensures err.Some? ==> Unwrap(r.1.value) == err
    ensures err.Some? ==> ErrorString(r.1.value) == prefix + ": " + ErrorString(err.value)
  {
    if err.Some? then (res, Some(Wrap(prefix, err.value))) else (res, None)
  }

  /** The `error` variable a Go `*error` points to. */
  class ErrorVar {
    var err: Option<Error>

    constructor (err: Option<Error>)
      ensures this.err == err
    {
      this.err := err;
    }
  }

  /** `Wrap(err, format, args...)`: a nil pointer or a nil error is left alone,
      a non-nil error is replaced by its prefixed wrapping. */
  method WrapError(p: ErrorVar?, prefix: string)
    modifies p
    ensures p != null && old(p.err).Some? ==> p.err == Some(Wrap(prefix, old(p.err).value))
    ensures p != null && old(p.err).None? ==> p.err == None
  {
    if p == null || p.err.None? {
      return;
    }
    p.err := Some(Wrap(prefix, p.err.value));
  }
}
