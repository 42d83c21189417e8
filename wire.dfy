/**
 * Byte-level helpers shared by the two enum codecs of package `entity`,
 * the Result/Option wrappers used for Go's `(value, error)` returns, and
 * the sentinel error values the core defines.
 */
module Wire {

  /** A Go `byte`. */
  newtype byte = b: int | 0 <= b < 256

  /** The byte of the ASCII double quote `"`. */
  const Quote: byte := 34

  datatype Option<+T> = None | Some(value: T)

  /** A Go `(value, error)` pair where exactly one side is meaningful. */
  datatype Result<+T, +E> = Ok(value: T) | Err(error: E)

  /**
   * The sentinel errors of the core: `ErrPrefixNotFound`, `ErrSuffixNotFound`
   * and `ErrInvalidMethod` (entity/task_method.go), `ErrInvalidStatus`
   * (entity/task_result_status.go) and `ErrNotFound` (the in-memory store).
   */
  datatype Error = PrefixNotFound | SuffixNotFound | InvalidMethod | InvalidStatus | NotFound

  /** True when every character of `s` is 7-bit ASCII, so that it is one byte in UTF-8. */
  predicate IsAscii(s: string) {
    forall k | 0 <= k < |s| :: s[k] as int < 128
  }

  /** The UTF-8 bytes of an ASCII string (Go's `[]byte(s)`). */
  function Ascii(s: string): seq<byte>
    requires IsAscii(s)
  {
    seq(|s|, k requires 0 <= k < |s| => s[k] as int as byte)
  }

  /**
   * `bytes.CutPrefix(s, []byte{p})`: the rest after a leading `p` and true,
   * or `s` itself and false when `s` does not start with `p`.
   */
  function CutPrefix(s: seq<byte>, p: byte): (r: (seq<byte>, bool))
    ensures r.1 <==> |s| > 0 && s[0] == p
    ensures r.1 ==> [p] + r.0 == s
    ensures !r.1 ==> r.0 == s
  {
    if |s| > 0 && s[0] == p then (s[1..], true) else (s, false)
  }

  /**
   * `bytes.CutSuffix(s, []byte{p})`: the part before a trailing `p` and true,
   * or `s` itself and false when `s` does not end with `p`.
   */
  function CutSuffix(s: seq<byte>, p: byte): (r: (seq<byte>, bool))
    ensures r.1 <==> |s| > 0 && s[|s| - 1] == p
    ensures r.1 ==> r.0 + [p] == s
    ensures !r.1 ==> r.0 == s
  {
    if |s| > 0 && s[|s| - 1] == p then (s[..|s| - 1], true) else (s, false)
  }

  /** The JSON string literal `"` ++ `body` ++ `"` as the two codecs build it. */
  function Quoted(body: seq<byte>): seq<byte> {
    [Quote] + body + [Quote]
  }

  /** Stripping the quotes that `Quoted` adds gives the body back. */
  lemma CutQuoted(body: seq<byte>)
    ensures CutPrefix(Quoted(body), Quote) == (body + [Quote], true)
    ensures CutSuffix(body + [Quote], Quote) == (body, true)
  {
    assert Quoted(body)[1..] == body + [Quote];
    assert (body + [Quote])[..|body|] == body;
  }
}
