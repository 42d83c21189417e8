/**
 * The HTTP-verb enum `TaskMethod` and its JSON codec: nine integer
 * constants, `String`, `MarshalJSON` and `UnmarshalJSON`.
 */
module TaskMethodCodec {
  import opened Wire

  /** Go's `type TaskMethod int`: any integer, of which 0..8 are named. */
  newtype TaskMethod = int

  const MethodGet: TaskMethod := 0
  const MethodHead: TaskMethod := 1
  const MethodPost: TaskMethod := 2
  const MethodPut: TaskMethod := 3
  const MethodPatch: TaskMethod := 4
  const MethodDelete: TaskMethod := 5
  const MethodConnect: TaskMethod := 6
  const MethodOptions: TaskMethod := 7
  const MethodTrace: TaskMethod := 8

  /** The range `MarshalJSON` accepts. */
  predicate Valid(m: TaskMethod) {
    MethodGet <= m <= MethodTrace
  }

  /**
   * `String`: the method token of each named constant; the empty string
   * for every other value (the zero value of the local `method`).
   */
  function String(m: TaskMethod): (s: string)
    ensures s == "" <==> !Valid(m)
    ensures IsAscii(s)
    ensures forall k | 0 <= k < |s| :: 'A' <= s[k] <= 'Z'
  {
    if m == MethodGet then "GET"
    else if m == MethodHead then "HEAD"
    else if m == MethodPost then "POST"
    else if m == MethodPut then "PUT"
    else if m == MethodPatch then "PATCH"
    else if m == MethodDelete then "DELETE"
    else if m == MethodConnect then "CONNECT"
    else if m == MethodOptions then "OPTIONS"
    else if m == MethodTrace then "TRACE"
    else ""
  }

  /** Distinct named methods have distinct tokens. */
  lemma StringInjective(a: TaskMethod, b: TaskMethod)
    requires Valid(a) && Valid(b) && a != b
    ensures String(a) != String(b)
    ensures Ascii(String(a)) != Ascii(String(b))
  {
    assert String(a) != String(b);
    assert Ascii(String(a))[0] != Ascii(String(b))[0] || |String(a)| != |String(b)| ||
      Ascii(String(a))[1] != Ascii(String(b))[1];
  }

  /** The JSON text `MarshalJSON` produces for a named method. */
  function JsonText(m: TaskMethod): seq<byte> {
    Quoted(Ascii(String(m)))
  }

  /**
   * `MarshalJSON`: `ErrInvalidMethod` outside `MethodGet..MethodTrace`,
   * otherwise `String()` between two double quotes.
   */
  function MarshalJSON(m: TaskMethod): (r: Result<seq<byte>, Error>)
    ensures r.Err? <==> !Valid(m)
    ensures r.Err? ==> r.error == InvalidMethod
    ensures r.Ok? ==> |r.value| >= 5 && r.value[0] == Quote && r.value[|r.value| - 1] == Quote
    ensures r.Ok? ==> r.value[1..|r.value| - 1] == Ascii(String(m))
  {
    if m > MethodTrace || m < MethodGet then Err(InvalidMethod)
    else Ok(JsonText(m))
  }

  /** The `switch string(i)` of `UnmarshalJSON`: a case-sensitive lookup of a token. */
  function FromToken(body: seq<byte>): (r: Option<TaskMethod>)
    ensures r.Some? ==> Valid(r.value) && Ascii(String(r.value)) == body
  {
    if body == Ascii("GET") then Some(MethodGet)
    else if body == Ascii("HEAD") then Some(MethodHead)
    else if body == Ascii("POST") then Some(MethodPost)
    else if body == Ascii("PUT") then Some(MethodPut)
    else if body == Ascii("PATCH") then Some(MethodPatch)
    else if body == Ascii("DELETE") then Some(MethodDelete)
    else if body == Ascii("CONNECT") then Some(MethodConnect)
    else if body == Ascii("OPTIONS") then Some(MethodOptions)
    else if body == Ascii("TRACE") then Some(MethodTrace)
    else None
  }

  /** Every named method's token is found again by the lookup. */
  lemma FromTokenOfString(m: TaskMethod)
    requires Valid(m)
    ensures FromToken(Ascii(String(m))) == Some(m)
  {
    var r := FromToken(Ascii(String(m)));
    if r.None? {
      assert m == MethodGet || m == MethodHead || m == MethodPost || m == MethodPut || m == MethodPatch
        || m == MethodDelete || m == MethodConnect || m == MethodOptions || m == MethodTrace;
    } else if r.value != m {
      StringInjective(r.value, m);
    }
  }

  /**
   * `UnmarshalJSON` on the receiver value `t`: the receiver afterwards and
   * the error returned. The receiver is assigned only on success.
   */
  function UnmarshalJSON(t: TaskMethod, i: seq<byte>): (r: (TaskMethod, Option<Error>))
    ensures r.1 == Some(PrefixNotFound) <==> !(|i| > 0 && i[0] == Quote)
    ensures r.1 == Some(SuffixNotFound) <==> |i| > 0 && i[0] == Quote && (|i| == 1 || i[|i| - 1] != Quote)
    ensures r.1.Some? ==> r.0 == t
    ensures r.1.Some? ==> r.1.value in {PrefixNotFound, SuffixNotFound, InvalidMethod}
    ensures r.1.None? ==> Valid(r.0) && i == JsonText(r.0)
  {
    var (rest, hasPrefix) := CutPrefix(i, Quote);
    if !hasPrefix then (t, Some(PrefixNotFound))
    else
      var (body, hasSuffix) := CutSuffix(rest, Quote);
      if !hasSuffix then (t, Some(SuffixNotFound))
      else
        match FromToken(body)
        case Some(parsed) => (parsed, None)
        case None => (t, Some(InvalidMethod))
  }

  /** Round trip: unmarshalling what `MarshalJSON` produced yields the method, whatever the receiver held. */
  lemma RoundTrip(m: TaskMethod, t: TaskMethod)
    requires Valid(m)
    ensures MarshalJSON(m).Ok?
    ensures UnmarshalJSON(t, MarshalJSON(m).value) == (m, None)
  {
    CutQuoted(Ascii(String(m)));
    FromTokenOfString(m);
  }

  /** `UnmarshalJSON` succeeds exactly on the nine texts `MarshalJSON` produces. */
  lemma UnmarshalAcceptsExactlyMarshalled(t: TaskMethod, i: seq<byte>)
    ensures UnmarshalJSON(t, i).1.None? <==> exists m :: Valid(m) && MarshalJSON(m) == Ok(i)
  {
    if UnmarshalJSON(t, i).1.None? {
      var m := UnmarshalJSON(t, i).0;
      assert Valid(m) && MarshalJSON(m) == Ok(i);
    }
    if m :| Valid(m) && MarshalJSON(m) == Ok(i) {
      RoundTrip(m, t);
    }
  }

  /** Quoted text that is not exactly one of the nine tokens is `ErrInvalidMethod`. */
  lemma UnmarshalRejectsUnknownToken(t: TaskMethod, body: seq<byte>)
    requires forall m :: Valid(m) ==> Ascii(String(m)) != body
    ensures UnmarshalJSON(t, Quoted(body)) == (t, Some(InvalidMethod))
  {
    CutQuoted(body);
  }

  /** The lower-case spelling of an ASCII string: `A`..`Z` become `a`..`z`. */
  function ToLower(s: string): string {
    seq(|s|, k requires 0 <= k < |s| => if 'A' <= s[k] <= 'Z' then (s[k] as int + 32) as char else s[k])
  }

  /**
   * The lookup is case-sensitive: the lower-case spelling of every token
   * (`"get"`, `"head"`, ...) is `ErrInvalidMethod`, and the receiver is kept.
   */
  lemma LowerCaseRejected(t: TaskMethod, m: TaskMethod)
    requires Valid(m)
    ensures IsAscii(ToLower(String(m)))
    ensures UnmarshalJSON(t, Quoted(Ascii(ToLower(String(m))))) == (t, Some(InvalidMethod))
  {
    var body := Ascii(ToLower(String(m)));
    assert 'a' as int <= body[0] as int <= 'z' as int;
    forall n | Valid(n) ensures Ascii(String(n)) != body {
      assert 'A' as int <= Ascii(String(n))[0] as int <= 'Z' as int;
    }
    UnmarshalRejectsUnknownToken(t, body);
  }
}
