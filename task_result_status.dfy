/**
 * The task status enum `TaskResultStatus` and its JSON codec. The four
 * statuses are numbered from 1, so the zero value names no status.
 */
module TaskStatusCodec {
  import opened Wire

  /** Go's `type TaskResultStatus int`: any integer, of which 1..4 are named. */
  newtype TaskResultStatus = int

  const TaskStatusNew: TaskResultStatus := 1
  const TaskStatusInProcess: TaskResultStatus := 2
  const TaskStatusError: TaskResultStatus := 3
  const TaskStatusDone: TaskResultStatus := 4

  /** The range `MarshalJSON` accepts. */
  predicate Valid(s: TaskResultStatus) {
    TaskStatusNew <= s <= TaskStatusDone
  }

  /** The zero value of the type is not a status. */
  lemma ZeroIsInvalid()
    ensures !Valid(0 as TaskResultStatus)
    ensures forall s: TaskResultStatus :: Valid(s) <==> s in {TaskStatusNew, TaskStatusInProcess, TaskStatusError, TaskStatusDone}
  {
  }

  /**
   * `String`: the lower-case name of each named status; the empty string
   * for every other value, the zero value included.
   */
  function String(s: TaskResultStatus): (name: string)
    ensures name == "" <==> !Valid(s)
    ensures IsAscii(name)
    ensures forall k | 0 <= k < |name| :: 'a' <= name[k] <= 'z' || name[k] == '_'
  {
    if s == TaskStatusNew then "new"
    else if s == TaskStatusInProcess then "in_process"
    else if s == TaskStatusError then "error"
    else if s == TaskStatusDone then "done"
    else ""
  }

  /** Distinct named statuses have distinct names. */
  lemma StringInjective(a: TaskResultStatus, b: TaskResultStatus)
    requires Valid(a) && Valid(b) && a != b
    ensures String(a) != String(b)
    ensures Ascii(String(a)) != Ascii(String(b))
  {
    assert String(a) != String(b);
    assert Ascii(String(a))[0] != Ascii(String(b))[0] || |String(a)| != |String(b)|;
  }

  /** The JSON text `MarshalJSON` produces for a named status. */
  function JsonText(s: TaskResultStatus): seq<byte> {
    Quoted(Ascii(String(s)))
  }

  /**
   * `MarshalJSON`: `ErrInvalidStatus` outside `TaskStatusNew..TaskStatusDone`,
   * otherwise `String()` between two double quotes.
   */
  function MarshalJSON(s: TaskResultStatus): (r: Result<seq<byte>, Error>)
    ensures r.Err? <==> !Valid(s)
    ensures r.Err? ==> r.error == InvalidStatus
    ensures r.Ok? ==> |r.value| >= 5 && r.value[0] == Quote && r.value[|r.value| - 1] == Quote
    ensures r.Ok? ==> r.value[1..|r.value| - 1] == Ascii(String(s))
  {
    if s > TaskStatusDone || s < TaskStatusNew then Err(InvalidStatus)
    else Ok(JsonText(s))
  }

  /** The `switch string(i)` of `UnmarshalJSON`: a case-sensitive lookup of a name. */
  function FromName(body: seq<byte>): (r: Option<TaskResultStatus>)
    ensures r.Some? ==> Valid(r.value) && Ascii(String(r.value)) == body
  {
    if body == Ascii("new") then Some(TaskStatusNew)
    else if body == Ascii("in_process") then Some(TaskStatusInProcess)
    else if body == Ascii("error") then Some(TaskStatusError)
    else if body == Ascii("done") then Some(TaskStatusDone)
    else None
  }

  /** Every named status is found again by the lookup. */
  lemma FromNameOfString(s: TaskResultStatus)
    requires Valid(s)
    ensures FromName(Ascii(String(s))) == Some(s)
  {
    var r := FromName(Ascii(String(s)));
    if r.None? {
      assert s == TaskStatusNew || s == TaskStatusInProcess || s == TaskStatusError || s == TaskStatusDone;
    } else if r.value != s {
      StringInjective(r.value, s);
    }
  }

  /**
   * `UnmarshalJSON` on the receiver value `t`: the receiver afterwards and
   * the error returned. The receiver is assigned only on success.
   */
  function UnmarshalJSON(t: TaskResultStatus, i: seq<byte>): (r: (TaskResultStatus, Option<Error>))
    ensures r.1 == Some(PrefixNotFound) <==> !(|i| > 0 && i[0] == Quote)
    ensures r.1 == Some(SuffixNotFound) <==> |i| > 0 && i[0] == Quote && (|i| == 1 || i[|i| - 1] != Quote)
    ensures r.1.Some? ==> r.0 == t
    ensures r.1.Some? ==> r.1.value in {PrefixNotFound, SuffixNotFound, InvalidStatus}
    ensures r.1.None? ==> Valid(r.0) && i == JsonText(r.0)
  {
    var (rest, hasPrefix) := CutPrefix(i, Quote);
    if !hasPrefix then (t, Some(PrefixNotFound))
    else
      var (body, hasSuffix) := CutSuffix(rest, Quote);
      if !hasSuffix then (t, Some(SuffixNotFound))
      else
        match FromName(body)
        case Some(parsed) => (parsed, None)
        case None => (t, Some(InvalidStatus))
  }

  /** Round trip: unmarshalling what `MarshalJSON` produced yields the status, whatever the receiver held. */
  lemma RoundTrip(s: TaskResultStatus, t: TaskResultStatus)
    requires Valid(s)
    ensures MarshalJSON(s).Ok?
    ensures UnmarshalJSON(t, MarshalJSON(s).value) == (s, None)
  {
    CutQuoted(Ascii(String(s)));
    FromNameOfString(s);
  }

  /** `UnmarshalJSON` succeeds exactly on the four texts `MarshalJSON` produces. */
  lemma UnmarshalAcceptsExactlyMarshalled(t: TaskResultStatus, i: seq<byte>)
    ensures UnmarshalJSON(t, i).1.None? <==> exists s :: Valid(s) && MarshalJSON(s) == Ok(i)
  {
    if UnmarshalJSON(t, i).1.None? {
      var s := UnmarshalJSON(t, i).0;
      assert Valid(s) && MarshalJSON(s) == Ok(i);
    }
    if s :| Valid(s) && MarshalJSON(s) == Ok(i) {
      RoundTrip(s, t);
    }
  }

  /** Quoted text that is not exactly one of the four names is `ErrInvalidStatus`. */
  lemma UnmarshalRejectsUnknownName(t: TaskResultStatus, body: seq<byte>)
    requires forall s :: Valid(s) ==> Ascii(String(s)) != body
    ensures UnmarshalJSON(t, Quoted(body)) == (t, Some(InvalidStatus))
  {
    CutQuoted(body);
  }

  /** A nil (empty) input has no leading quote, and the receiver keeps its value. */
  lemma NilInputHasNoPrefix(t: TaskResultStatus)
    ensures UnmarshalJSON(t, []) == (t, Some(PrefixNotFound))
  {
  }
}
