/**
 * The service's naming and classification methods: `getSpanName`,
 * `getSpanType` and `getType`. All three are total and touch no state.
 */
module Naming {
  import opened Wrappers
  import opened Events

  /** The fallback span name. */
  const Unnamed: string := "unnamed"

  /** The separator `getSpanType` joins the node path with. */
  const Separator: char := '⇄'

  /**
   * `getSpanName`: `name` when truthy, else `action.name` when `action` is
   * present (which may be undefined, `None`), else `"unnamed"`.
   */
  function SpanName(m: Payload): (r: Option<string>)
    ensures Truthy(m.name) ==> r == m.name
    ensures !Truthy(m.name) && m.action.None? ==> r == Some(Unnamed)
    ensures !Truthy(m.name) && m.action.Some? ==> r == m.action.value.name
    ensures r.None? <==> !Truthy(m.name) && m.action.Some? && m.action.value.name.None?
  {
    if Truthy(m.name) then m.name
    else if m.action.Some? then m.action.value.name
    else Some(Unnamed)
  }

  /** `Array.prototype.join` with a one-character separator. */
  function Join(parts: seq<string>, sep: char): (r: string)
  {
    if |parts| == 0 then ""
    else if |parts| == 1 then parts[0]
    else parts[0] + [sep] + Join(parts[1..], sep)
  }

  /** `String.prototype.split` at every occurrence of one character: the inverse of `Join`. */
  function Split(s: string, sep: char): (r: seq<string>)
    ensures |r| >= 1
  {
    if |s| == 0 then [""]
    else
      var rest := Split(s[1..], sep);
      if s[0] == sep then [""] + rest
      else [[s[0]] + rest[0]] + rest[1..]
  }

  /** The fields `getSpanType` looks at, in the order it pushes them. */
  function NodePath(m: Payload): (r: seq<string>)
  {
    (if m.parentID.Some? then [m.parentID.value] else [])
    + (if m.callerNodeID.Some? then [m.callerNodeID.value] else [])
    + (if m.nodeID.Some? then [m.nodeID.value] else [])
  }

  /** `getSpanType`: the present node-path fields joined with `⇄`. */
  function SpanType(m: Payload): (r: string)
    ensures r == "" <==> NodePath(m) == [] || NodePath(m) == [""]
  {
    JoinEmpty(NodePath(m), Separator);
    Join(NodePath(m), Separator)
  }

  /**
   * `getType`: `"request"`, then `".cache"` when `fromCache`, then `".remote"`
   * when `remoteCall`; a truthy `error` replaces the whole string by `".error"`.
   */
  function TransactionType(m: Payload): (r: string)
    ensures m.error ==> r == ".error"
    ensures !m.error ==> r == "request" + (if m.fromCache then ".cache" else "")
                                        + (if m.remoteCall then ".remote" else "")
  {
    var base := "request";
    var cached := if m.fromCache then base + ".cache" else base;
    var remote := if m.remoteCall then cached + ".remote" else cached;
    if m.error then ".error" else remote
  }

  predicate NoSeparator(s: string, sep: char) {
    forall i :: 0 <= i < |s| ==> s[i] != sep
  }

  lemma {:induction false} JoinSplit(s: string, sep: char)
    ensures Join(Split(s, sep), sep) == s
    decreases |s|
  {
    if |s| > 0 {
      var rest := Split(s[1..], sep);
      JoinSplit(s[1..], sep);
      if s[0] == sep {
        assert Split(s, sep) == [""] + rest;
        assert s == [s[0]] + s[1..];
      } else {
        assert Split(s, sep) == [[s[0]] + rest[0]] + rest[1..];
        if |rest| == 1 {
          assert s == [s[0]] + rest[0];
        } else {
          assert Join(rest, sep) == rest[0] + [sep] + Join(rest[1..], sep);
          assert s == [s[0]] + s[1..];
        }
      }
    }
  }

  /** Splitting a separator-free prefix glues it onto the first piece of the rest. */
  lemma {:induction false} SplitPrefix(x: string, tail: string, sep: char)
    requires NoSeparator(x, sep)
    ensures Split(x + tail, sep) == [x + Split(tail, sep)[0]] + Split(tail, sep)[1..]
    decreases |x|
  {
    if |x| > 0 {
      var rest := Split(tail, sep);
      SplitPrefix(x[1..], tail, sep);
      assert (x + tail)[0] == x[0] != sep;
      assert (x + tail)[1..] == x[1..] + tail;
      assert [x[0]] + (x[1..] + rest[0]) == x + rest[0];
    } else {
      var rest := Split(tail, sep);
      assert x + tail == tail;
      assert x + rest[0] == rest[0];
      assert rest == [rest[0]] + rest[1..];
    }
  }

  lemma {:induction false} SplitJoin(parts: seq<string>, sep: char)
    requires |parts| >= 1
    requires forall i :: 0 <= i < |parts| ==> NoSeparator(parts[i], sep)
    ensures Split(Join(parts, sep), sep) == parts
    decreases |parts|
  {
    if |parts| == 1 {
      SplitPrefix(parts[0], "", sep);
      assert parts[0] + "" == parts[0];
    } else {
      var tail := [sep] + Join(parts[1..], sep);
      SplitPrefix(parts[0], tail, sep);
      SplitJoin(parts[1..], sep);
      assert tail[1..] == Join(parts[1..], sep);
      assert Split(tail, sep) == [""] + parts[1..];
      assert parts[0] + "" == parts[0];
      assert Join(parts, sep) == parts[0] + tail;
    }
  }

  /** A join is empty exactly when nothing, or one empty string, was joined. */
  lemma {:induction false} JoinEmpty(parts: seq<string>, sep: char)
    ensures Join(parts, sep) == "" <==> parts == [] || parts == [""]
  {
    if |parts| >= 2 {
      assert Join(parts, sep)[|parts[0]|] == sep;
    }
  }

  /** `getSpanType` is the empty string when `parentID`, `callerNodeID` and `nodeID` are all absent. */
  lemma {:induction false} SpanTypeNoFields(m: Payload)
    requires m.parentID.None? && m.callerNodeID.None? && m.nodeID.None?
    ensures SpanType(m) == ""
  {
  }

  /** With every field present, the span type is the three values joined in push order. */
  lemma {:induction false} SpanTypeAllFields(m: Payload)
    requires m.parentID.Some? && m.callerNodeID.Some? && m.nodeID.Some?
    ensures SpanType(m) == m.parentID.value + [Separator] + m.callerNodeID.value + [Separator] + m.nodeID.value
  {
    var path := NodePath(m);
    assert path == [m.parentID.value, m.callerNodeID.value, m.nodeID.value];
    assert Join(path[2..], Separator) == m.nodeID.value;
    assert Join(path[1..], Separator) == m.callerNodeID.value + [Separator] + m.nodeID.value;
  }

  /**
   * The span type keeps exactly the present fields, in the order `parentID`,
   * `callerNodeID`, `nodeID`: splitting it at `⇄` gives them back whenever
   * none of them contains the separator.
   */
  lemma {:induction false} SpanTypeFields(m: Payload)
    requires NodePath(m) != []
    requires forall i :: 0 <= i < |NodePath(m)| ==> NoSeparator(NodePath(m)[i], Separator)
    ensures Split(SpanType(m), Separator) == NodePath(m)
  {
    SplitJoin(NodePath(m), Separator);
  }

  /** Without an error, the transaction type tells `fromCache` and `remoteCall` apart. */
  lemma {:induction false} TransactionTypeDeterminesFlags(a: Payload, b: Payload)
    requires !a.error && !b.error
    requires TransactionType(a) == TransactionType(b)
    ensures a.fromCache == b.fromCache && a.remoteCall == b.remoteCall
  {
  }

  /** `".error"` is never produced by the suffix rule, whatever the flags. */
  lemma {:induction false} ErrorTypeDistinct(a: Payload, b: Payload)
    requires a.error && !b.error
    ensures TransactionType(a) != TransactionType(b)
  {
  }
}
