/**
 * The parts of Go's log/slog that the console handler consumes: levels,
 * values, attributes, the built-in keys, and lazy-value resolution.
 * They are external to the handler; only the behaviour the handler relies
 * on is modelled.
 */
module Slog {

  datatype Option<+T> = None | Some(value: T)

  /** The four named anchors of slog.Level. */
  const LevelDebug: int := -4
  const LevelInfo: int := 0
  const LevelWarn: int := 4
  const LevelError: int := 8

  /** The keys slog gives the built-in fields when they are passed to a rewrite hook. */
  const TimeKey: string := "time"
  const LevelKey: string := "level"
  const MessageKey: string := "msg"
  const SourceKey: string := "source"

  /** A time.Time, counted from Go's zero time; 0 is the zero instant. */
  datatype Instant = Instant(sinceZero: int) {
    predicate IsZero() { sinceZero == 0 }
  }

  /** A slog.Source: where a log call came from. */
  datatype Source = Source(funcName: string, file: string, line: int)

  /**
   * The dynamic value carried by a slog.Value of kind Any, by the capability
   * the handler probes for. An error that also formats itself with %+v
   * (fmt.Formatter) carries that text in `detailed`.
   */
  datatype AnyVal =
    | Nil                                         // a nil interface
    | LevelOf(level: int)                         // a slog.Level (a fmt.Stringer)
    | SourceRef(src: Option<Source>)              // a *slog.Source; None is a nil pointer
    | Error(message: string, detailed: Option<string>)
    | Stringer(text: string)                      // a fmt.Stringer that is not an error
    | Valuer(value: Value)                        // a slog.LogValuer and the value it resolves to
    | Other(text: string)                         // anything else, with its %v text

  /** A slog.Value. */
  datatype Value =
    | Int64(i: int)
    | Uint64(u: nat)
    | Float64(f: real)
    | Bool(b: bool)
    | Time(t: Instant)
    | Duration(nanos: int)
    | String(s: string)
    | Group(attrs: seq<Attr>)
    | Any(any: AnyVal)

  /** A slog.Attr. */
  datatype Attr = Attr(key: string, value: Value)

  /** slog.Attr{}: the empty key with the zero Value (kind Any, nil). */
  const EmptyAttr: Attr := Attr("", Any(Nil))

  /**
   * Value.Resolve: follow LogValuer values until a value that is not one.
   * The values inside a group are not resolved.
   */
  function Resolve(v: Value): (r: Value)
    ensures !(r.Any? && r.any.Valuer?)
    ensures ValueSize(r) <= ValueSize(v)
    ensures !(v.Any? && v.any.Valuer?) ==> r == v
  {
    match v
    case Any(Valuer(w)) => Resolve(w)
    case _ => v
  }

  /** A size measure on values, used to show that group flattening terminates. */
  function ValueSize(v: Value): nat
  {
    match v
    case Group(attrs) => 1 + AttrsSize(attrs)
    case Any(Valuer(w)) => 1 + ValueSize(w)
    case _ => 1
  }

  function AttrSize(a: Attr): nat
  {
    1 + ValueSize(a.value)
  }

  /** Defined from the right, so that dropping the last attribute shrinks it. */
  function AttrsSize(s: seq<Attr>): nat
  {
    if s == [] then 0 else AttrsSize(s[..|s| - 1]) + AttrSize(s[|s| - 1])
  }

  /** Resolution is idempotent: a resolved value resolves to itself. */
  lemma {:induction false} ResolveIdempotent(v: Value)
    ensures Resolve(Resolve(v)) == Resolve(v)
  {
    match v
    case Any(Valuer(w)) => ResolveIdempotent(w);
    case _ =>
  }

  /** Every attribute of a list is no larger than the list. */
  lemma {:induction false} AttrSizeBounded(s: seq<Attr>, i: nat)
    requires i < |s|
    ensures AttrSize(s[i]) <= AttrsSize(s)
  {
    if i < |s| - 1 {
      AttrSizeBounded(s[..|s| - 1], i);
    }
  }
}
