/**
 * The record encoder of the console handler (encoding.go): the bytes each
 * writer appends for the timestamp, level, source, message and attributes.
 *
 * Each writer is given twice: a function that says which text it appends
 * (TimestampText, LevelText, ...), and a method of class Encoder that
 * appends it to a Buffer in place, as the Go encoder does, proved to append
 * exactly that text.
 */
module Encoding {
  import opened Slog
  import opened Numbers

  /** The style tokens of a Theme; "" means "no style". */
  datatype Theme = Theme(
    timestamp: string, source: string, message: string, messageDebug: string,
    levelDebug: string, levelInfo: string, levelWarn: string, levelError: string,
    attrKey: string, attrValue: string, attrValueError: string, header: string)

  /**
   * Formatting done by code outside the encoder: time layouts, floats,
   * durations, slog.Level.String, and fmt's %v of groups and of other values.
   */
  datatype Formats = Formats(
    time: (Instant, string) -> string,
    float: real -> string,
    duration: int -> string,
    levelString: int -> string,
    groupString: seq<Attr> -> string,
    anyString: AnyVal -> string)

  /** HandlerOptions.ReplaceAttr: rewrites an attribute, given the enclosing group names. */
  type Hook = (seq<string>, Attr) -> Attr

  /** The options the encoder reads, with defaults already applied; resetMod is the package's ResetMod token. */
  datatype Options = Options(
    addSource: bool,
    level: int,
    noColor: bool,
    timeFormat: string,
    theme: Theme,
    headers: seq<string>,
    replaceAttr: Option<Hook>,
    resetMod: string,
    fmt: Formats)

  /** Where the source field comes from: the working directory, filepath.Rel and the frame of a program counter. */
  datatype Env = Env(cwd: string, rel: (string, string) -> Option<string>, frame: nat -> Source)

  /**
   * How many times the rewrite hook may turn a leaf attribute into a group
   * along one path; a group made past this depth is dropped.
   */
  const HookGroupDepth: nat := 16

  // ---------------------------------------------------------------------
  // What each writer appends
  // ---------------------------------------------------------------------

  /** withColor: the inner text, wrapped in the style and the reset token unless there is no style or colour is off. */
  function WithColor(o: Options, style: string, inner: string): string
  {
    if style == "" || o.noColor then inner else style + inner + o.resetMod
  }

  /** Value.String() for a value of kind Any: fmt's %v of the dynamic value. */
  function AnyText(o: Options, a: AnyVal): string
  {
    match a
    case Nil => "<nil>"
    case LevelOf(l) => o.fmt.levelString(l)
    case Error(msg, _) => msg
    case Stringer(t) => t
    case Other(t) => t
    case _ => o.fmt.anyString(a)
  }

  /** The plain text of a value, before styling. */
  function ValueText(o: Options, v: Value): string
  {
    match v
    case Int64(i) => IntText(i)
    case Uint64(u) => NatText(u)
    case Float64(f) => o.fmt.float(f)
    case Bool(b) => if b then "true" else "false"
    case Time(t) => o.fmt.time(t, o.timeFormat)
    case Duration(d) => o.fmt.duration(d)
    case String(s) => s
    case Group(attrs) => o.fmt.groupString(attrs)
    case Any(Error(msg, detailed)) => if detailed.Some? then detailed.value else msg
    case Any(a) => AnyText(o, a)
  }

  /** The style a value is written in: the error style for errors, c for everything else. */
  function ValueStyle(o: Options, v: Value, c: string): string
  {
    if v.Any? && v.any.Error? then o.theme.attrValueError else c
  }

  /** writeColoredValue: a value's text in style c, or in the error style when it is an error. */
  function ColoredValue(o: Options, v: Value, c: string): string
  {
    WithColor(o, ValueStyle(o, v, c), ValueText(o, v))
  }

  /** The anchor a level is named after, and its value: the highest anchor at or below l, DBG below Debug. */
  function LevelAnchor(l: int): (r: (string, int))
    ensures r.0 == "ERR" <==> l >= LevelError
    ensures r.0 == "WRN" <==> LevelWarn <= l < LevelError
    ensures r.0 == "INF" <==> LevelInfo <= l < LevelWarn
    ensures r.0 == "DBG" <==> l < LevelInfo
    ensures r.1 == (if l >= LevelError then LevelError else if l >= LevelWarn then LevelWarn
                    else if l >= LevelInfo then LevelInfo else LevelDebug)
  {
    if l >= LevelError then ("ERR", LevelError)
    else if l >= LevelWarn then ("WRN", LevelWarn)
    else if l >= LevelInfo then ("INF", LevelInfo)
    else if l >= LevelDebug then ("DBG", LevelDebug)
    else ("DBG", LevelDebug)
  }

  /** The name of a level: its anchor, then the offset from it with %+d when the offset is not zero. */
  function LevelLabel(l: int): string
  {
    var (name, base) := LevelAnchor(l);
    if l - base != 0 then name + SignedText(l - base) else name
  }

  function LevelStyle(o: Options, l: int): string
  {
    if l >= LevelError then o.theme.levelError
    else if l >= LevelWarn then o.theme.levelWarn
    else if l >= LevelInfo then o.theme.levelInfo
    else o.theme.levelDebug
  }

  /** writeTimestamp. */
  function TimestampText(o: Options, t: Instant): string
  {
    if t.IsZero() then ""
    else if o.replaceAttr.Some? then
      var v := Resolve(o.replaceAttr.value([], Attr(TimeKey, Time(t))).value);
      if v.Time? then
        if v.t.IsZero() then "" else WithColor(o, o.theme.timestamp, o.fmt.time(v.t, o.timeFormat)) + " "
      else if v == Any(Nil) then ""
      else ColoredValue(o, v, o.theme.timestamp) + " "
    else WithColor(o, o.theme.timestamp, o.fmt.time(t, o.timeFormat)) + " "
  }

  /** writeLevel. */
  function LevelText(o: Options, l: int): string
  {
    if o.replaceAttr.Some? then
      var v := Resolve(o.replaceAttr.value([], Attr(LevelKey, Any(LevelOf(l)))).value);
      if v.Any? && v.any.LevelOf? then WithColor(o, LevelStyle(o, v.any.level), LevelLabel(v.any.level)) + " "
      else if v == Any(Nil) then ""
      else ColoredValue(o, v, LevelStyle(o, l)) + " "
    else WithColor(o, LevelStyle(o, l), LevelLabel(l)) + " "
  }

  /** The source field for a located source: the path relative to cwd when that can be had, ':' and the line. */
  function LocatedText(o: Options, env: Env, src: Source): string
  {
    if src.file == "" && src.line == 0 then ""
    else
      var file := if env.cwd != "" && env.rel(env.cwd, src.file).Some? then env.rel(env.cwd, src.file).value else src.file;
      WithColor(o, o.theme.source, file + ":" + IntText(src.line)) + WithColor(o, o.theme.attrKey, " > ")
  }

  /** writeSource, with the frame of pc given by env. */
  function SourceText(o: Options, env: Env, pc: nat): string
  {
    var src := if pc > 0 then env.frame(pc) else Source("", "", 0);
    if o.replaceAttr.Some? then
      var v := Resolve(o.replaceAttr.value([], Attr(SourceKey, Any(SourceRef(Some(src))))).value);
      if v == Any(Nil) then ""
      else if v.Any? && v.any.SourceRef? then
        if v.any.src.None? then ""
        else LocatedText(o, env, Source(src.funcName, v.any.src.value.file, v.any.src.value.line))
      else ColoredValue(o, v, o.theme.timestamp) + WithColor(o, o.theme.attrKey, " > ")
    else LocatedText(o, env, src)
  }

  function MessageStyle(o: Options, l: int): string
  {
    if l < LevelInfo then o.theme.messageDebug else o.theme.message
  }

  /** writeMessage. */
  function MessageText(o: Options, l: int, msg: string): string
  {
    if o.replaceAttr.Some? then
      var v := Resolve(o.replaceAttr.value([], Attr(MessageKey, String(msg))).value);
      if v == Any(Nil) then "" else ColoredValue(o, v, MessageStyle(o, l))
    else WithColor(o, MessageStyle(o, l), msg)
  }

  /** The qualified key of a leaf: the group prefix and '.' when there is one, the key, '='. */
  function KeyText(group: string, key: string): string
  {
    (if group != "" then group + "." else "") + key + "="
  }

  /** A leaf attribute: a space, the styled key and the styled value. */
  function LeafText(o: Options, key: string, v: Value, group: string): string
  {
    " " + WithColor(o, o.theme.attrKey, KeyText(group, key)) + ColoredValue(o, v, o.theme.attrValue)
  }

  /** The prefix of the children of group `key` under prefix `group`. */
  function Subgroup(group: string, key: string): string
  {
    if group != "" then group + "." + key else key
  }

  /** The hook's group names while the children of group `key` are written. */
  function PushGroup(o: Options, groups: seq<string>, key: string): seq<string>
  {
    if o.replaceAttr.Some? then groups + [key] else groups
  }

  /**
   * writeAttr: the text of one attribute under prefix `group`, the hook
   * seeing `groups`; `fuel` bounds groups made by the hook.
   */
  function AttrText(o: Options, groups: seq<string>, a: Attr, group: string, fuel: nat): string
    decreases fuel, AttrSize(a), 0
  {
    if a == EmptyAttr then ""
    else
      var v := Resolve(a.value);
      if !v.Group? && o.replaceAttr.Some? then
        var b := o.replaceAttr.value(groups, Attr(a.key, v));
        if b == EmptyAttr then ""
        else
          var w := Resolve(b.value);
          if !w.Group? then LeafText(o, b.key, w, group)
          else if fuel == 0 then ""
          else AttrsText(o, PushGroup(o, groups, b.key), w.attrs, |w.attrs|, Subgroup(group, b.key), fuel - 1)
      else if v.Group? then
        AttrsText(o, PushGroup(o, groups, a.key), v.attrs, |v.attrs|, Subgroup(group, a.key), fuel)
      else LeafText(o, a.key, v, group)
  }

  /** The first n attributes of a list, one after the other. */
  function AttrsText(o: Options, groups: seq<string>, s: seq<Attr>, n: nat, group: string, fuel: nat): string
    requires n <= |s|
    decreases fuel, AttrsSize(s), 1, n
  {
    if n == 0 then ""
    else
      AttrSizeBounded(s, n - 1);
      AttrsText(o, groups, s, n - 1, group, fuel) + AttrText(o, groups, s[n - 1], group, fuel)
  }

  /**
   * The header slots (inferred: writeHeaders is defined outside encoding.go
   * and handler.go): each slot that is not the empty Attr, as its value in the
   * header style followed by a space.
   */
  function HeadersText(o: Options, slots: seq<Attr>): string
  {
    if slots == [] then ""
    else
      var last := slots[|slots| - 1];
      HeadersText(o, slots[..|slots| - 1])
      + (if last == EmptyAttr then "" else ColoredValue(o, Resolve(last.value), o.theme.header) + " ")
  }

  /** The divider between the header zone and the message (inferred, as HeadersText). */
  function SeparatorText(o: Options): string
  {
    WithColor(o, o.theme.attrKey, "> ")
  }

  /** The group names the encoder starts with: the handler's, but only when a hook will read them. */
  function InitGroups(o: Options, handlerGroups: seq<string>): seq<string>
  {
    if o.replaceAttr.Some? then handlerGroups else []
  }

  // ---------------------------------------------------------------------
  // The encoder, writing in place
  // ---------------------------------------------------------------------

  /** A growable byte buffer. */
  class Buffer {
    var data: string

    constructor (init: string)
      ensures data == init
    {
      data := init;
    }

    method AppendString(s: string)
      modifies this
      ensures data == old(data) + s
    {
      data := data + s;
    }

    method AppendByte(c: char)
      modifies this
      ensures data == old(data) + [c]
    {
      data := data + [c];
    }

    /** Cut the buffer back to its first n bytes. */
    method Truncate(n: nat)
      requires n <= |data|
      modifies this
      ensures data == old(data)[..n]
    {
      data := data[..n];
    }
  }

  /** Appending nothing, or to nothing, changes nothing. */
  lemma AppendEmpty(s: string)
    ensures "" + s == s && s + "" == s
  {
  }

  /** Two appends in a row append the two texts together. */
  lemma AppendAssoc(a: string, b: string, c: string)
    ensures a + b + c == a + (b + c)
  {
  }

  class Encoder {
    const opts: Options
    /** The group names passed to the hook; pushed and popped around a group's children. */
    var groups: seq<string>

    /** newEncoder: a fresh encoder for a handler with these options and group names. */
    constructor (o: Options, handlerGroups: seq<string>)
      ensures opts == o && groups == InitGroups(o, handlerGroups)
    {
      opts := o;
      groups := if o.replaceAttr.Some? then handlerGroups else [];
    }

    method WriteColoredString(buf: Buffer, s: string, c: string)
      modifies buf
      ensures buf.data == old(buf.data) + WithColor(opts, c, s)
    {
      if c == "" || opts.noColor {
        buf.AppendString(s);
        return;
      }
      ghost var start := buf.data;
      buf.AppendString(c);
      buf.AppendString(s);
      AppendAssoc(start, c, s);
      buf.AppendString(opts.resetMod);
      AppendAssoc(start, c + s, opts.resetMod);
    }

    method WriteColoredValue(buf: Buffer, v: Value, c: string)
      modifies buf
      ensures buf.data == old(buf.data) + ColoredValue(opts, v, c)
    {
      match v
      case Int64(i) => WriteColoredString(buf, IntText(i), c);
      case Bool(b) => WriteColoredString(buf, if b then "true" else "false", c);
      case Float64(f) => WriteColoredString(buf, opts.fmt.float(f), c);
      case Time(t) => WriteColoredString(buf, opts.fmt.time(t, opts.timeFormat), c);
      case Uint64(u) => WriteColoredString(buf, NatText(u), c);
      case Duration(d) => WriteColoredString(buf, opts.fmt.duration(d), c);
      case Any(Error(msg, detailed)) =>
        if detailed.Some? {
          WriteColoredString(buf, detailed.value, opts.theme.attrValueError);
        } else {
          WriteColoredString(buf, msg, opts.theme.attrValueError);
        }
      case Any(Stringer(t)) => WriteColoredString(buf, t, c);
      case Any(LevelOf(l)) => WriteColoredString(buf, opts.fmt.levelString(l), c);
      case Any(a) => WriteColoredString(buf, AnyText(opts, a), c);
      case String(s) => WriteColoredString(buf, s, c);
      case Group(attrs) => WriteColoredString(buf, opts.fmt.groupString(attrs), c);
    }

    method WriteTimestamp(buf: Buffer, t: Instant)
      modifies buf
      ensures buf.data == old(buf.data) + TimestampText(opts, t)
    {
      if t.IsZero() {
        return;
      }
      var tt := t;
      if opts.replaceAttr.Some? {
        var attr := opts.replaceAttr.value([], Attr(TimeKey, Time(t)));
        var val := Resolve(attr.value);
        if val.Time? {
          tt := val.t;
          if tt.IsZero() {
            return;
          }
        } else if val == Any(Nil) {
          return;
        } else {
          ghost var start := buf.data;
          WriteColoredValue(buf, val, opts.theme.timestamp);
          buf.AppendByte(' ');
          AppendAssoc(start, ColoredValue(opts, val, opts.theme.timestamp), " ");
          return;
        }
      }
      ghost var start := buf.data;
      WriteColoredString(buf, opts.fmt.time(tt, opts.timeFormat), opts.theme.timestamp);
      buf.AppendByte(' ');
      AppendAssoc(start, WithColor(opts, opts.theme.timestamp, opts.fmt.time(tt, opts.timeFormat)), " ");
    }

    method WriteLevel(buf: Buffer, l: int)
      modifies buf
      ensures buf.data == old(buf.data) + LevelText(opts, l)
    {
      var level := l;
      var val := Any(Nil);
      var writeVal := false;
      if opts.replaceAttr.Some? {
        var attr := opts.replaceAttr.value([], Attr(LevelKey, Any(LevelOf(l))));
        val := Resolve(attr.value);
        writeVal := true;
        if val.Any? {
          if val.any.LevelOf? {
            level := val.any.level;
            writeVal := false;
          } else if val.any.Nil? {
            return;
          }
        }
      }
      var style := LevelStyle(opts, level);
      var (str, base) := LevelAnchor(level);
      var delta := level - base;
      ghost var start := buf.data;
      if writeVal {
        WriteColoredValue(buf, val, style);
      } else {
        if delta != 0 {
          str := str + SignedText(delta);
        }
        WriteColoredString(buf, str, style);
      }
      ghost var written := buf.data[|start|..];
      assert buf.data == start + written;
      buf.AppendByte(' ');
      AppendAssoc(start, written, " ");
    }

    method WriteSource(buf: Buffer, pc: nat, env: Env)
      modifies buf
      ensures buf.data == old(buf.data) + SourceText(opts, env, pc)
    {
      var src := Source("", "", 0);
      if pc > 0 {
        src := env.frame(pc);
      }
      if opts.replaceAttr.Some? {
        var attr := opts.replaceAttr.value([], Attr(SourceKey, Any(SourceRef(Some(src)))));
        var val := Resolve(attr.value);
        if val == Any(Nil) {
          return;
        }
        if val.Any? && val.any.SourceRef? {
          if val.any.src.None? {
            return;
          }
          src := Source(src.funcName, val.any.src.value.file, val.any.src.value.line);
        } else {
          ghost var start := buf.data;
          WriteColoredValue(buf, val, opts.theme.timestamp);
          WriteColoredString(buf, " > ", opts.theme.attrKey);
          AppendAssoc(start, ColoredValue(opts, val, opts.theme.timestamp), WithColor(opts, opts.theme.attrKey, " > "));
          return;
        }
      }
      if src.file == "" && src.line == 0 {
        return;
      }
      var file := src.file;
      if env.cwd != "" {
        var ff := env.rel(env.cwd, src.file);
        if ff.Some? {
          file := ff.value;
        }
      }
      ghost var start := buf.data;
      WriteColoredString(buf, file + ":" + IntText(src.line), opts.theme.source);
      WriteColoredString(buf, " > ", opts.theme.attrKey);
      AppendAssoc(start, WithColor(opts, opts.theme.source, file + ":" + IntText(src.line)), WithColor(opts, opts.theme.attrKey, " > "));
    }

    method WriteMessage(buf: Buffer, l: int, msg: string)
      modifies buf
      ensures buf.data == old(buf.data) + MessageText(opts, l, msg)
    {
      var style := opts.theme.message;
      if l < LevelInfo {
        style := opts.theme.messageDebug;
      }
      if opts.replaceAttr.Some? {
        var attr := opts.replaceAttr.value([], Attr(MessageKey, String(msg)));
        var val := Resolve(attr.value);
        if val == Any(Nil) {
          return;
        }
        WriteColoredValue(buf, val, style);
        return;
      }
      WriteColoredString(buf, msg, style);
    }

    /**
     * writeAttr: append one attribute, flattening groups; the hook's group
     * names are the same afterwards as before.
     */
    method WriteAttr(buf: Buffer, a: Attr, group: string, fuel: nat)
      modifies buf, this
      ensures groups == old(groups)
      ensures buf.data == old(buf.data) + AttrText(opts, old(groups), a, group, fuel)
      decreases fuel, AttrSize(a), 0
    {
      if a == EmptyAttr {
        return;
      }
      var cur := Attr(a.key, Resolve(a.value));
      if !cur.value.Group? && opts.replaceAttr.Some? {
        cur := opts.replaceAttr.value(groups, cur);
        if cur == EmptyAttr {
          return;
        }
        cur := Attr(cur.key, Resolve(cur.value));
        if cur.value.Group? {
          if fuel == 0 {
            return;
          }
          WriteGroup(buf, cur.key, cur.value.attrs, group, fuel - 1);
          return;
        }
      } else if cur.value.Group? {
        AttrsSizeOfGroup(a);
        WriteGroup(buf, cur.key, cur.value.attrs, group, fuel);
        return;
      }
      ghost var start := buf.data;
      var keyText := WithColor(opts, opts.theme.attrKey, KeyText(group, cur.key));
      buf.AppendByte(' ');
      WriteColoredString(buf, KeyText(group, cur.key), opts.theme.attrKey);
      AppendAssoc(start, " ", keyText);
      WriteColoredValue(buf, cur.value, opts.theme.attrValue);
      AppendAssoc(start, " " + keyText, ColoredValue(opts, cur.value, opts.theme.attrValue));
    }

    /**
     * The group part of writeAttr: push the group's key for the hook, write
     * the children under the extended prefix, pop the key.
     */
    method WriteGroup(buf: Buffer, key: string, children: seq<Attr>, group: string, fuel: nat)
      modifies buf, this
      ensures groups == old(groups)
      ensures buf.data == old(buf.data) + AttrsText(opts, PushGroup(opts, old(groups), key), children, |children|, Subgroup(group, key), fuel)
      decreases fuel, AttrsSize(children), 2
    {
      ghost var outer := groups;
      if opts.replaceAttr.Some? {
        groups := groups + [key];
      }
      WriteAttrs(buf, children, Subgroup(group, key), fuel);
      if opts.replaceAttr.Some? {
        assert groups[..|groups| - 1] == outer;
        groups := groups[..|groups| - 1];
      }
    }

    /** The children of a group, one after the other. */
    method WriteAttrs(buf: Buffer, children: seq<Attr>, group: string, fuel: nat)
      modifies buf, this
      ensures groups == old(groups)
      ensures buf.data == old(buf.data) + AttrsText(opts, groups, children, |children|, group, fuel)
      decreases fuel, AttrsSize(children), 1
    {
      ghost var start := buf.data;
      for i := 0 to |children|
        invariant groups == old(groups)
        invariant buf.data == start + AttrsText(opts, groups, children, i, group, fuel)
      {
        AttrSizeBounded(children, i);
        ghost var before := buf.data;
        WriteAttr(buf, children[i], group, fuel);
        AttrsTextStep(opts, groups, children, i, group, fuel, start, before, buf.data);
      }
    }

  /** writeHeaders (inferred): the non-empty slots, each followed by a space. */
    method WriteHeaders(buf: Buffer, slots: seq<Attr>)
      modifies buf
      ensures buf.data == old(buf.data) + HeadersText(opts, slots)
    {
      ghost var start := buf.data;
      for i := 0 to |slots|
        invariant buf.data == start + HeadersText(opts, slots[..i])
      {
        ghost var before := buf.data;
        if slots[i] != EmptyAttr {
          WriteColoredValue(buf, Resolve(slots[i].value), opts.theme.header);
          buf.AppendByte(' ');
          AppendAssoc(before, ColoredValue(opts, Resolve(slots[i].value), opts.theme.header), " ");
        } else {
          AppendEmpty(before);
        }
        HeadersTextStep(opts, slots, i, start, before, buf.data);
      }
      assert slots[..|slots|] == slots;
    }

    /** writeHeaderSeparator (inferred). */
    method WriteHeaderSeparator(buf: Buffer)
      modifies buf
      ensures buf.data == old(buf.data) + SeparatorText(opts)
    {
      WriteColoredString(buf, "> ", opts.theme.attrKey);
    }
  }

  /** Writing one more attribute of a list appends its text. */
  lemma AttrsTextStep(o: Options, groups: seq<string>, s: seq<Attr>, i: nat, group: string, fuel: nat,
                      start: string, before: string, after: string)
    requires i < |s|
    requires before == start + AttrsText(o, groups, s, i, group, fuel)
    requires after == before + AttrText(o, groups, s[i], group, fuel)
    ensures after == start + AttrsText(o, groups, s, i + 1, group, fuel)
  {
    AppendAssoc(start, AttrsText(o, groups, s, i, group, fuel), AttrText(o, groups, s[i], group, fuel));
  }

  /** Writing one more header slot appends its text. */
  lemma HeadersTextStep(o: Options, slots: seq<Attr>, i: nat, start: string, before: string, after: string)
    requires i < |slots|
    requires before == start + HeadersText(o, slots[..i])
    requires after == before + (if slots[i] == EmptyAttr then "" else ColoredValue(o, Resolve(slots[i].value), o.theme.header) + " ")
    ensures after == start + HeadersText(o, slots[..i + 1])
  {
    assert slots[..i + 1][..i] == slots[..i];
    AppendAssoc(start, HeadersText(o, slots[..i]),
                if slots[i] == EmptyAttr then "" else ColoredValue(o, Resolve(slots[i].value), o.theme.header) + " ");
  }

  /** A group attribute's children are smaller than it, even behind a LogValuer. */
  lemma AttrsSizeOfGroup(a: Attr)
    requires Resolve(a.value).Group?
    ensures AttrsSize(Resolve(a.value).attrs) < AttrSize(a)
  {
  }
}
