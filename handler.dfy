/**
 * The console Handler (handler.go): an immutable snapshot of options,
 * pre-rendered context bytes, group prefix and header slots; Handle renders
 * one record into a header, a middle and a trailer section; WithAttrs and
 * WithGroup derive new handlers.
 */
module Handlers {
  import opened Slog
  import opened Encoding

  /** time.DateTime, the default time layout. */
  const DateTime: string := "2006-01-02 15:04:05"

  /** HandlerOptions as a caller gives them; None and "" stand for Go's nil and empty defaults. */
  datatype HandlerOptions = HandlerOptions(
    addSource: bool,
    level: Option<int>,
    noColor: bool,
    timeFormat: string,
    theme: Option<Theme>,
    headers: seq<string>,
    replaceAttr: Option<Hook>)

  datatype Handler = Handler(
    opts: Options,
    groupPrefix: string,
    groups: seq<string>,
    context: string,
    headers: seq<Attr>)
  {
    /** One header slot per configured header key. */
    predicate Valid() { |headers| == |opts.headers| }
  }

  /** A slog.Record: time, level, message, program counter and attributes. */
  datatype Record = Record(time: Instant, level: int, message: string, pc: nat, attrs: seq<Attr>)

  /** NewHandler: fill in the defaults; every header slot starts empty. */
  function NewHandler(ho: HandlerOptions, defaultTheme: Theme, resetMod: string, fmt: Formats): (h: Handler)
    ensures h.Valid()
    ensures h.groupPrefix == "" && h.groups == [] && h.context == ""
    ensures forall j :: 0 <= j < |h.headers| ==> h.headers[j] == EmptyAttr
    ensures h.opts.level == (if ho.level.Some? then ho.level.value else LevelInfo)
    ensures h.opts.timeFormat == (if ho.timeFormat == "" then DateTime else ho.timeFormat)
    ensures h.opts.theme == (if ho.theme.Some? then ho.theme.value else defaultTheme)
    ensures h.opts.addSource == ho.addSource && h.opts.noColor == ho.noColor
    ensures h.opts.headers == ho.headers && h.opts.replaceAttr == ho.replaceAttr
    ensures h.opts.resetMod == resetMod && h.opts.fmt == fmt
  {
    var o := Options(
      ho.addSource,
      if ho.level.Some? then ho.level.value else LevelInfo,
      ho.noColor,
      if ho.timeFormat == "" then DateTime else ho.timeFormat,
      if ho.theme.Some? then ho.theme.value else defaultTheme,
      ho.headers,
      ho.replaceAttr,
      resetMod,
      fmt);
    Handler(o, "", [], "", seq(|ho.headers|, _ => EmptyAttr))
  }

  /**
   * Enabled: the record's level is at least the configured minimum. With the
   * default minimum, a record is logged exactly when its level is not named DBG.
   */
  function Enabled(h: Handler, l: int): (r: bool)
    ensures h.opts.level == LevelInfo ==> (r <==> LevelAnchor(l).0 != "DBG")
  {
    l >= h.opts.level
  }

  /** slices.IndexFunc over the header keys: the first position of k, or -1. */
  function IndexOf(keys: seq<string>, k: string): (idx: int)
    ensures -1 <= idx < |keys|
    ensures idx >= 0 ==> keys[idx] == k
  {
    if |keys| == 0 then -1
    else
      var i := IndexOf(keys[..|keys| - 1], k);
      if i >= 0 then i else if keys[|keys| - 1] == k then |keys| - 1 else -1
  }

  /** IndexOf finds a key exactly when it is configured, and finds its first position. */
  lemma {:induction false} IndexOfFinds(keys: seq<string>, k: string)
    ensures IndexOf(keys, k) >= 0 <==> k in keys
    ensures forall j :: 0 <= j < IndexOf(keys, k) ==> keys[j] != k
  {
    if |keys| > 0 {
      var init := keys[..|keys| - 1];
      IndexOfFinds(init, k);
      assert keys == init + [keys[|keys| - 1]];
    }
  }

  /** The header slots after the first n attributes: each header-keyed attribute fills the slot of its key. */
  function ExtractSlots(keys: seq<string>, slots: seq<Attr>, attrs: seq<Attr>, n: nat): (r: seq<Attr>)
    requires |slots| == |keys| && n <= |attrs|
    ensures |r| == |slots|
  {
    if n == 0 then slots
    else
      var prev := ExtractSlots(keys, slots, attrs, n - 1);
      var idx := IndexOf(keys, attrs[n - 1].key);
      if idx >= 0 then prev[idx := attrs[n - 1]] else prev
  }

  /** The attributes with every header-keyed one replaced by the empty Attr. */
  function Blank(keys: seq<string>, attrs: seq<Attr>): (r: seq<Attr>)
    ensures |r| == |attrs|
  {
    seq(|attrs|, i requires 0 <= i < |attrs| => if IndexOf(keys, attrs[i].key) >= 0 then EmptyAttr else attrs[i])
  }

  /** bytes.IndexByte: the first position of c in s, or -1 when there is none. */
  function IndexByte(s: string, c: char): (i: int)
    ensures -1 <= i < |s|
    ensures i >= 0 ==> s[i] == c
  {
    if s == [] then -1
    else if s[0] == c then 0
    else
      var j := IndexByte(s[1..], c);
      if j < 0 then -1 else j + 1
  }

  /** IndexByte finds c exactly when c occurs, and finds its first occurrence. */
  lemma {:induction false} IndexByteFinds(s: string, c: char)
    ensures IndexByte(s, c) >= 0 <==> c in s
    ensures forall k :: 0 <= k < IndexByte(s, c) ==> s[k] != c
  {
    if s != [] && s[0] != c {
      IndexByteFinds(s[1..], c);
      assert s == [s[0]] + s[1..];
    }
  }

  /** The text one per-event attribute renders to in the middle buffer. */
  function Span(h: Handler, a: Attr): string
  {
    AttrText(h.opts, InitGroups(h.opts, h.groups), a, h.groupPrefix, HookGroupDepth)
  }

  /** The span of every per-event attribute, in order. */
  function Spans(h: Handler, attrs: seq<Attr>): (r: seq<string>)
    ensures |r| == |attrs|
  {
    seq(|attrs|, i requires 0 <= i < |attrs| => Span(h, attrs[i]))
  }

  lemma SpanAt(h: Handler, attrs: seq<Attr>, i: nat)
    requires i < |attrs|
    ensures Spans(h, attrs)[i] == Span(h, attrs[i])
  {
  }

  /**
   * The carve-out: of the first n attributes whose key is not a header key,
   * the concatenated spans that contain a line break (multiline) or that do not.
   */
  function Carved(keys: seq<string>, attrs: seq<Attr>, spans: seq<string>, n: nat, multiline: bool): string
    requires n <= |attrs| == |spans|
  {
    if n == 0 then ""
    else
      Carved(keys, attrs, spans, n - 1, multiline)
      + (if IndexOf(keys, attrs[n - 1].key) < 0 && (IndexByte(spans[n - 1], '\n') >= 0) == multiline then spans[n - 1] else "")
  }

  /** The three sections Handle writes, the line terminator included. */
  datatype Sections = Sections(header: string, middle: string, trailer: string)

  /** The bytes of the header zone before the separator decision: timestamp and level. */
  function HeadText(h: Handler, rec: Record): string
  {
    TimestampText(h.opts, rec.time) + LevelText(h.opts, rec.level)
  }

  /** The source field, when the handler adds it. */
  function SourcePart(h: Handler, rec: Record, env: Env): string
  {
    if h.opts.addSource then SourceText(h.opts, env, rec.pc) else ""
  }

  /** The per-event header slots: the handler's, overridden by the record's header-keyed attributes. */
  function EventSlots(h: Handler, rec: Record): (r: seq<Attr>)
    requires h.Valid()
    ensures |r| == |h.headers|
  {
    ExtractSlots(h.opts.headers, h.headers, rec.attrs, |rec.attrs|)
  }

  function HeaderSlotsPart(h: Handler, rec: Record): string
    requires h.Valid()
  {
    var slots := EventSlots(h, rec);
    if |slots| > 0 then HeadersText(h.opts, slots) else ""
  }

  /** The header zone: timestamp and level, then source and slots and, when either shows anything, the separator. */
  function HeaderZone(h: Handler, rec: Record, env: Env): string
    requires h.Valid()
  {
    var extra := SourcePart(h, rec, env) + HeaderSlotsPart(h, rec);
    HeadText(h, rec) + extra + (if extra != "" then SeparatorText(h.opts) else "")
  }

  /** The middle: the message, the context, and the attributes that fit on the line. */
  function MiddleZone(h: Handler, rec: Record): string
  {
    MessageText(h.opts, rec.level, rec.message) + h.context
    + Carved(h.opts.headers, rec.attrs, Spans(h, rec.attrs), |rec.attrs|, false)
  }

  /** The trailer: the attributes that span lines. */
  function TrailerZone(h: Handler, rec: Record): string
  {
    Carved(h.opts.headers, rec.attrs, Spans(h, rec.attrs), |rec.attrs|, true)
  }

  /** The line break ends the middle when the trailer is empty, and the trailer otherwise. */
  function Terminate(header: string, middle: string, trailer: string): Sections
  {
    if trailer == "" then Sections(header, middle + "\n", trailer)
    else Sections(header, middle, trailer + "\n")
  }

  function RenderSections(h: Handler, rec: Record, env: Env): Sections
    requires h.Valid()
  {
    Terminate(HeaderZone(h, rec, env), MiddleZone(h, rec), TrailerZone(h, rec))
  }

  /** The bytes Handle writes: header, middle, trailer. */
  function Render(h: Handler, rec: Record, env: Env): string
    requires h.Valid()
  {
    var s := RenderSections(h, rec, env);
    s.header + s.middle + s.trailer
  }

  /**
   * Handle: render one record. The sink write is left out: the result is the
   * bytes that would be written, header, middle and trailer in that order.
   */
  method Handle(h: Handler, rec: Record, env: Env) returns (out: string)
    requires h.Valid()
    ensures out == Render(h, rec, env)
  {
    var enc := new Encoder(h.opts, h.groups);
    var headerBuf := new Buffer("");
    var middleBuf := new Buffer("");
    var trailerBuf := new Buffer("");

    var headerLen := WriteHeadFields(h, enc, headerBuf, rec, env);
    ghost var head, source := HeadText(h, rec), SourcePart(h, rec, env);

    enc.WriteMessage(middleBuf, rec.level, rec.message);
    AppendEmpty(MessageText(h.opts, rec.level, rec.message));
    middleBuf.AppendString(h.context);

    var headers := WriteEventAttrs(h, enc, rec.attrs, middleBuf, trailerBuf);
    AppendEmpty(trailerBuf.data);
    ghost var slotsText := if |headers| > 0 then HeadersText(h.opts, headers) else "";
    assert slotsText == HeaderSlotsPart(h, rec);
    ghost var extra := source + slotsText;
    ghost var sep := if extra != "" then SeparatorText(h.opts) else "";
    Regroup(headerBuf.data, head, source, headerLen, slotsText, sep);
    FinishHeader(enc, headerBuf, headerLen, headers);
    HandleAssembles(h, rec, env, head, extra, headerBuf.data, middleBuf.data, trailerBuf.data);

    if |trailerBuf.data| == 0 {
      middleBuf.AppendByte('\n');
    } else {
      trailerBuf.AppendByte('\n');
    }
    out := headerBuf.data + middleBuf.data + trailerBuf.data;
  }

  /** The header zone Handle assembles piece by piece is head, extra, separator. */
  lemma Regroup(pre: string, head: string, source: string, n: nat, slots: string, sep: string)
    requires pre == head + source && n == |head|
    ensures n <= |pre| && pre[n..] == source
    ensures pre + slots + sep == head + (source + slots) + sep
  {
    assert pre[n..] == source;
  }

  /** The buffers Handle fills, put together, are Render's three sections. */
  lemma HandleAssembles(h: Handler, rec: Record, env: Env, head: string, extra: string,
                        header: string, middle: string, trailer: string)
    requires h.Valid()
    requires head == HeadText(h, rec)
    requires extra == SourcePart(h, rec, env) + HeaderSlotsPart(h, rec)
    requires header == head + extra + (if extra != "" then SeparatorText(h.opts) else "")
    requires middle == MessageText(h.opts, rec.level, rec.message) + h.context
                       + Carved(h.opts.headers, rec.attrs, Spans(h, rec.attrs), |rec.attrs|, false)
    requires trailer == Carved(h.opts.headers, rec.attrs, Spans(h, rec.attrs), |rec.attrs|, true)
    ensures Render(h, rec, env) ==
              if trailer == "" then header + (middle + "\n") + trailer else header + middle + (trailer + "\n")
  {
  }

  /**
   * The start of the header zone in Handle: timestamp and level, then the
   * source when the handler adds it; headerLen is where the source starts.
   */
  method WriteHeadFields(h: Handler, enc: Encoder, headerBuf: Buffer, rec: Record, env: Env) returns (headerLen: nat)
    requires enc.opts == h.opts && headerBuf.data == ""
    modifies headerBuf
    ensures headerLen == |HeadText(h, rec)|
    ensures headerBuf.data == HeadText(h, rec) + SourcePart(h, rec, env)
  {
    enc.WriteTimestamp(headerBuf, rec.time);
    AppendEmpty(TimestampText(h.opts, rec.time));
    enc.WriteLevel(headerBuf, rec.level);
    headerLen := |headerBuf.data|;
    if h.opts.addSource {
      enc.WriteSource(headerBuf, rec.pc, env);
    } else {
      AppendEmpty(headerBuf.data);
    }
  }

  /**
   * The iteration over the record's attributes in Handle: a header-keyed
   * attribute fills its slot in a copy of the handler's slots; any other is
   * written to the middle buffer or, when it spans lines, to the trailer.
   */
  method WriteEventAttrs(h: Handler, enc: Encoder, attrs: seq<Attr>, middleBuf: Buffer, trailerBuf: Buffer)
    returns (headers: seq<Attr>)
    requires h.Valid()
    requires enc.opts == h.opts && enc.groups == InitGroups(h.opts, h.groups)
    requires middleBuf != trailerBuf
    modifies enc, middleBuf, trailerBuf
    ensures enc.groups == old(enc.groups)
    ensures headers == ExtractSlots(h.opts.headers, h.headers, attrs, |attrs|)
    ensures middleBuf.data == old(middleBuf.data) + Carved(h.opts.headers, attrs, Spans(h, attrs), |attrs|, false)
    ensures trailerBuf.data == old(trailerBuf.data) + Carved(h.opts.headers, attrs, Spans(h, attrs), |attrs|, true)
  {
    ghost var middle0, trailer0 := middleBuf.data, trailerBuf.data;
    // h.headers is a value: writing a slot of `headers` makes the local copy
    headers := h.headers;
    for i := 0 to |attrs|
      invariant enc.groups == InitGroups(h.opts, h.groups)
      invariant headers == ExtractSlots(h.opts.headers, h.headers, attrs, i)
      invariant middleBuf.data == middle0 + Carved(h.opts.headers, attrs, Spans(h, attrs), i, false)
      invariant trailerBuf.data == trailer0 + Carved(h.opts.headers, attrs, Spans(h, attrs), i, true)
    {
      headers := EventAttr(h, enc, attrs, i, middleBuf, trailerBuf, headers, middle0, trailer0);
    }
  }

  /**
   * The per-attribute callback of Handle: a header-keyed attribute goes to
   * its slot; any other is written to the middle buffer and, when what was
   * written holds a line break, moved from there to the trailer.
   */
  method EventAttr(h: Handler, enc: Encoder, attrs: seq<Attr>, i: nat, middleBuf: Buffer, trailerBuf: Buffer,
                   headers: seq<Attr>, ghost middle0: string, ghost trailer0: string)
    returns (headers': seq<Attr>)
    requires h.Valid() && i < |attrs|
    requires enc.opts == h.opts && enc.groups == InitGroups(h.opts, h.groups)
    requires middleBuf != trailerBuf
    requires headers == ExtractSlots(h.opts.headers, h.headers, attrs, i)
    requires middleBuf.data == middle0 + Carved(h.opts.headers, attrs, Spans(h, attrs), i, false)
    requires trailerBuf.data == trailer0 + Carved(h.opts.headers, attrs, Spans(h, attrs), i, true)
    modifies enc, middleBuf, trailerBuf
    ensures enc.groups == old(enc.groups)
    ensures headers' == ExtractSlots(h.opts.headers, h.headers, attrs, i + 1)
    ensures middleBuf.data == middle0 + Carved(h.opts.headers, attrs, Spans(h, attrs), i + 1, false)
    ensures trailerBuf.data == trailer0 + Carved(h.opts.headers, attrs, Spans(h, attrs), i + 1, true)
  {
    var a := attrs[i];
    var idx := IndexOf(h.opts.headers, a.key);
    SlotStep(h.opts.headers, h.headers, attrs, i, headers);
    ghost var middle, trailer := middleBuf.data, trailerBuf.data;
    if idx >= 0 {
      headers' := headers[idx := a];
    } else {
      headers' := headers;
      SpanAt(h, attrs, i);
      WriteEventAttr(h, enc, middleBuf, trailerBuf, a, Spans(h, attrs)[i]);
    }
    CarvedStep(h.opts.headers, attrs, Spans(h, attrs), i, middle0, trailer0, middle, trailer, middleBuf.data, trailerBuf.data);
  }

  /**
   * The end of the header zone in Handle: the header slots when headers are
   * configured, then the separator when anything follows the level.
   */
  method FinishHeader(enc: Encoder, headerBuf: Buffer, headerLen: nat, headers: seq<Attr>)
    requires headerLen <= |headerBuf.data|
    modifies headerBuf
    ensures var slotsText := if |headers| > 0 then HeadersText(enc.opts, headers) else "";
            var extra := old(headerBuf.data)[headerLen..] + slotsText;
            headerBuf.data == old(headerBuf.data) + slotsText + (if extra != "" then SeparatorText(enc.opts) else "")
  {
    if |headers| > 0 {
      enc.WriteHeaders(headerBuf, headers);
    }
    if |headerBuf.data| > headerLen {
      enc.WriteHeaderSeparator(headerBuf);
    }
  }

  /**
   * The write part of the callback: write the attribute to the middle
   * buffer, and when what it wrote holds a line break, cut it back out and
   * append it to the trailer instead.
   */
  method WriteEventAttr(h: Handler, enc: Encoder, middleBuf: Buffer, trailerBuf: Buffer, a: Attr, ghost span: string)
    requires enc.opts == h.opts && enc.groups == InitGroups(h.opts, h.groups)
    requires middleBuf != trailerBuf
    requires span == Span(h, a)
    modifies enc, middleBuf, trailerBuf
    ensures enc.groups == old(enc.groups)
    ensures middleBuf.data == old(middleBuf.data) + (if IndexByte(span, '\n') >= 0 then "" else span)
    ensures trailerBuf.data == old(trailerBuf.data) + (if IndexByte(span, '\n') >= 0 then span else "")
  {
    var offset := |middleBuf.data|;
    enc.WriteAttr(middleBuf, a, h.groupPrefix, HookGroupDepth);
    var lastAttr := middleBuf.data[offset..];
    assert lastAttr == Span(h, a);
    if IndexByte(lastAttr, '\n') >= 0 {
      trailerBuf.AppendString(lastAttr);
      middleBuf.Truncate(offset);
    }
  }

  /** A header-keyed attribute overwrites the slot of its key, as ExtractSlots says. */
  lemma SlotStep(keys: seq<string>, slots: seq<Attr>, attrs: seq<Attr>, i: nat, headers: seq<Attr>)
    requires |slots| == |keys| && i < |attrs|
    requires headers == ExtractSlots(keys, slots, attrs, i)
    ensures IndexOf(keys, attrs[i].key) >= 0 ==>
              ExtractSlots(keys, slots, attrs, i + 1) == headers[IndexOf(keys, attrs[i].key) := attrs[i]]
    ensures IndexOf(keys, attrs[i].key) < 0 ==> ExtractSlots(keys, slots, attrs, i + 1) == headers
  {
  }

  /** One more per-event attribute extends the middle or the trailer by its span, as Carved says. */
  lemma CarvedStep(keys: seq<string>, attrs: seq<Attr>, spans: seq<string>, i: nat, middle0: string, trailer0: string,
                   middle: string, trailer: string, middle': string, trailer': string)
    requires i < |attrs| == |spans|
    requires middle == middle0 + Carved(keys, attrs, spans, i, false)
    requires trailer == trailer0 + Carved(keys, attrs, spans, i, true)
    requires IndexOf(keys, attrs[i].key) >= 0 ==> middle' == middle && trailer' == trailer
    requires IndexOf(keys, attrs[i].key) < 0 ==>
               middle' == middle + (if IndexByte(spans[i], '\n') >= 0 then "" else spans[i])
               && trailer' == trailer + (if IndexByte(spans[i], '\n') >= 0 then spans[i] else "")
    ensures middle' == middle0 + Carved(keys, attrs, spans, i + 1, false)
    ensures trailer' == trailer0 + Carved(keys, attrs, spans, i + 1, true)
  {
  }

  /**
   * extractHeaders: collect the header-keyed attributes into a copy of the
   * handler's slots, and blank them in the caller's list.
   */
  method ExtractHeaders(h: Handler, attrs: array<Attr>) returns (headers: seq<Attr>)
    requires h.Valid()
    modifies attrs
    ensures headers == ExtractSlots(h.opts.headers, h.headers, old(attrs[..]), attrs.Length)
    ensures attrs[..] == Blank(h.opts.headers, old(attrs[..]))
  {
    ghost var input := attrs[..];
    var changed := false;
    headers := h.headers;
    for i := 0 to attrs.Length
      invariant headers == ExtractSlots(h.opts.headers, h.headers, input, i)
      invariant !changed ==> headers == h.headers
      invariant forall k :: 0 <= k < i ==> attrs[k] == Blank(h.opts.headers, input)[k]
      invariant forall k :: i <= k < attrs.Length ==> attrs[k] == input[k]
    {
      var attr := attrs[i];
      var idx := IndexOf(h.opts.headers, attr.key);
      if idx >= 0 {
        if !changed {
          // the copy of the parent's slots: a sequence is a value, so h.headers is untouched
          headers := h.headers[..];
        }
        headers := headers[idx := attr];
        attrs[i] := EmptyAttr;
        changed := true;
      }
    }
    assert attrs[..] == Blank(h.opts.headers, input);
  }

  /**
   * WithAttrs: a child whose context is the parent's followed by the
   * rendering of the non-header attributes, and whose slots hold the
   * header-keyed ones.
   */
  method WithAttrs(h: Handler, attrs: array<Attr>) returns (child: Handler)
    requires h.Valid()
    modifies attrs
    ensures child.Valid()
    ensures attrs[..] == Blank(h.opts.headers, old(attrs[..]))
    ensures child.opts == h.opts && child.groupPrefix == h.groupPrefix && child.groups == h.groups
    ensures child.headers == ExtractSlots(h.opts.headers, h.headers, old(attrs[..]), attrs.Length)
    ensures child.context == h.context
      + AttrsText(h.opts, InitGroups(h.opts, h.groups), attrs[..], attrs.Length, h.groupPrefix, HookGroupDepth)
  {
    var headers := ExtractHeaders(h, attrs);
    var newCtx := new Buffer(h.context);
    var enc := new Encoder(h.opts, h.groups);
    enc.WriteAttrs(newCtx, attrs[..], h.groupPrefix, HookGroupDepth);
    child := Handler(h.opts, h.groupPrefix, h.groups, newCtx.data, headers);
  }

  /** unicode.IsSpace. */
  predicate IsSpace(c: char)
  {
    c == ' ' || c == '\t' || c == '\n' || c == '\U{B}' || c == '\U{C}' || c == '\r'
    || c == '\U{85}' || c == '\U{A0}' || c == '\U{1680}' || ('\U{2000}' <= c <= '\U{200A}')
    || c == '\U{2028}' || c == '\U{2029}' || c == '\U{202F}' || c == '\U{205F}' || c == '\U{3000}'
  }

  /** The number of white-space characters that start s. */
  function LeadingSpace(s: string): (i: nat)
    ensures i <= |s|
    ensures forall k :: 0 <= k < i ==> IsSpace(s[k])
    ensures i < |s| ==> !IsSpace(s[i])
  {
    if s == [] || !IsSpace(s[0]) then 0 else 1 + LeadingSpace(s[1..])
  }

  /** The length of s without the white space that ends it. */
  function TrailingStart(s: string): (j: nat)
    ensures j <= |s|
    ensures forall k :: j <= k < |s| ==> IsSpace(s[k])
    ensures j > 0 ==> !IsSpace(s[j - 1])
  {
    if s == [] || !IsSpace(s[|s| - 1]) then |s| else TrailingStart(s[..|s| - 1])
  }

  /** strings.TrimSpace: the input without its leading and trailing white space. */
  function TrimSpace(s: string): (r: string)
    ensures r != [] ==> !IsSpace(r[0]) && !IsSpace(r[|r| - 1])
    ensures r == [] <==> forall k :: 0 <= k < |s| ==> IsSpace(s[k])
    ensures r != [] ==> r == s[LeadingSpace(s)..TrailingStart(s)]
  {
    var i, j := LeadingSpace(s), TrailingStart(s);
    if i < j then s[i..j] else []
  }

  /** WithGroup: the trimmed name joins the prefix; context and header slots are shared. */
  function WithGroup(h: Handler, name: string): (child: Handler)
    ensures child.Valid() == h.Valid()
    ensures child.context == h.context && child.headers == h.headers && child.opts == h.opts
  {
    var n := TrimSpace(name);
    Handler(h.opts, if h.groupPrefix != "" then h.groupPrefix + "." + n else n, h.groups + [n], h.context, h.headers)
  }
}
