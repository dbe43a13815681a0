/**
 * Properties of the console Handler: which attribute fills a header slot,
 * what WithAttrs keeps in the context, how the record's attributes are
 * split between the middle and the trailer, the shape of a rendered record,
 * and the group prefix WithGroup builds.
 */
module HandlerProperties {
  import opened Slog
  import Numbers
  import opened Encoding
  import opened EncodingProperties
  import opened Handlers

  // ---------------------------------------------------------------------
  // Header slots
  // ---------------------------------------------------------------------

  /** The slots depend only on the attributes looked at. */
  lemma {:induction false} ExtractSlotsPrefix(keys: seq<string>, slots: seq<Attr>, s: seq<Attr>, t: seq<Attr>, n: nat)
    requires |slots| == |keys| && n <= |s| && n <= |t| && s[..n] == t[..n]
    ensures ExtractSlots(keys, slots, s, n) == ExtractSlots(keys, slots, t, n)
  {
    if n > 0 {
      assert s[..n - 1] == s[..n][..n - 1] && t[..n - 1] == t[..n][..n - 1];
      assert s[n - 1] == s[..n][n - 1] && t[n - 1] == t[..n][n - 1];
      ExtractSlotsPrefix(keys, slots, s, t, n - 1);
    }
  }

  /** A slot no attribute is keyed to keeps the value it had. */
  lemma {:induction false} ExtractSlotsKeeps(keys: seq<string>, slots: seq<Attr>, attrs: seq<Attr>, n: nat, j: nat)
    requires |slots| == |keys| && n <= |attrs| && j < |keys|
    requires forall i :: 0 <= i < n ==> IndexOf(keys, attrs[i].key) != j
    ensures ExtractSlots(keys, slots, attrs, n)[j] == slots[j]
  {
    if n > 0 {
      ExtractSlotsKeeps(keys, slots, attrs, n - 1, j);
    }
  }

  /** The last attribute with a header key is the one its slot holds. */
  lemma {:induction false} ExtractSlotsLastWins(keys: seq<string>, slots: seq<Attr>, attrs: seq<Attr>, n: nat, i: nat)
    requires |slots| == |keys| && i < n <= |attrs|
    requires attrs[i].key in keys
    requires forall k :: i < k < n ==> attrs[k].key != attrs[i].key
    ensures IndexOf(keys, attrs[i].key) >= 0
    ensures ExtractSlots(keys, slots, attrs, n)[IndexOf(keys, attrs[i].key)] == attrs[i]
  {
    IndexOfFinds(keys, attrs[i].key);
    if n - 1 > i {
      ExtractSlotsLastWins(keys, slots, attrs, n - 1, i);
      assert attrs[n - 1].key != attrs[i].key;
    }
  }

  /** Extracting from two lists in turn is extracting from the two together: WithAttrs then Handle fills the slots as Handle alone would. */
  lemma {:induction false} ExtractSlotsCompose(keys: seq<string>, slots: seq<Attr>, s: seq<Attr>, t: seq<Attr>)
    requires |slots| == |keys|
    ensures ExtractSlots(keys, ExtractSlots(keys, slots, s, |s|), t, |t|) == ExtractSlots(keys, slots, s + t, |s + t|)
    decreases |t|
  {
    if t == [] {
      assert s + t == s;
    } else {
      var t' := t[..|t| - 1];
      ExtractSlotsCompose(keys, slots, s, t');
      assert (s + t)[..|s + t'|] == (s + t')[..|s + t'|];
      ExtractSlotsPrefix(keys, slots, s + t, s + t', |s + t'|);
      ExtractSlotsPrefix(keys, ExtractSlots(keys, slots, s, |s|), t, t', |t'|);
      assert (s + t)[|s + t| - 1] == t[|t| - 1];
    }
  }

  /** A record with no header-keyed attribute shows the handler's own slots: a per-event value is not remembered. */
  lemma InheritedSlots(h: Handler, rec: Record)
    requires h.Valid()
    requires forall i :: 0 <= i < |rec.attrs| ==> rec.attrs[i].key !in h.opts.headers
    ensures EventSlots(h, rec) == h.headers
  {
    forall j | 0 <= j < |h.headers|
      ensures EventSlots(h, rec)[j] == h.headers[j]
    {
      forall i | 0 <= i < |rec.attrs|
        ensures IndexOf(h.opts.headers, rec.attrs[i].key) != j
      {
        IndexOfFinds(h.opts.headers, rec.attrs[i].key);
      }
      ExtractSlotsKeeps(h.opts.headers, h.headers, rec.attrs, |rec.attrs|, j);
    }
  }

  // ---------------------------------------------------------------------
  // Levels
  // ---------------------------------------------------------------------

  /**
   * A handler made without a minimum level logs from Info up and with one logs
   * exactly from it up; a handler that logs a level logs every level above it;
   * a derived handler logs what its parent does.
   */
  lemma EnabledLevels(ho: HandlerOptions, theme: Theme, resetMod: string, fmt: Formats, h: Handler, name: string, l: int, m: int)
    ensures ho.level.None? ==> (Enabled(NewHandler(ho, theme, resetMod, fmt), l) <==> l >= LevelInfo)
    ensures ho.level.Some? ==> (Enabled(NewHandler(ho, theme, resetMod, fmt), l) <==> l >= ho.level.value)
    ensures Enabled(h, l) && l <= m ==> Enabled(h, m)
    ensures Enabled(WithGroup(h, name), l) == Enabled(h, l)
  {
  }

  // ---------------------------------------------------------------------
  // WithAttrs
  // ---------------------------------------------------------------------

  /** The attributes whose key is not a header key, in order. */
  function NonHeader(keys: seq<string>, attrs: seq<Attr>): (r: seq<Attr>)
    ensures |r| <= |attrs|
    ensures forall i :: 0 <= i < |r| ==> r[i].key !in keys
  {
    if attrs == [] then []
    else
      var init := NonHeader(keys, attrs[..|attrs| - 1]);
      if attrs[|attrs| - 1].key in keys then init else init + [attrs[|attrs| - 1]]
  }

  /** Blanking blanks exactly the header-keyed attributes. */
  lemma BlankAt(keys: seq<string>, attrs: seq<Attr>, i: nat)
    requires i < |attrs|
    ensures Blank(keys, attrs)[i] == (if attrs[i].key in keys then EmptyAttr else attrs[i])
  {
    IndexOfFinds(keys, attrs[i].key);
  }

  /** The blanked list renders as the list of attributes without a header key. */
  lemma {:induction false} BlankRendersNonHeader(o: Options, groups: seq<string>, keys: seq<string>, attrs: seq<Attr>, group: string, fuel: nat)
    ensures AttrsText(o, groups, Blank(keys, attrs), |attrs|, group, fuel)
            == AttrsText(o, groups, NonHeader(keys, attrs), |NonHeader(keys, attrs)|, group, fuel)
    decreases |attrs|
  {
    if attrs != [] {
      var init := attrs[..|attrs| - 1];
      var last := attrs[|attrs| - 1];
      var b := Blank(keys, attrs);
      BlankRendersNonHeader(o, groups, keys, init, group, fuel);
      assert b[..|init|] == Blank(keys, init) by {
        forall i | 0 <= i < |init|
          ensures b[i] == Blank(keys, init)[i]
        {
          BlankAt(keys, attrs, i);
          BlankAt(keys, init, i);
        }
      }
      AttrsTextPrefix(o, groups, b, Blank(keys, init), |init|, group, fuel);
      BlankAt(keys, attrs, |attrs| - 1);
      var rest := AttrsText(o, groups, NonHeader(keys, init), |NonHeader(keys, init)|, group, fuel);
      if last.key in keys {
        AppendEmpty(rest);
      } else {
        AttrsTextAppend(o, groups, NonHeader(keys, init), [last], group, fuel);
        AppendEmpty(AttrText(o, groups, last, group, fuel));
      }
    }
  }

  // ---------------------------------------------------------------------
  // The carve-out
  // ---------------------------------------------------------------------

  /** The spans of the first n attributes without a header key, one after the other. */
  function Joined(keys: seq<string>, attrs: seq<Attr>, spans: seq<string>, n: nat): string
    requires n <= |attrs| == |spans|
  {
    if n == 0 then ""
    else Joined(keys, attrs, spans, n - 1) + (if IndexOf(keys, attrs[n - 1].key) < 0 then spans[n - 1] else "")
  }

  /** The middle holds no line break. */
  lemma {:induction false} MiddleSingleLine(keys: seq<string>, attrs: seq<Attr>, spans: seq<string>, n: nat)
    requires n <= |attrs| == |spans|
    ensures '\n' !in Carved(keys, attrs, spans, n, false)
  {
    if n > 0 {
      MiddleSingleLine(keys, attrs, spans, n - 1);
      IndexByteFinds(spans[n - 1], '\n');
    }
  }

  /**
   * The positions, among the first n, of the attributes without a header key
   * whose span holds a line break (multiline) or holds none, in order.
   */
  function Zone(keys: seq<string>, attrs: seq<Attr>, spans: seq<string>, n: nat, multiline: bool): seq<nat>
    requires n <= |attrs| == |spans|
  {
    if n == 0 then []
    else
      Zone(keys, attrs, spans, n - 1, multiline)
      + (if attrs[n - 1].key !in keys && ('\n' in spans[n - 1]) == multiline then [n - 1] else [])
  }

  /** The spans at the given positions, one after the other. */
  function ConcatAt(spans: seq<string>, idx: seq<nat>): string
  {
    if idx == [] then ""
    else
      var i := idx[|idx| - 1];
      ConcatAt(spans, idx[..|idx| - 1]) + (if i < |spans| then spans[i] else "")
  }

  /** Positions in increasing order, each below n. */
  predicate Ascending(z: seq<nat>, n: nat)
  {
    (forall j :: 0 <= j < |z| ==> z[j] < n) && (forall j, k :: 0 <= j < k < |z| ==> z[j] < z[k])
  }

  /** A zone lists its positions in increasing order. */
  lemma {:induction false} ZoneAscending(keys: seq<string>, attrs: seq<Attr>, spans: seq<string>, n: nat, multiline: bool)
    requires n <= |attrs| == |spans|
    ensures Ascending(Zone(keys, attrs, spans, n, multiline), n)
  {
    if n > 0 {
      ZoneAscending(keys, attrs, spans, n - 1, multiline);
      var prev := Zone(keys, attrs, spans, n - 1, multiline);
      var z := Zone(keys, attrs, spans, n, multiline);
      if attrs[n - 1].key !in keys && ('\n' in spans[n - 1]) == multiline {
        assert z == prev + [n - 1];
        assert forall j :: 0 <= j < |prev| ==> z[j] == prev[j] < n - 1;
        assert z[|prev|] == n - 1;
      } else {
        assert z == prev;
      }
    }
  }

  /** How many times position i occurs in a list of positions. */
  function Occurrences(idx: seq<nat>, i: nat): nat
  {
    if idx == [] then 0 else Occurrences(idx[..|idx| - 1], i) + (if idx[|idx| - 1] == i then 1 else 0)
  }

  /** Each zone of the carve-out is its spans, in the order of the attributes. */
  lemma {:induction false} CarvedZone(keys: seq<string>, attrs: seq<Attr>, spans: seq<string>, n: nat, multiline: bool)
    requires n <= |attrs| == |spans|
    ensures Carved(keys, attrs, spans, n, multiline) == ConcatAt(spans, Zone(keys, attrs, spans, n, multiline))
  {
    if n > 0 {
      CarvedZone(keys, attrs, spans, n - 1, multiline);
      IndexByteFinds(spans[n - 1], '\n');
      IndexOfFinds(keys, attrs[n - 1].key);
      var prev := Zone(keys, attrs, spans, n - 1, multiline);
      var z := Zone(keys, attrs, spans, n, multiline);
      if attrs[n - 1].key !in keys && ('\n' in spans[n - 1]) == multiline {
        assert z == prev + [n - 1];
        assert z[..|z| - 1] == prev && z[|z| - 1] == n - 1;
        assert ConcatAt(spans, z) == ConcatAt(spans, prev) + spans[n - 1];
      } else {
        assert z == prev + [];
        assert z == prev;
        assert !(IndexOf(keys, attrs[n - 1].key) < 0 && (IndexByte(spans[n - 1], '\n') >= 0) == multiline);
        AppendEmpty(Carved(keys, attrs, spans, n - 1, multiline));
      }
    }
  }

  /** Every position without a header key is in exactly one zone, and no other position is in either. */
  lemma {:induction false} ZonesCount(keys: seq<string>, attrs: seq<Attr>, spans: seq<string>, n: nat, i: nat)
    requires n <= |attrs| == |spans|
    ensures Occurrences(Zone(keys, attrs, spans, n, false), i) + Occurrences(Zone(keys, attrs, spans, n, true), i)
            == (if i < n && attrs[i].key !in keys then 1 else 0)
  {
    if n == 0 {
      assert Zone(keys, attrs, spans, n, false) == [] && Zone(keys, attrs, spans, n, true) == [];
      assert Occurrences(Zone(keys, attrs, spans, n, false), i) + Occurrences(Zone(keys, attrs, spans, n, true), i) == 0;
    } else {
      ZonesCount(keys, attrs, spans, n - 1, i);
      ZoneStep(keys, attrs, spans, n, false, i);
      ZoneStep(keys, attrs, spans, n, true, i);
      var c := Occurrences(Zone(keys, attrs, spans, n, false), i) + Occurrences(Zone(keys, attrs, spans, n, true), i);
      if i != n - 1 {
        assert (i < n) == (i < n - 1);
        assert c == (if i < n && attrs[i].key !in keys then 1 else 0);
      } else {
        assert c == (if attrs[n - 1].key !in keys then 1 else 0);
      }
    }
  }

  /** One more attribute adds its position to at most one zone. */
  lemma ZoneStep(keys: seq<string>, attrs: seq<Attr>, spans: seq<string>, n: nat, multiline: bool, i: nat)
    requires 0 < n <= |attrs| == |spans|
    ensures Occurrences(Zone(keys, attrs, spans, n, multiline), i)
            == Occurrences(Zone(keys, attrs, spans, n - 1, multiline), i)
               + (if i == n - 1 && attrs[n - 1].key !in keys && ('\n' in spans[n - 1]) == multiline then 1 else 0)
  {
    var prev := Zone(keys, attrs, spans, n - 1, multiline);
    if attrs[n - 1].key !in keys && ('\n' in spans[n - 1]) == multiline {
      var z := Zone(keys, attrs, spans, n, multiline);
      assert z == prev + [n - 1];
      assert z[..|z| - 1] == prev;
    } else {
      assert Zone(keys, attrs, spans, n, multiline) == prev;
    }
  }

  /**
   * The carve-out partitions the spans without a header key: each goes to
   * the middle (no line break) or to the trailer (a line break), exactly
   * once, and each zone keeps the order of the attributes.
   */
  lemma CarvedPartition(keys: seq<string>, attrs: seq<Attr>, spans: seq<string>, n: nat)
    requires n <= |attrs| == |spans|
    ensures Carved(keys, attrs, spans, n, false) == ConcatAt(spans, Zone(keys, attrs, spans, n, false))
    ensures Carved(keys, attrs, spans, n, true) == ConcatAt(spans, Zone(keys, attrs, spans, n, true))
    ensures Ascending(Zone(keys, attrs, spans, n, false), n) && Ascending(Zone(keys, attrs, spans, n, true), n)
    ensures forall i: nat ::
              Occurrences(Zone(keys, attrs, spans, n, false), i) + Occurrences(Zone(keys, attrs, spans, n, true), i)
              == (if i < n && attrs[i].key !in keys then 1 else 0)
  {
    CarvedZone(keys, attrs, spans, n, false);
    CarvedZone(keys, attrs, spans, n, true);
    ZoneAscending(keys, attrs, spans, n, false);
    ZoneAscending(keys, attrs, spans, n, true);
    forall i: nat
      ensures Occurrences(Zone(keys, attrs, spans, n, false), i) + Occurrences(Zone(keys, attrs, spans, n, true), i)
              == (if i < n && attrs[i].key !in keys then 1 else 0)
    {
      ZonesCount(keys, attrs, spans, n, i);
    }
  }

  /** When no span holds a line break, the trailer is empty and the middle holds every span, in order. */
  lemma {:induction false} CarvedNoBreaks(keys: seq<string>, attrs: seq<Attr>, spans: seq<string>, n: nat)
    requires n <= |attrs| == |spans|
    requires forall i :: 0 <= i < n ==> '\n' !in spans[i]
    ensures Carved(keys, attrs, spans, n, true) == ""
    ensures Carved(keys, attrs, spans, n, false) == Joined(keys, attrs, spans, n)
  {
    if n > 0 {
      CarvedNoBreaks(keys, attrs, spans, n - 1);
      IndexByteFinds(spans[n - 1], '\n');
      AppendEmpty("");
    }
  }

  // ---------------------------------------------------------------------
  // The rendered record
  // ---------------------------------------------------------------------

  /** The header zone shows nothing for the slots exactly when every slot is empty. */
  lemma {:induction false} HeadersTextEmpty(o: Options, slots: seq<Attr>)
    ensures HeadersText(o, slots) == "" <==> AllEmpty(slots)
  {
    if slots != [] {
      var init := slots[..|slots| - 1];
      HeadersTextEmpty(o, init);
      assert AllEmpty(slots) <==> AllEmpty(init) && slots[|slots| - 1] == EmptyAttr;
    }
  }

  /** Whichever section the line break is appended to, it ends the three. */
  lemma TerminateJoins(header: string, middle: string, trailer: string)
    ensures var s := Terminate(header, middle, trailer);
            s.header + s.middle + s.trailer == header + middle + trailer + "\n"
  {
    AppendEmpty(header + middle);
    AppendEmpty(header + (middle + "\n"));
  }

  /**
   * A record is its header zone, then the message, the context, the
   * single-line attributes, the multi-line attributes, and one line break.
   */
  lemma RenderLayout(h: Handler, rec: Record, env: Env)
    requires h.Valid()
    ensures Render(h, rec, env) == HeaderZone(h, rec, env) + MiddleZone(h, rec) + TrailerZone(h, rec) + "\n"
    ensures TrailerZone(h, rec) != "" ==> RenderSections(h, rec, env).middle == MiddleZone(h, rec)
    ensures TrailerZone(h, rec) == "" ==> RenderSections(h, rec, env).middle == MiddleZone(h, rec) + "\n"
  {
    TerminateJoins(HeaderZone(h, rec, env), MiddleZone(h, rec), TrailerZone(h, rec));
  }

  /**
   * The header zone: timestamp and level, then, when there is a source
   * field or a non-empty header slot, those and the separator.
   */
  lemma HeaderLayout(h: Handler, rec: Record, env: Env)
    requires h.Valid()
    ensures HeaderZone(h, rec, env)
            == HeadText(h, rec)
               + (if SourcePart(h, rec, env) == "" && AllEmpty(EventSlots(h, rec)) then ""
                  else SourcePart(h, rec, env) + HeaderSlotsPart(h, rec) + SeparatorText(h.opts))
  {
    HeadersTextEmpty(h.opts, EventSlots(h, rec));
    AppendEmpty(HeadText(h, rec));
    AppendEmpty("");
  }

  /**
   * The source field ends with its own " > ", and the separator follows it:
   * without colour, a record with a source and no header slots shows the
   * marker twice before the message.
   */
  lemma SourceMarkerTwice(h: Handler, rec: Record, env: Env)
    requires h.Valid() && h.opts.addSource && h.opts.noColor && h.opts.replaceAttr.None? && h.opts.headers == []
    requires rec.pc > 0 && env.frame(rec.pc).file != "" && env.cwd == ""
    ensures HeaderZone(h, rec, env)
            == HeadText(h, rec) + env.frame(rec.pc).file + ":" + Numbers.IntText(env.frame(rec.pc).line) + " > " + "> "
  {
    var src := env.frame(rec.pc);
    var part := SourcePart(h, rec, env);
    SourceTextShape(h.opts, env, rec.pc);
    assert part == src.file + ":" + Numbers.IntText(src.line) + " > ";
    assert HeaderSlotsPart(h, rec) == "";
    AppendEmpty(part);
    assert SeparatorText(h.opts) == "> ";
    assert HeaderZone(h, rec, env) == HeadText(h, rec) + part + "> ";
    MarkerJoin(HeadText(h, rec), src.file, Numbers.IntText(src.line));
  }

  /** Regrouping the source field's text inside the header zone. */
  lemma MarkerJoin(head: string, file: string, line: string)
    ensures head + (file + ":" + line + " > ") + "> " == head + file + ":" + line + " > " + "> "
  {
  }

  /** With no line break in any attribute, the trailer is empty and every attribute without a header key is on the line. */
  lemma RenderOneLine(h: Handler, rec: Record, env: Env)
    requires h.Valid()
    requires forall i :: 0 <= i < |rec.attrs| ==> '\n' !in Spans(h, rec.attrs)[i]
    ensures TrailerZone(h, rec) == ""
    ensures MiddleZone(h, rec) == MessageText(h.opts, rec.level, rec.message) + h.context
                                  + Joined(h.opts.headers, rec.attrs, Spans(h, rec.attrs), |rec.attrs|)
  {
    CarvedNoBreaks(h.opts.headers, rec.attrs, Spans(h, rec.attrs), |rec.attrs|);
  }

  // ---------------------------------------------------------------------
  // Groups
  // ---------------------------------------------------------------------

  /** The prefix a chain of WithGroup calls builds from a root handler: a name is dotted on unless the prefix so far is empty. */
  function PrefixOf(names: seq<string>): string
  {
    if names == [] then ""
    else
      var p := PrefixOf(names[..|names| - 1]);
      if p != "" then p + "." + names[|names| - 1] else names[|names| - 1]
  }

  /** The names joined with dots. */
  function JoinDots(names: seq<string>): string
  {
    if |names| <= 1 then (if names == [] then "" else names[0])
    else JoinDots(names[..|names| - 1]) + "." + names[|names| - 1]
  }

  /** A handler whose group prefix is the one its group names build. */
  predicate PrefixMatches(h: Handler)
  {
    h.groupPrefix == PrefixOf(h.groups)
  }

  /** NewHandler starts a chain; WithGroup keeps the prefix matching the names. */
  lemma WithGroupKeepsPrefix(h: Handler, name: string)
    requires PrefixMatches(h)
    ensures PrefixMatches(WithGroup(h, name))
    ensures WithGroup(h, name).groups == h.groups + [TrimSpace(name)]
  {
    var g := h.groups + [TrimSpace(name)];
    assert g[..|g| - 1] == h.groups;
  }

  /** When no group name is blank, the prefix is the names joined with dots. */
  lemma {:induction false} PrefixIsJoin(names: seq<string>)
    requires forall i :: 0 <= i < |names| ==> names[i] != ""
    ensures PrefixOf(names) == JoinDots(names)
    ensures names != [] ==> PrefixOf(names) != ""
  {
    if names != [] {
      PrefixIsJoin(names[..|names| - 1]);
    }
  }

  /** A blank group name adds nothing at the front of the prefix, but an empty segment after it. */
  lemma BlankGroupName(a: string)
    requires a != ""
    ensures PrefixOf(["", a]) == a
    ensures PrefixOf([a, ""]) == a + "."
  {
    assert ["", a][..1] == [""];
    assert [""][..0] == [];
    assert [a, ""][..1] == [a];
  }

  /** Trimming twice is trimming once. */
  lemma TrimSpaceIdempotent(s: string)
    ensures TrimSpace(TrimSpace(s)) == TrimSpace(s)
  {
    var r := TrimSpace(s);
    if r != [] {
      assert LeadingSpace(r) == 0;
      assert TrailingStart(r) == |r|;
      assert r[0..|r|] == r;
    }
  }

  /** A name that neither starts nor ends with white space is kept as it is. */
  lemma TrimSpaceKeeps(s: string)
    requires s != [] && !IsSpace(s[0]) && !IsSpace(s[|s| - 1])
    ensures TrimSpace(s) == s
  {
    assert LeadingSpace(s) == 0;
    assert TrailingStart(s) == |s|;
    assert s[0..|s|] == s;
  }

  /**
   * Two children of one handler each see the parent's names followed by
   * their own: making the "y" child leaves the "x" child's names a, b, c, x.
   */
  lemma SiblingGroupsKept(h: Handler)
    requires h.groups == ["a", "b", "c"]
    ensures WithGroup(h, "x").groups == ["a", "b", "c", "x"]
    ensures WithGroup(h, "y").groups == ["a", "b", "c", "y"]
  {
    TrimSpaceKeeps("x");
    TrimSpaceKeeps("y");
  }
}
