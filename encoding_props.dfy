/**
 * Properties of the record encoder: level names read back to their level,
 * the shapes of the fields, elision of empty attributes, group flattening,
 * and where the rewrite hook can be called.
 */
module EncodingProperties {
  import opened Slog
  import opened Numbers
  import opened Encoding

  // ---------------------------------------------------------------------
  // Level names
  // ---------------------------------------------------------------------

  /** The value of a level anchor's name. */
  function AnchorValue(name: string): (r: Option<int>)
    ensures r.Some? <==> name in {"ERR", "WRN", "INF", "DBG"}
  {
    if name == "ERR" then Some(LevelError)
    else if name == "WRN" then Some(LevelWarn)
    else if name == "INF" then Some(LevelInfo)
    else if name == "DBG" then Some(LevelDebug)
    else None
  }

  /** Read a level name back: an anchor, optionally followed by a sign and decimal digits. */
  function ParseLevelLabel(s: string): (r: Option<int>)
    ensures r.Some? ==> |s| >= 3 && AnchorValue(s[..3]).Some?
  {
    if |s| < 3 || AnchorValue(s[..3]).None? then None
    else
      var base := AnchorValue(s[..3]).value;
      if |s| == 3 then Some(base)
      else if |s| >= 5 && (s[3] == '+' || s[3] == '-') && forall k :: 4 <= k < |s| ==> IsDigit(s[k]) then
        var m: int := ParseNat(s[4..]);
        Some(base + (if s[3] == '-' then -m else m))
      else None
  }

  /** An anchor's name followed by a signed offset reads back to the anchor's value plus the offset. */
  lemma ParseOffsetLabel(name: string, base: int, d: int)
    requires AnchorValue(name) == Some(base) && d != 0
    ensures ParseLevelLabel(name + SignedText(d)) == Some(base + d)
  {
    var s := name + SignedText(d);
    var t := SignedText(d);
    var mag: nat := if d < 0 then -d else d;
    assert s[..3] == name;
    assert s[3] == t[0];
    assert s[4..] == t[1..] == NatText(mag);
    assert forall k :: 4 <= k < |s| ==> s[k] == t[k - 3];
    ParseNatText(mag);
  }

  /** Every level name reads back to its level. */
  lemma LevelLabelParses(l: int)
    ensures ParseLevelLabel(LevelLabel(l)) == Some(l)
  {
    var (name, base) := LevelAnchor(l);
    assert AnchorValue(name) == Some(base);
    if l - base != 0 {
      ParseOffsetLabel(name, base, l - base);
    } else {
      assert LevelLabel(l)[..3] == name;
    }
  }

  /** Distinct levels have distinct names. */
  lemma LevelLabelInjective(l: int, m: int)
    requires LevelLabel(l) == LevelLabel(m)
    ensures l == m
  {
    LevelLabelParses(l);
    LevelLabelParses(m);
  }

  /** A level is named after the highest anchor at or below it; DBG below Debug, with a negative offset. */
  lemma LevelLabelAnchor(l: int)
    ensures |LevelLabel(l)| >= 3
    ensures LevelLabel(l)[..3] == (if l >= LevelError then "ERR" else if l >= LevelWarn then "WRN"
                                   else if l >= LevelInfo then "INF" else "DBG")
    ensures |LevelLabel(l)| == 3 <==> l in {LevelDebug, LevelInfo, LevelWarn, LevelError}
    ensures l < LevelDebug ==> LevelLabel(l)[3] == '-'
  {
    var (name, base) := LevelAnchor(l);
    if l - base != 0 {
      assert LevelLabel(l)[3] == SignedText(l - base)[0];
    }
  }

  /** The names the level table of the console handler shows, one per neighbour of each anchor. */
  lemma LevelLabelTable()
    ensures LevelLabel(LevelDebug - 1) == "DBG-1"
    ensures LevelLabel(LevelDebug) == "DBG"
    ensures LevelLabel(LevelDebug + 1) == "DBG+1"
    ensures LevelLabel(LevelInfo) == "INF"
    ensures LevelLabel(LevelInfo + 1) == "INF+1"
    ensures LevelLabel(LevelWarn) == "WRN"
    ensures LevelLabel(LevelWarn + 1) == "WRN+1"
    ensures LevelLabel(LevelError) == "ERR"
    ensures LevelLabel(LevelError + 1) == "ERR+1"
  {
    assert NatText(1) == "1";
  }

  /** The level field is elided, or ends with a space; without a hook it is never elided. */
  lemma LevelTextShape(o: Options, l: int)
    ensures LevelText(o, l) == "" || LevelText(o, l)[|LevelText(o, l)| - 1] == ' '
    ensures LevelText(o, l) == "" <==>
              o.replaceAttr.Some? && Resolve(o.replaceAttr.value([], Attr(LevelKey, Any(LevelOf(l)))).value) == Any(Nil)
  {
  }

  /** A hook that answers with another slog.Level renames the level: the field reads as that level's own. */
  lemma LevelTextRenamed(o: Options, l: int, m: int)
    requires o.replaceAttr.Some?
    requires Resolve(o.replaceAttr.value([], Attr(LevelKey, Any(LevelOf(l)))).value) == Any(LevelOf(m))
    ensures LevelText(o, l) == LevelText(o.(replaceAttr := None), m)
    ensures o.noColor ==> LevelText(o, l) == LevelLabel(m) + " "
  {
  }

  // ---------------------------------------------------------------------
  // Colour
  // ---------------------------------------------------------------------

  /** Styled text is the style, the text and the reset token; without colour or style, just the text. */
  lemma WithColorFrames(o: Options, style: string, inner: string)
    ensures style == "" || o.noColor ==> WithColor(o, style, inner) == inner
    ensures style != "" && !o.noColor ==>
              var r := WithColor(o, style, inner);
              |r| == |style| + |inner| + |o.resetMod|
              && r[..|style|] == style
              && r[|style|..|style| + |inner|] == inner
              && r[|style| + |inner|..] == o.resetMod
  {
  }

  /** Errors are written in the error style whatever style the caller asked for; other values in the caller's. */
  lemma ColoredValueStyle(o: Options, v: Value, c: string)
    ensures v.Any? && v.any.Error? ==> ColoredValue(o, v, c) == WithColor(o, o.theme.attrValueError, ValueText(o, v))
    ensures !(v.Any? && v.any.Error?) ==> ColoredValue(o, v, c) == WithColor(o, c, ValueText(o, v))
    ensures v.Any? && v.any.Error? && v.any.detailed.None? ==> ValueText(o, v) == v.any.message
  {
  }

  // ---------------------------------------------------------------------
  // Timestamp, source, message
  // ---------------------------------------------------------------------

  /**
   * The zero time is elided, before any hook is asked, and so is a hook's
   * answer that resolves to the zero time or to nil; any other timestamp
   * field ends with a space.
   */
  lemma TimestampTextShape(o: Options, t: Instant)
    ensures t.IsZero() ==> TimestampText(o, t) == ""
    ensures (!t.IsZero() && o.replaceAttr.Some?
             && var v := Resolve(o.replaceAttr.value([], Attr(TimeKey, Time(t))).value);
                v == Any(Nil) || (v.Time? && v.t.IsZero()))
            ==> TimestampText(o, t) == ""
    ensures TimestampText(o, t) != "" ==> TimestampText(o, t)[|TimestampText(o, t)| - 1] == ' '
    ensures o.replaceAttr.None? && !t.IsZero() ==> TimestampText(o, t) != ""
  {
  }

  /**
   * Without a hook and without a call site there is no source field; a hook
   * answering nil or a nil *slog.Source removes it; without colour and without
   * a hook it is the (relative) file, ':', the line and " > "; any source
   * field ends with the styled " > ".
   */
  lemma SourceTextShape(o: Options, env: Env, pc: nat)
    ensures o.replaceAttr.None? && pc == 0 ==> SourceText(o, env, pc) == ""
    ensures o.replaceAttr.Some? ==>
              var src := if pc > 0 then env.frame(pc) else Source("", "", 0);
              var v := Resolve(o.replaceAttr.value([], Attr(SourceKey, Any(SourceRef(Some(src))))).value);
              (v == Any(Nil) || v == Any(SourceRef(None))) ==> SourceText(o, env, pc) == ""
    ensures o.replaceAttr.None? && o.noColor && pc > 0 && (env.frame(pc).file != "" || env.frame(pc).line != 0) ==>
              var src := env.frame(pc);
              var file := if env.cwd != "" && env.rel(env.cwd, src.file).Some? then env.rel(env.cwd, src.file).value else src.file;
              SourceText(o, env, pc) == file + ":" + IntText(src.line) + " > "
    ensures SourceText(o, env, pc) != "" ==>
              var m := WithColor(o, o.theme.attrKey, " > ");
              |m| <= |SourceText(o, env, pc)| && SourceText(o, env, pc)[|SourceText(o, env, pc)| - |m|..] == m
  {
  }

  /** The message is written in the debug message style below Info, and is elided only by a hook answering nil. */
  lemma MessageTextShape(o: Options, l: int, msg: string)
    ensures o.replaceAttr.None? && o.noColor ==> MessageText(o, l, msg) == msg
    ensures o.replaceAttr.None? ==>
              MessageText(o, l, msg) == WithColor(o, if l < LevelInfo then o.theme.messageDebug else o.theme.message, msg)
    ensures (o.replaceAttr.Some? && Resolve(o.replaceAttr.value([], Attr(MessageKey, String(msg))).value) == Any(Nil))
              ==> MessageText(o, l, msg) == ""
  {
  }

  // ---------------------------------------------------------------------
  // Attributes
  // ---------------------------------------------------------------------

  /** Without colour and without a hook, a leaf is " ", the dotted prefix, the key, '=' and the value's text. */
  lemma PlainLeaf(o: Options, groups: seq<string>, a: Attr, group: string, fuel: nat)
    requires o.noColor && o.replaceAttr.None?
    requires a != EmptyAttr && !Resolve(a.value).Group?
    ensures AttrText(o, groups, a, group, fuel)
            == " " + (if group == "" then "" else group + ".") + a.key + "=" + ValueText(o, Resolve(a.value))
  {
  }

  /** The empty Attr is elided before the hook is asked; an attribute the hook turns into it is elided too. */
  lemma EmptyElided(o: Options, groups: seq<string>, a: Attr, group: string, fuel: nat)
    ensures AttrText(o, groups, EmptyAttr, group, fuel) == ""
    ensures a != EmptyAttr && !Resolve(a.value).Group? && o.replaceAttr.Some?
            && o.replaceAttr.value(groups, Attr(a.key, Resolve(a.value))) == EmptyAttr
            ==> AttrText(o, groups, a, group, fuel) == ""
  {
  }

  /**
   * Without a hook, only the literal empty Attr is elided: an attribute
   * with an empty key whose value resolves to nil is written.
   */
  lemma ResolvedEmptyWritten(o: Options, groups: seq<string>, group: string, fuel: nat)
    requires o.noColor && o.replaceAttr.None?
    ensures AttrText(o, groups, Attr("", Any(Valuer(Any(Nil)))), group, fuel)
            == " " + (if group == "" then "" else group + ".") + "=<nil>"
  {
  }

  /** The first n attributes of two lists that agree on them render alike. */
  lemma {:induction false} AttrsTextPrefix(o: Options, groups: seq<string>, s: seq<Attr>, t: seq<Attr>, n: nat, group: string, fuel: nat)
    requires n <= |s| && n <= |t| && s[..n] == t[..n]
    ensures AttrsText(o, groups, s, n, group, fuel) == AttrsText(o, groups, t, n, group, fuel)
  {
    if n > 0 {
      assert s[..n - 1] == s[..n][..n - 1] && t[..n - 1] == t[..n][..n - 1];
      assert s[n - 1] == s[..n][n - 1] && t[n - 1] == t[..n][n - 1];
      AttrsTextPrefix(o, groups, s, t, n - 1, group, fuel);
    }
  }

  /** A list renders as its parts, one after the other. */
  lemma {:induction false} AttrsTextAppend(o: Options, groups: seq<string>, s: seq<Attr>, t: seq<Attr>, group: string, fuel: nat)
    ensures AttrsText(o, groups, s + t, |s + t|, group, fuel)
            == AttrsText(o, groups, s, |s|, group, fuel) + AttrsText(o, groups, t, |t|, group, fuel)
    decreases |t|
  {
    if t == [] {
      assert s + t == s;
      AppendEmpty(AttrsText(o, groups, s, |s|, group, fuel));
    } else {
      var t' := t[..|t| - 1];
      var last := t[|t| - 1];
      AttrsTextAppend(o, groups, s, t', group, fuel);
      assert (s + t)[..|s + t| - 1] == s + t';
      AttrsTextPrefix(o, groups, s + t, s + t', |s + t'|, group, fuel);
      AttrsTextPrefix(o, groups, t, t', |t'|, group, fuel);
      assert (s + t)[|s + t| - 1] == last;
      AppendAssoc(AttrsText(o, groups, s, |s|, group, fuel), AttrsText(o, groups, t', |t'|, group, fuel),
                  AttrText(o, groups, last, group, fuel));
    }
  }

  /** A list of empty Attrs. */
  predicate AllEmpty(s: seq<Attr>)
  {
    forall i :: 0 <= i < |s| ==> s[i] == EmptyAttr
  }

  /** Every attribute of the list writes nothing on its own. */
  predicate AllElided(o: Options, groups: seq<string>, s: seq<Attr>, group: string, fuel: nat)
  {
    forall i :: 0 <= i < |s| ==> AttrText(o, groups, s[i], group, fuel) == ""
  }

  /** A list whose attributes each write nothing writes nothing. */
  lemma {:induction false} AllElidedRendersNothing(o: Options, groups: seq<string>, s: seq<Attr>, n: nat, group: string, fuel: nat)
    requires n <= |s| && AllElided(o, groups, s, group, fuel)
    ensures AttrsText(o, groups, s, n, group, fuel) == ""
  {
    if n > 0 {
      AllElidedRendersNothing(o, groups, s, n - 1, group, fuel);
    }
  }

  /**
   * A group none of whose children writes anything (no children, empty
   * Attrs, empty groups at any depth, attributes the hook drops) writes
   * nothing: not even its key.
   */
  lemma EmptyGroupElided(o: Options, groups: seq<string>, key: string, children: seq<Attr>, group: string, fuel: nat)
    requires AllElided(o, PushGroup(o, groups, key), children, Subgroup(group, key), fuel)
    ensures AttrText(o, groups, Attr(key, Group(children)), group, fuel) == ""
  {
    AllElidedRendersNothing(o, PushGroup(o, groups, key), children, |children|, Subgroup(group, key), fuel);
  }

  /** A list of empty Attrs writes nothing, whatever the hook. */
  lemma AllEmptyElided(o: Options, groups: seq<string>, s: seq<Attr>, group: string, fuel: nat)
    requires AllEmpty(s)
    ensures AttrsText(o, groups, s, |s|, group, fuel) == ""
  {
    forall i | 0 <= i < |s|
      ensures AttrText(o, groups, s[i], group, fuel) == ""
    {
      EmptyElided(o, groups, s[i], group, fuel);
    }
    AllElidedRendersNothing(o, groups, s, |s|, group, fuel);
  }

  /** Groups nested inside a group, all without fields, write nothing at all. */
  lemma NestedEmptyGroupsElided(o: Options, groups: seq<string>, outer: string, inner: string, group: string, fuel: nat)
    ensures AttrText(o, groups, Attr(outer, Group([Attr(inner, Group([])), EmptyAttr])), group, fuel) == ""
  {
    var children := [Attr(inner, Group([])), EmptyAttr];
    var gs := PushGroup(o, groups, outer);
    var g := Subgroup(group, outer);
    EmptyGroupElided(o, gs, inner, [], g, fuel);
    EmptyElided(o, gs, EmptyAttr, g, fuel);
    assert AllElided(o, gs, children, g, fuel);
    EmptyGroupElided(o, groups, outer, children, group, fuel);
  }

  // ---------------------------------------------------------------------
  // Flattening: an independent account of what a record's attributes write
  // ---------------------------------------------------------------------

  /** One written leaf: its dotted key and its resolved value. */
  datatype Leaf = Leaf(key: string, value: Value)

  /**
   * The leaves one attribute contributes under prefix `group`, in order:
   * none for the empty Attr, the leaves of the children for a group (their
   * prefix extended by the group's key), otherwise one leaf.
   */
  function FlattenAttr(group: string, a: Attr): (r: seq<Leaf>)
    ensures forall i :: 0 <= i < |r| ==> !r[i].value.Group? && !(r[i].value.Any? && r[i].value.any.Valuer?)
    decreases AttrSize(a), 0
  {
    if a == EmptyAttr then []
    else
      var v := Resolve(a.value);
      if v.Group? then Flatten(Subgroup(group, a.key), v.attrs, |v.attrs|)
      else [Leaf(Subgroup(group, a.key), v)]
  }

  /** The leaves of the first n attributes of a list, in order. */
  function Flatten(group: string, s: seq<Attr>, n: nat): (r: seq<Leaf>)
    requires n <= |s|
    ensures forall i :: 0 <= i < |r| ==> !r[i].value.Group? && !(r[i].value.Any? && r[i].value.any.Valuer?)
    decreases AttrsSize(s), 1, n
  {
    if n == 0 then []
    else
      AttrSizeBounded(s, n - 1);
      Flatten(group, s, n - 1) + FlattenAttr(group, s[n - 1])
  }

  /** The plain text of one leaf. */
  function LeafLine(o: Options, leaf: Leaf): string
  {
    " " + leaf.key + "=" + ValueText(o, leaf.value)
  }

  /** The plain text of a run of leaves, one after the other. */
  function LeavesText(o: Options, leaves: seq<Leaf>): string
  {
    if leaves == [] then ""
    else LeavesText(o, leaves[..|leaves| - 1]) + LeafLine(o, leaves[|leaves| - 1])
  }

  lemma {:induction false} LeavesTextAppend(o: Options, a: seq<Leaf>, b: seq<Leaf>)
    ensures LeavesText(o, a + b) == LeavesText(o, a) + LeavesText(o, b)
    decreases |b|
  {
    if b == [] {
      assert a + b == a;
      AppendEmpty(LeavesText(o, a));
    } else {
      var b' := b[..|b| - 1];
      var last := b[|b| - 1];
      assert (a + b)[..|a + b| - 1] == a + b';
      assert (a + b)[|a + b| - 1] == last;
      LeavesTextAppend(o, a, b');
      AppendAssoc(LeavesText(o, a), LeavesText(o, b'), LeafLine(o, last));
    }
  }

  /**
   * Without colour and without a hook, an attribute writes exactly the
   * leaves it flattens to: groups leave no text of their own and only
   * lengthen their children's dotted keys.
   */
  lemma {:induction false} AttrFlattens(o: Options, groups: seq<string>, a: Attr, group: string, fuel: nat)
    requires o.noColor && o.replaceAttr.None?
    ensures AttrText(o, groups, a, group, fuel) == LeavesText(o, FlattenAttr(group, a))
    decreases AttrSize(a), 0
  {
    if a != EmptyAttr {
      var v := Resolve(a.value);
      if v.Group? {
        AttrsFlatten(o, groups, v.attrs, |v.attrs|, Subgroup(group, a.key), fuel);
      } else {
        var leaf := Leaf(Subgroup(group, a.key), v);
        assert KeyText(group, a.key) == Subgroup(group, a.key) + "=";
        assert LeavesText(o, [leaf]) == LeavesText(o, []) + LeafLine(o, leaf);
        AppendEmpty(LeafLine(o, leaf));
      }
    }
  }

  /** Without colour and without a hook, a list writes the leaves it flattens to. */
  lemma {:induction false} AttrsFlatten(o: Options, groups: seq<string>, s: seq<Attr>, n: nat, group: string, fuel: nat)
    requires o.noColor && o.replaceAttr.None? && n <= |s|
    ensures AttrsText(o, groups, s, n, group, fuel) == LeavesText(o, Flatten(group, s, n))
    decreases AttrsSize(s), 1, n
  {
    if n > 0 {
      AttrSizeBounded(s, n - 1);
      AttrsFlatten(o, groups, s, n - 1, group, fuel);
      AttrFlattens(o, groups, s[n - 1], group, fuel);
      LeavesTextAppend(o, Flatten(group, s, n - 1), FlattenAttr(group, s[n - 1]));
    }
  }

  /** A group and a subgroup flatten to keys dotted through both names. */
  lemma SubgroupLeaves()
    ensures Flatten("", [Attr("group", Group([Attr("foo", String("bar")), Attr("subgroup", Group([Attr("foo", String("bar"))]))]))], 1)
            == [Leaf("group.foo", String("bar")), Leaf("group.subgroup.foo", String("bar"))]
  {
    var foo := Attr("foo", String("bar"));
    var inner := [foo];
    var sub := Attr("subgroup", Group(inner));
    var children := [foo, sub];
    assert Subgroup("", "group") == "group";
    assert Subgroup("group", "foo") == "group.foo";
    assert Subgroup("group", "subgroup") == "group.subgroup";
    assert Subgroup("group.subgroup", "foo") == "group.subgroup.foo";
    assert FlattenAttr("group.subgroup", foo) == [Leaf("group.subgroup.foo", String("bar"))];
    assert Flatten("group.subgroup", inner, 1) == Flatten("group.subgroup", inner, 0) + FlattenAttr("group.subgroup", foo);
    assert FlattenAttr("group", sub) == Flatten("group.subgroup", inner, 1);
    assert FlattenAttr("group", foo) == [Leaf("group.foo", String("bar"))];
    assert Flatten("group", children, 1) == Flatten("group", children, 0) + FlattenAttr("group", foo);
    assert Flatten("group", children, 2) == Flatten("group", children, 1) + FlattenAttr("group", sub);
  }

  /** A lone group with the empty key at the top level writes its children as they are. */
  lemma LoneInlineGroup(o: Options, children: seq<Attr>, fuel: nat)
    requires o.replaceAttr.None?
    ensures AttrsText(o, [], [Attr("", Group(children))], 1, "", fuel) == AttrsText(o, [], children, |children|, "", fuel)
  {
    var g := Attr("", Group(children));
    assert Subgroup("", "") == "";
    assert AttrText(o, [], g, "", fuel) == AttrsText(o, [], children, |children|, "", fuel);
    AppendEmpty(AttrText(o, [], g, "", fuel));
  }

  /** Replacing a part of a list by one that renders the same renders the same. */
  lemma {:induction false} SameRendering(o: Options, pre: seq<Attr>, g: seq<Attr>, children: seq<Attr>, post: seq<Attr>, fuel: nat)
    requires AttrsText(o, [], g, |g|, "", fuel) == AttrsText(o, [], children, |children|, "", fuel)
    ensures AttrsText(o, [], pre + g + post, |pre + g + post|, "", fuel)
            == AttrsText(o, [], pre + children + post, |pre + children + post|, "", fuel)
  {
    AttrsTextAppend(o, [], pre + g, post, "", fuel);
    AttrsTextAppend(o, [], pre, g, "", fuel);
    AttrsTextAppend(o, [], pre + children, post, "", fuel);
    AttrsTextAppend(o, [], pre, children, "", fuel);
  }

  /** At the top level, a group with the empty key is written inline: as if its children stood in its place. */
  lemma InlineGroup(o: Options, pre: seq<Attr>, children: seq<Attr>, post: seq<Attr>, fuel: nat)
    requires o.replaceAttr.None?
    ensures AttrsText(o, [], pre + [Attr("", Group(children))] + post, |pre| + 1 + |post|, "", fuel)
            == AttrsText(o, [], pre + children + post, |pre| + |children| + |post|, "", fuel)
  {
    LoneInlineGroup(o, children, fuel);
    SameRendering(o, pre, [Attr("", Group(children))], children, post, fuel);
  }

  /**
   * Under a prefix, a group with the empty key is not inline: its children's
   * keys get the prefix and an empty segment, so "g" and child "k" give "g..k".
   */
  lemma NestedEmptyKeyGroup(o: Options, k: string, v: string, fuel: nat)
    requires o.noColor && o.replaceAttr.None?
    ensures AttrText(o, [], Attr("", Group([Attr(k, String(v))])), "g", fuel) == " g.." + k + "=" + v
  {
    var child := Attr(k, String(v));
    PlainLeaf(o, [], child, "g.", fuel);
    assert Subgroup("g", "") == "g.";
    assert AttrsText(o, [], [child], 1, "g.", fuel) == "" + AttrText(o, [], child, "g.", fuel);
    AppendEmpty(AttrText(o, [], child, "g.", fuel));
  }

  // ---------------------------------------------------------------------
  // Where the hook is called
  // ---------------------------------------------------------------------

  /** A value that is not a LogValuer. */
  predicate Resolved(v: Value)
  {
    !(v.Any? && v.any.Valuer?)
  }

  /**
   * Two hooks that answer alike for every resolved, non-group attribute and
   * every list of group names extending `groups`.
   */
  ghost predicate HooksAgree(k1: Hook, k2: Hook, groups: seq<string>)
  {
    forall gs: seq<string>, b: Attr {:trigger k1(gs, b)} {:trigger k2(gs, b)} ::
      groups <= gs && Resolved(b.value) && !b.value.Group? ==> k1(gs, b) == k2(gs, b)
  }

  /**
   * The hook is only ever called with a resolved, non-group attribute and
   * the group names of the encoder extended by the enclosing groups: two
   * hooks that agree there give the same text.
   */
  lemma {:induction false} HookSeesLeaves(o: Options, k2: Hook, groups: seq<string>, a: Attr, group: string, fuel: nat)
    requires o.replaceAttr.Some? && HooksAgree(o.replaceAttr.value, k2, groups)
    ensures AttrText(o, groups, a, group, fuel) == AttrText(o.(replaceAttr := Some(k2)), groups, a, group, fuel)
    decreases fuel, AttrSize(a), 1
  {
    if a != EmptyAttr {
      if Resolve(a.value).Group? {
        GroupSeesLeaves(o, k2, groups, a, group, fuel);
      } else {
        LeafSeesLeaves(o, k2, groups, a, group, fuel);
      }
    }
  }

  /** HookSeesLeaves for a group attribute: the hook is not asked, the children are. */
  lemma {:induction false} GroupSeesLeaves(o: Options, k2: Hook, groups: seq<string>, a: Attr, group: string, fuel: nat)
    requires o.replaceAttr.Some? && HooksAgree(o.replaceAttr.value, k2, groups)
    requires a != EmptyAttr && Resolve(a.value).Group?
    ensures AttrText(o, groups, a, group, fuel) == AttrText(o.(replaceAttr := Some(k2)), groups, a, group, fuel)
    decreases fuel, AttrSize(a), 0
  {
    var v := Resolve(a.value);
    AttrsSizeOfGroup(a);
    PushKeepsAgreement(o.replaceAttr.value, k2, groups, a.key);
    HooksSeeLeaves(o, k2, groups + [a.key], v.attrs, |v.attrs|, Subgroup(group, a.key), fuel);
  }

  /** HookSeesLeaves for a leaf: both hooks are asked the same question and answer alike. */
  lemma {:induction false} LeafSeesLeaves(o: Options, k2: Hook, groups: seq<string>, a: Attr, group: string, fuel: nat)
    requires o.replaceAttr.Some? && HooksAgree(o.replaceAttr.value, k2, groups)
    requires a != EmptyAttr && !Resolve(a.value).Group?
    ensures AttrText(o, groups, a, group, fuel) == AttrText(o.(replaceAttr := Some(k2)), groups, a, group, fuel)
    decreases fuel, AttrSize(a), 0
  {
    var v := Resolve(a.value);
    var b := o.replaceAttr.value(groups, Attr(a.key, v));
    assert b == k2(groups, Attr(a.key, v));
    if b != EmptyAttr {
      var w := Resolve(b.value);
      if w.Group? && fuel > 0 {
        PushKeepsAgreement(o.replaceAttr.value, k2, groups, b.key);
        HooksSeeLeaves(o, k2, groups + [b.key], w.attrs, |w.attrs|, Subgroup(group, b.key), fuel - 1);
      }
    }
  }

  lemma {:induction false} HooksSeeLeaves(o: Options, k2: Hook, groups: seq<string>, s: seq<Attr>, n: nat, group: string, fuel: nat)
    requires o.replaceAttr.Some? && n <= |s|
    requires HooksAgree(o.replaceAttr.value, k2, groups)
    ensures AttrsText(o, groups, s, n, group, fuel) == AttrsText(o.(replaceAttr := Some(k2)), groups, s, n, group, fuel)
    decreases fuel, AttrsSize(s), 2, n
  {
    if n > 0 {
      AttrSizeBounded(s, n - 1);
      HooksSeeLeaves(o, k2, groups, s, n - 1, group, fuel);
      HookSeesLeaves(o, k2, groups, s[n - 1], group, fuel);
    }
  }

  /** Hooks that agree under some group names agree under any extension of them. */
  lemma PushKeepsAgreement(k1: Hook, k2: Hook, groups: seq<string>, key: string)
    requires HooksAgree(k1, k2, groups)
    ensures HooksAgree(k1, k2, groups + [key])
  {
    forall gs: seq<string>, b: Attr | groups + [key] <= gs && Resolved(b.value) && !b.value.Group?
      ensures k1(gs, b) == k2(gs, b)
    {
      assert groups <= gs;
    }
  }
}
