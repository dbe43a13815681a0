# slog-console record encoder, modelled in Dafny

This project models the core of `phsym/slog-console`, a `log/slog` handler. The handler writes one structured log record per line to a terminal, in colour when asked. The model covers two parts:

- **The record encoder** (`encoding.go`):
  - how the timestamp, level, source, message and attributes of a record become text;
  - the optional colour wrapping;
  - the rewrite hook `ReplaceAttr` and its stack of group names.
- **The Handler** (`handler.go`):
  - `Handle`, which renders a record into a header, a middle and a trailer section;
  - `Enabled`;
  - the derivations `WithAttrs` (with `extractHeaders`) and `WithGroup`.

Each writer of the encoder appears twice, in `encoding.dfy`:

- a function that says which text the writer appends (`TimestampText`, `LevelText`, `SourceText`, `MessageText`, `AttrText`, ...);
- a method of class `Encoder` that appends that text to a `Buffer` in place, as the Go encoder does. The method's contract ties it to the function.

`Handle` (in `handler.dfy`):

- fills three `Buffer`s;
- moves an attribute whose text spans lines from the middle buffer to the trailer, by truncating the middle buffer;
- is proved to produce `Render(h, rec, env)`.

`ExtractHeaders` works in place on an `array` of attributes, as `extractHeaders` does on the caller's slice. The lemmas about these functions are in `encoding_props.dfy` and `handler_props.dfy`. `slog.dfy` holds the parts of `log/slog` the handler relies on. `numbers.dfy` holds decimal integer text and fmt's `%+d`. `group_slices.dfy` models the handler's group names as the Go slice they are, to show how `WithGroup` shares them (see Findings).

External behaviour is a parameter of the model:

- **Formatting** (`Formats`): time layouts, floats, durations, `slog.Level.String`, and `%v` of groups and of other values are function fields.
- **The hook** is an optional function field of `Options`.
- **The environment** (`Env`): the working directory, `filepath.Rel` and the frame of a program counter.

Three inputs replace nil values or Go-side constants:

- `NewHandler` takes the default theme as an argument.
- `NewHandler` takes the `ResetMod` token as an argument.
- A missing `Level` is `None`.

The comments of `handler_test.go` quote the `slog.Handler` rules the handler follows: ignore the empty Attr (`handler_test.go:111-113`), ignore a group without Attrs (`handler_test.go:123-125`), and inline a group whose key is empty (`handler_test.go:141-143`). Where the code departs from those rules, or from the expected outputs at `handler_test.go:275`, `handler_test.go:323-500` and `handler_test.go:595`, the model follows the code:

- **Source marker.** The source field writes its own `" > "` (`encoding.go:198`). `Handle` also writes the header separator when the header zone grew (`handler.go:187-189`). A record with a source and colour off therefore shows `file:12 > > msg`. Lemma `HandlerProperties.SourceMarkerTwice` states this. The expected outputs at `handler_test.go:275`, in the ReplaceAttr table at `handler_test.go:323-500` (for instance lines 323, 380 and 470) and at `handler_test.go:595` show the marker once, so they do not match the `writeSource` modelled here.
- **Empty-key groups.** A group with the empty key is written inline only at the top level. Under a prefix `g`, the code builds the prefix `g.` for its children, which gives `g..k=v` (`encoding.go:247-250`). Lemma `EncodingProperties.NestedEmptyKeyGroup` states this.
- **Empty-key groups and the hook.** Even an inlined group pushes its key onto the hook's group names (`encoding.go:251-253`). A hook therefore sees `""` among the group names while an inline group's children are written, not the names it would see for those children in the group's place. `EncodingProperties.InlineGroup` holds only without a hook.
- **Elision without a hook.** Only the literal empty `Attr` is elided, and the check comes before resolution (`encoding.go:225-228`). An attribute whose value becomes the empty `Attr` only after `Resolve` is written as `=<nil>` (`EncodingProperties.ResolvedEmptyWritten`).

Code and tests agree that the message comes before the handler's pre-rendered context attributes (`handler.go:106-108`, `handler_test.go:218-220`). At `encoding.go:293`, `e.opts` is read as `e.h.opts`, the only options the encoder has.

Three operations that `handler.go` calls are defined outside `encoding.go` and `handler.go`. Their behaviour is inferred from the expected outputs in `handler_test.go:557-620`:

- `writeHeaders` writes each non-empty header slot's value followed by a space (`HeadersText`).
- `writeHeaderSeparator` writes `"> "` (`SeparatorText`).
- `middleBuf.copy(&h.context)` appends the context.

Those tests all run with colour off (`handler_test.go:632`, `handler_test.go:659`), and their slot values are plain strings. Three details are therefore guesses that no expected output confirms:

- that slot values are written in the theme's header style;
- that the separator is written in the attribute-key style;
- that slot values are resolved before they are written.

## Model

| member | source | states |
|---|---|---|
| Slog.Resolve | encoding.go:228 | the resolved value is not a LogValuer, is no larger than the input, and any value that is not a LogValuer is its own resolution |
| Slog.ResolveIdempotent | encoding.go:241 | resolving an already resolved value changes nothing |
| Numbers.IntText | encoding.go:196 | decimal text of an int: a leading '-' exactly when it is negative |
| Numbers.IntTextInjective | encoding.go:196 | distinct line numbers have distinct texts |
| Numbers.SignedText | encoding.go:364 | the `%+d` text: the sign is always written, then digits |
| Numbers.SignedTextInjective | encoding.go:364 | the signed offset text determines the offset |
| Encoding.LevelAnchor | encoding.go:338-359 | ERR from Error up, WRN from Warn, INF from Info, DBG below Info (including below Debug), with the anchor's value |
| Encoding.Encoder.constructor | encoding.go:27-34 | a fresh encoder: the handler's group names only when a hook is set |
| Encoding.Encoder.WriteColoredString | encoding.go:66-70 | appends the string wrapped in the style and reset token, or bare when there is no style or colour is off |
| Encoding.Encoder.WriteColoredValue | encoding.go:275-310 | appends the value's text in its style: errors (detailed text for formatters) in the error style, Stringers by their String, everything else by Value.String |
| Encoding.Encoder.WriteTimestamp | encoding.go:102-138 | appends TimestampText: nothing for the zero time; the hook's answer as a time, elided, or written as a value; one space after |
| Encoding.Encoder.WriteLevel | encoding.go:312-369 | appends LevelText: the level name in its style, or the hook's answer (a Level renames it, nil elides it, anything else is written as a value); one space after |
| Encoding.Encoder.WriteSource | encoding.go:140-199 | appends SourceText: file relative to cwd, ':' and line, then " > "; elided without location; the hook may elide, relocate or replace it |
| Encoding.Encoder.WriteMessage | encoding.go:201-221 | appends MessageText: the message in the message style, the debug message style below Info; the hook may elide or replace it |
| Encoding.Encoder.WriteAttr | encoding.go:223-273 | appends AttrText for the attribute and leaves the hook's group names as they were |
| Encoding.Encoder.WriteGroup | encoding.go:246-260 | pushes the group key for the hook, appends the children under the dotted prefix, pops the key |
| Encoding.Encoder.WriteAttrs | encoding.go:254-256 | appends the children one after the other; group names unchanged |
| Encoding.Encoder.WriteHeaders | handler.go:181-184 | appends HeadersText: each non-empty slot's value and a space |
| Encoding.Encoder.WriteHeaderSeparator | handler.go:186-189 | appends the styled separator |
| Encoding.Buffer.Truncate | handler.go:175-176 | cuts the buffer back to its first n bytes |
| EncodingProperties.LevelLabelParses | encoding.go:338-366 | every level name reads back to its level (anchor plus the signed offset) |
| EncodingProperties.LevelLabelInjective | encoding.go:338-366 | distinct levels get distinct names |
| EncodingProperties.LevelLabelAnchor | encoding.go:338-359 | the name starts with its anchor; it is three letters exactly at the four anchors; below Debug the offset is negative |
| EncodingProperties.LevelLabelTable | handler_test.go:234-245 | DBG-1, DBG, DBG+1, INF, INF+1, WRN, WRN+1, ERR, ERR+1 for the neighbours of the anchors |
| EncodingProperties.LevelTextShape | encoding.go:316-368 | the level field ends with one space, and is empty exactly when a hook answers nil |
| EncodingProperties.LevelTextRenamed | encoding.go:323-327 | a hook answering another Level makes the field that level's own field |
| EncodingProperties.WithColorFrames | encoding.go:50-58 | without style or colour the text is bare; otherwise it is style, text, reset token |
| EncodingProperties.ColoredValueStyle | encoding.go:289-303 | errors are written in the error style whatever style was asked for, with their message unless they format themselves |
| EncodingProperties.TimestampTextShape | encoding.go:102-137 | the zero time, and a hook answer of the zero time or nil, are elided; a written field ends with a space; without a hook a non-zero time is written |
| EncodingProperties.SourceTextShape | encoding.go:140-199 | without a hook and call site there is no source field; a hook answering nil or a nil source elides it; without colour or hook it is the file (relative to cwd when it can be), ':', the line and " > "; every source field ends with the styled " > " |
| EncodingProperties.MessageTextShape | encoding.go:201-221 | without a hook the message is written as is in the style for its level; a hook answering nil elides it |
| EncodingProperties.PlainLeaf | encoding.go:262-272 | a leaf without colour or hook is " ", the prefix and '.' exactly when the prefix is non-empty, key, '=', value |
| EncodingProperties.EmptyElided | encoding.go:224-240 | the empty Attr writes nothing, and nor does an attribute the hook turns into it |
| EncodingProperties.ResolvedEmptyWritten | encoding.go:225-228 | without a hook an attribute that resolves to the empty Attr is still written |
| EncodingProperties.AttrsTextAppend | encoding.go:254-256 | a list of attributes renders as its parts one after the other |
| EncodingProperties.AllElidedRendersNothing | encoding.go:254-256 | a list whose attributes each write nothing writes nothing |
| EncodingProperties.EmptyGroupElided | encoding.go:246-260 | a group none of whose children writes anything (under the group's prefix and hook names) writes nothing, not even its key |
| EncodingProperties.AllEmptyElided | encoding.go:224-228 | a list of empty Attrs writes nothing, whatever the hook |
| EncodingProperties.NestedEmptyGroupsElided | encoding.go:246-260 | a group holding only an empty group and an empty Attr writes nothing (handler_test.go:123-137) |
| EncodingProperties.FlattenAttr | encoding.go:223-273 | an attribute's leaves are its non-group values, resolved, under keys dotted through every enclosing group; the empty Attr has none |
| EncodingProperties.LeavesTextAppend | encoding.go:254-256 | the text of two runs of leaves is their texts one after the other |
| EncodingProperties.AttrFlattens | encoding.go:223-273 | without colour and without a hook, an attribute writes exactly " key=value" for each of its leaves, in order: groups add no text of their own |
| EncodingProperties.AttrsFlatten | encoding.go:254-256 | without colour and without a hook, a list writes exactly its leaves, in order |
| EncodingProperties.SubgroupLeaves | encoding.go:246-260 | a group with a subgroup gives the keys group.foo and group.subgroup.foo (handler_test.go:101-119) |
| EncodingProperties.InlineGroup | encoding.go:247-256 | without a hook, at the top level an empty-key group renders as its children in its place (handler_test.go:144-155) |
| EncodingProperties.NestedEmptyKeyGroup | encoding.go:247-250 | under a prefix g an empty-key group gives its children the prefix "g." |
| EncodingProperties.HookSeesLeaves | encoding.go:230-259 | the output depends on the hook only through calls with resolved non-group attributes and group names extending the encoder's |
| Handlers.NewHandler | handler.go:64-84 | the defaults: Info when no level is given, DateTime when the time format is empty, the default theme when none is given; every other option passed through; no prefix, no names, no context, one empty slot per header key |
| Handlers.Enabled | handler.go:87-89 | with the default minimum a record is logged exactly when its level is not named DBG |
| Handlers.IndexOf | handler.go:113 | the index is -1 or the position of the key |
| Handlers.IndexOfFinds | handler.go:113 | a key is found exactly when it is configured, at its first position |
| Handlers.IndexByte | handler.go:129 | the index is -1 or a position of the byte |
| Handlers.IndexByteFinds | handler.go:129 | the byte is found exactly when it occurs, at its first occurrence |
| Handlers.ExtractSlots | handler.go:110-121 | the slots keep their number |
| Handlers.Handle | handler.go:92-211 | the bytes written are Render: header, middle, trailer |
| Handlers.WriteHeadFields | handler.go:98-104 | the header starts with timestamp and level, then the source when added; headerLen is where the source starts |
| Handlers.WriteEventAttrs | handler.go:110-179 | header-keyed attributes fill a copy of the slots; the others are appended to the middle, or the trailer when they span lines |
| Handlers.EventAttr | handler.go:112-178 | one attribute moves the slots, middle and trailer one step as ExtractSlots and Carved say |
| Handlers.WriteEventAttr | handler.go:123-177 | the attribute's span goes to the middle, or when it holds a line break to the trailer with the middle cut back to where it was |
| Handlers.FinishHeader | handler.go:181-189 | appends the slots when headers are configured, then the separator exactly when the header grew past timestamp and level |
| Handlers.ExtractHeaders | handler.go:252-269 | returns the slots ExtractSlots gives and blanks exactly the header-keyed attributes in place |
| Handlers.WithAttrs | handler.go:214-230 | the child keeps options, prefix and groups; its slots hold the header-keyed attributes; its context is the parent's followed by the blanked attributes' text |
| Handlers.TrimSpace | handler.go:234 | the trimmed string neither starts nor ends with white space, is empty exactly for all-space input, and is the input between them |
| Handlers.WithGroup | handler.go:233-247 | the child shares options, context and slots |
| HandlerProperties.ExtractSlotsKeeps | handler.go:252-267 | a slot no attribute is keyed to keeps its value |
| HandlerProperties.ExtractSlotsLastWins | handler.go:255-264 | the last attribute with a header key is the one its slot holds |
| HandlerProperties.ExtractSlotsCompose | handler.go:215 | slots filled by WithAttrs and then by Handle are those Handle fills from both lists (handler_test.go:672-684) |
| HandlerProperties.InheritedSlots | handler.go:110-121 | a record without header-keyed attributes shows the handler's own slots; a per-event value is not kept (handler_test.go:683-684) |
| HandlerProperties.EnabledLevels | handler.go:64-89 | without a level only Info and above are logged, with one exactly that level and above; logging a level means logging every higher one; WithGroup keeps the level |
| HandlerProperties.BlankAt | handler.go:256-265 | an attribute is blanked exactly when its key is a header key |
| HandlerProperties.BlankRendersNonHeader | handler.go:214-220 | the WithAttrs context renders exactly the attributes without a header key, in order |
| HandlerProperties.MiddleSingleLine | handler.go:126-177 | the middle holds no line break from the attributes |
| HandlerProperties.CarvedZone | handler.go:123-177 | the middle is the concatenation of the spans without a header key and without a line break; the trailer of those with one |
| HandlerProperties.ZoneAscending | handler.go:112 | each zone lists its attributes in their order in the record |
| HandlerProperties.ZonesCount | handler.go:123-177 | each attribute without a header key is in exactly one zone; no header-keyed attribute is in either |
| HandlerProperties.CarvedPartition | handler.go:123-177 | middle and trailer partition the spans without a header key by line break, each exactly once, each zone in record order |
| HandlerProperties.CarvedNoBreaks | handler.go:123-177 | with no multi-line span the trailer is empty and the middle has every non-header span in order |
| HandlerProperties.HeadersTextEmpty | handler.go:181-184 | the slots show nothing exactly when every slot is empty |
| HandlerProperties.TerminateJoins | handler.go:191-197 | wherever the line break goes, it ends the three sections |
| HandlerProperties.RenderLayout | handler.go:191-207 | a record is header, message, context, single-line attributes, multi-line attributes, one '\n'; the break ends the middle exactly when the trailer is empty |
| HandlerProperties.HeaderLayout | handler.go:98-104 | the separator follows exactly when there is a source field or a non-empty slot (handler_test.go:586) |
| HandlerProperties.SourceMarkerTwice | encoding.go:198 | with a source field and no slots, the " > " of the source is followed by the separator |
| HandlerProperties.RenderOneLine | handler.go:191-194 | with no multi-line attribute the trailer is empty and the middle holds all non-header attributes |
| HandlerProperties.WithGroupKeepsPrefix | handler.go:233-247 | the prefix stays the one the group names build, and the name is trimmed |
| HandlerProperties.PrefixIsJoin | handler.go:235-238 | with no blank group name the prefix is the names joined with '.' (handler_test.go:218-226) |
| HandlerProperties.BlankGroupName | handler.go:235-238 | a blank first name adds nothing; a blank later name adds an empty segment |
| HandlerProperties.TrimSpaceIdempotent | handler.go:234 | trimming twice is trimming once |
| HandlerProperties.TrimSpaceKeeps | handler.go:234 | a name without surrounding white space is kept as it is |
| HandlerProperties.SiblingGroupsKept | handler.go:233-247 | two children of one handler each see the parent's names followed by their own |
| GroupSlices.NewCap | handler.go:244 | a full slice grows to a larger capacity |
| GroupSlices.Append | handler.go:244 | append writes into the shared backing array when it has room, and the result shares it; otherwise it copies into a fresh, larger array |
| GroupSlices.SiblingGroups | handler.go:244 | after a, b, c, two sibling WithGroup calls x and y leave the x child's names as a, b, c, y |

## Left out

- The encoder pool (`encoding.go:12-44`): every `Handle` and `WithAttrs` uses a fresh encoder. The model assumes that a pooled encoder's `headers`, `headerBuf`, `middleBuf` and `trailerBuf` start empty. `free` (`encoding.go:36-44`) resets only `buf` and `groups`, so this assumption rests on code defined outside `encoding.go` and `handler.go`.
- The sink write and its errors (`handler.go:199-207`): `Handle` returns the bytes it would write, header, middle and trailer in that order. The model does not capture that a failed write skips the later sections.
- Frame lookup, `filepath.Rel` and `os.Getwd` (`encoding.go:144-148`, `188-192`, `handler.go:14`) are functions and values of `Env`.
- Float, time-layout and duration formatting, `%+v` of formatting errors and `%v` of other values are functions of `Formats`. Only the level offset's `%+d` is modelled.
- The theme's colour values and `ResetMod` are inputs, and so is the default theme.
- `Handlers.WithAttrs`: contexts and header slots are values. `Clip` (`handler.go:221`) keeps a child's context from sharing spare capacity with its own children, so values capture it.
- `Handlers.WithGroup`: the group names are a value, so sibling children do not overwrite each other's last name as `append(h.groups, name)` (`handler.go:244`) can. `GroupSlices` models the shared array and the Findings table shows the effect.
- `GroupSlices.NewCap`: the rounding of a new capacity to the allocator's size classes is not modelled. For the power-of-two capacities that a chain of `WithGroup` calls reaches from a new handler, it changes nothing below 256 names.
- The hook's own side effects, such as a hook that mutates the `*slog.Source` it is passed, are not modelled. Only its answer is used.
- `Encoding.AttrText`: a hook that turns a leaf into a group can make rendering recurse without bound. The model follows at most `HookGroupDepth` (16) such groups along one path and writes nothing for a deeper one.
- `Slog.Resolve`: slog stops after 100 `LogValue` steps and turns a panicking `LogValue` into an error value. The model follows `LogValuer`s to the end and has no panics.
- `Handlers.NewHandler`: a nil `*HandlerOptions` is not modelled; the options are a value. `NewHandler` also writes its defaults into the caller's struct, which the model does not capture.
- `HandlerOptions.Level` is a `slog.Leveler` read on every call. The model reads it once as a fixed int, so a `LevelVar` changed later is not captured.
- Text is a sequence of characters, not of bytes: a multi-byte character counts as one position.
- `writeHeaders`, `writeHeaderSeparator` and `buffer.copy` are defined outside `encoding.go` and `handler.go`. Their behaviour, described above, is inferred from the expected outputs.

## Findings

| source | as written | input that shows it | evidently intended | confidence | as-written member | corrected member |
|---|---|---|---|---|---|---|
| handler.go:244 | `WithGroup` extends the names with `append(h.groups, name)`, which writes into the parent's backing array when it has spare capacity | `h := NewHandler(...).WithGroup("a").WithGroup("b").WithGroup("c")` (3 names, capacity 4), then `x := h.WithGroup("x")` and `h.WithGroup("y")`: the hook called for `x` (`encoding.go:31`, `235`) sees the names a, b, c, y | each child sees its parent's names followed by its own | high; not executed | GroupSlices.SiblingGroups | HandlerProperties.SiblingGroupsKept |
