# RemoteLegends code generators, modelled in Dafny

RemoteLegends exposes Dwarf Fortress "legends" data, read through DFHack,
over protobuf RPC. Its generator (protogen) walks the attributed XML tree
that describes DFHack's C++ structures (df-structures) and writes two kinds
of text for each exported type: a Protocol Buffers schema (`message`,
`enum`, `oneof`) and a C++ `describe_*` function that copies a DFHack object
into the generated protobuf message. Beside the renderers sit a merge of two
XML trees (a base tree and an overlay that adds or overrides attributes, or
an "export list" read from a text file) and, in the plugin itself, the
range check of every list RPC.

The renderer exists in three generations, modelled side by side and never
reconciled:

| module | file | what it is |
|---|---|---|
| `LegacyAbstract` | legacy_abstract.dfy | the legacy `AbstractRenderer`: name resolver with its anonymous-name cache and rename rules, rule lists, indentation, comments, the export/ignore filter and the meta-kind dispatch |
| `LegacyProto` | legacy_proto.dfy | the legacy `ProtoRenderer` |
| `LegacyCpp` | legacy_cpp.dfy | the legacy `CppRenderer` |
| `RootAbstract` | root_abstract.dfy | the older standalone `AbstractRenderer` (ordinal-based anonymous names) |
| `RootProto` | root_proto.dfy | the older `ProtoRenderer` |
| `RootCpp` | root_cpp.dfy | the older `CppRenderer` |
| `Renderer` | renderer.dfy | the first prototype, `renderer.py` |
| `Merge`, `Attributes` | merge.dfy, attributes.dfy | `cmp_nodes`/`parse_node` of both merge.py files, and the export-list reader of protogen/merge.py |
| `RemoteLegends` | remote_legends.dfy | `check_list_request` and the list getters built on it |

Shared building blocks: `Base` (Option/Result, Python string helpers such
as `split`, `lower`, `str(int)`/`int(str)`), `Xml` (the element tree),
`TypeTable` (the DFHack-to-protobuf primitive type table, identical in the
legacy and root generations) and `EnumNumbering` (the enum numbering loop,
identical in the legacy and root protobuf renderers).

How the source is represented:

- An element is `Node(id, tag, attrs, children)`. `id` is the element's
  identity, which the anonymous-name cache, the rename rules and the merge
  compare with `is`/`==`. Namespaced keys are written with the prefix
  `ld:` (`ld:meta`, `ld:level`, `ld:typedef-name`, ...).
- Python's `None`, truthiness and exceptions become `Option`, `Truthy` and
  `Err` results. An `Err` carries the exception's class name (`ValueError`,
  `TypeError`, `AttributeError`, `IndexError`, `AssertionError`), except for a bare `raise Exception(...)`, whose
  `Err` carries the message text (`not supported`, `not supported: compound/...`, `no supported: ...`).
- An XPath (or EXSLT regular-expression) rule is known only by what it
  selects: a map from the rule text to the ordered identities of the
  elements it matches in the document.
- A renderer's fields (anonymous cache, `imports`, `dfproto_imports`, last
  enum, context counters) are an explicit state threaded through pure
  specification functions; each renderer is also a `class` whose methods
  update those fields in place and carry the source's loops, each proved
  equal to its specification function.
- Rendered text is compared exactly, whitespace included.

## Model

| member | source | states |
|---|---|---|
| EnumNumbering.NegativesLast | protogen.legacy/proto_renderer.py:95-111 | every item with a negative explicit value is written after all the others, in document order; the rest keep document order |
| EnumNumbering.NoExplicitValues | protogen.legacy/proto_renderer.py:95-107 | with no explicit values, item k is numbered k and no `ZERO` line appears |
| EnumNumbering.ZeroLine | protogen.legacy/proto_renderer.py:102-105 | the `<prefix>ZERO = 0` line appears exactly when the first non-negative item carries an explicit value above 0, and it is then the first line of the body |
| EnumNumbering.NumbersIncrease | protogen.legacy/proto_renderer.py:101-107 | the non-negative items get non-negative, strictly increasing numbers, each at least its own explicit value (a value at or below the counter is overridden by the counter) |
| EnumNumbering.EnumValues | protogen.legacy/proto_renderer.py:97-99 | every item's `int(itemv)`, `None` for an absent or empty value; the whole enum fails with `ValueError` as soon as one value does not parse |
| EnumNumbering.EnumValuesFail | protogen.legacy/proto_renderer.py:98-99 | one unparsable `value` makes the enum raise `ValueError` |
| EnumNumbering.EnumValuesNone | protogen.legacy/proto_renderer.py:98-99 | items without values parse to `None` everywhere |
| EnumNumbering.EnumValuesOk | protogen.legacy/proto_renderer.py:98-99 | when every item's value parses, the enum's values parse |
| EnumNumbering.LenientIsValues | protogen.legacy/proto_renderer.py:98-99 | when every value parses, the parsed values are each item's own value, position by position |
| EnumNumbering.AppendLines | proto_renderer.py:121-122 | the deferred lines of the negative items are appended, each after the indentation, in the order they were deferred |
| EnumNumbering.ScanSplits | protogen.legacy/proto_renderer.py:97-108 | the numbering loop, from any point, yields the main lines so far, then the numbered non-negative items still to come, then the deferred lines, then the negative items still to come |
| EnumNumbering.FirstPrimary | protogen.legacy/proto_renderer.py:99-101 | the first item at or after `i` without a negative value: every item before it is negative |
| EnumNumbering.NoValuesCountUp | protogen.legacy/proto_renderer.py:97-107 | without explicit values the remaining items are numbered consecutively from the counter and none is deferred |
| EnumNumbering.PrimaryZero | protogen.legacy/proto_renderer.py:102-105 | from a zero counter, the ZERO line is produced exactly when the first non-negative item jumps the counter, and then it comes first |
| EnumNumbering.NegativesHaveNoZero | protogen.legacy/proto_renderer.py:99-100 | deferred negative items never produce a ZERO line |
| EnumNumbering.PrimaryIncreasing | protogen.legacy/proto_renderer.py:101-107 | the numbers given to non-negative items strictly increase from the counter |
| EnumNumbering.PrimaryRespectsExplicit | protogen.legacy/proto_renderer.py:102-106 | each numbered item is a non-negative item of the enum, and its number is at least its explicit value |
| Xml.Findall | protogen.legacy/abstract_renderer.py:148 | `findall(tag)` returns only children with that tag; `Xml.FindallInOrder` adds that it returns all of them, in document order |
| Xml.FindallInOrder | protogen.legacy/abstract_renderer.py:148 | `findall(tag)` is exactly the children carrying the tag, in document order: result j is the child at the j-th of strictly increasing positions, and a position is among them exactly when its child carries the tag |
| Xml.Find | protogen.legacy/abstract_renderer.py:151 | `find(tag)` returns a child with that tag, when it returns one |
| Xml.FindNone | protogen.legacy/abstract_renderer.py:151-152 | `find(tag)` returns `None` exactly when no child carries the tag |
| Xml.FindFirst | protogen.legacy/abstract_renderer.py:151 | what `find(tag)` returns is the first child carrying the tag: no child before it carries it |
| Xml.Iter | protogen.legacy/abstract_renderer.py:218 | `iter()` has one entry per element of the subtree, the element itself first |
| Xml.IterPreorder | protogen.legacy/abstract_renderer.py:218 | `iter()` is the pre-order walk: after the element, each child's own walk, the children in document order, each walk at the offset of the sizes of the children before it |
| Xml.MarkExported | protogen.legacy/abstract_renderer.py:218-219 | marking keeps the element's identity, tag and other attributes, sets `export="true"`, and marks every child |
| Xml.MarkExportedSize | protogen.legacy/abstract_renderer.py:218-219 | marking keeps the size of the tree |
| Xml.MarkedEverywhere | protogen.legacy/abstract_renderer.py:218-219 | after marking, every element of the tree, the element and all its descendants, says `export="true"` |
| Base.ParseShowRoundTrip | protogen.legacy/proto_renderer.py:85 | `int(str(i)) == i`: a number written into a line reads back as itself |
| Base.SplitTokens | protogen/merge.py:36 | every token of `line.split()` is non-empty and holds no whitespace (Python's `str.isspace` characters, the ASCII separators `\x1c`-`\x1f` and the Unicode spaces included) |
| Base.SplitKeepsText | protogen/merge.py:36 | `split()` drops only whitespace: its tokens joined back together are the line with every whitespace character removed |
| Base.ParseIntStrips | protogen.legacy/proto_renderer.py:98 | `int()` ignores whitespace around the digits: `" 3"` reads 3 and `"-7\n"` reads -7 |
| Base.ParseIntSeparators | protogen.legacy/proto_renderer.py:98 | `int()` skips a single underscore between digits: `"1_0"` reads 10 |
| Base.ParseIntRefuses | protogen.legacy/proto_renderer.py:98 | `int()` raises `ValueError` on the empty string, a leading or doubled underscore and a sign parted from its digits |
| Base.Indent | protogen.legacy/abstract_renderer.py:86-88 | two spaces per level, nothing for a level at or below 0 |
| LegacyAbstract.LowerHasNoUpper | protogen.legacy/abstract_renderer.py:107-109 | a lowercased name has no upper-case letter |
| LegacyProto.ItemNames | protogen.legacy/proto_renderer.py:97-100 | one resolved name per enum item |
| LegacyProto.ItemNamesStep | protogen.legacy/proto_renderer.py:84 | item i's name is resolved with the cache left by the items before it, in document order |
| LegacyProto.EnumLoopLayout | protogen.legacy/proto_renderer.py:97-108 | the item loop succeeds exactly when every value parses, and then its lines and deferred lines are the specification layout, each item under its resolved name |
| TypeTable.Convert | protogen.legacy/abstract_renderer.py:41-68 | `convert_type` yields a value exactly for the 17 names `is_primitive_type` accepts, and every value is a protobuf scalar type |
| LegacyAbstract.ResolveName | protogen.legacy/abstract_renderer.py:90-110 | `get_name` always yields a non-empty protobuf name and a non-empty DFHack name |
| LegacyAbstract.RenameNoMatch | protogen.legacy/abstract_renderer.py:93-97 | a rename rule that does not select the element as its first match leaves the protobuf name alone |
| LegacyAbstract.RenameLastMatch | protogen.legacy/abstract_renderer.py:93-97 | every matching rule overwrites the protobuf name, so the last matching rule decides it |
| LegacyAbstract.RenameLastWins | protogen.legacy/abstract_renderer.py:93-109 | the last matching rename rule gives the protobuf name, lowercased unless the element is an `enum-item` |
| LegacyAbstract.RenameNone | protogen.legacy/abstract_renderer.py:105-109 | without a matching rule the protobuf name is the DFHack name, lowercased unless the element is an `enum-item` |
| LegacyAbstract.DfName | protogen.legacy/abstract_renderer.py:91-104 | the DFHack name is `name`, else `ld:anon-name`, else `anon_<counter>`; rename rules change neither it nor the cache |
| LegacyAbstract.AnonCounter | protogen.legacy/abstract_renderer.py:100-104 | the counter goes up by one exactly when an unnamed element is not the cached one, and that element becomes the cached one; named elements leave the cache alone |
| LegacyAbstract.OneElementCache | protogen.legacy/abstract_renderer.py:100-104 | only the last unnamed element is remembered: resolving unnamed A, A, B, A gives `anon_1`, `anon_1`, `anon_2`, `anon_3` |
| LegacyAbstract.PbLowercase | protogen.legacy/abstract_renderer.py:107-109 | protobuf names hold no upper-case letter except on enum items, whose name without a rename is the DFHack name itself |
| LegacyAbstract.TypedefNameChoice | protogen.legacy/abstract_renderer.py:112-124 | `get_typedef_name` is `ld:typedef-name`, else `type-name`, else `T_<name>`, and does not touch the cache when a name is given |
| LegacyAbstract.Ident | protogen.legacy/abstract_renderer.py:86-88 | an element without `ld:level` is indented by two spaces per level, at level 1 plus the extra levels |
| LegacyAbstract.AppendCommentShape | protogen.legacy/abstract_renderer.py:126-132 | `append_comment` keeps the line as its prefix, always ends with a newline, and adds something beyond `line + " "` exactly when the element has a comment |
| LegacyAbstract.IndexRule | protogen.legacy/proto_renderer.py:217-220 | an index rule applies exactly when some rule names the pointee type, and then it is the first such rule's field |
| LegacyAbstract.IgnoredByRuleExists | protogen.legacy/abstract_renderer.py:202-209 | the ignore loop drops the field exactly when some ignore rule's matches contain it |
| LegacyAbstract.DecisionOrder | protogen.legacy/abstract_renderer.py:188-209 | `export-as` bypasses every check; otherwise the field is dropped exactly when it lacks `export` while `ignore_no_export` is set, is named `unk_...`, says `export="false"`, or an ignore rule selects it |
| LegacyAbstract.IgnoredText | protogen.legacy/abstract_renderer.py:210-215 | a dropped field renders as nothing unless `comment_ignored` is set, and then as one `/* ignored field <name or anon> */` line |
| LegacyAbstract.KindOfMarked | protogen.legacy/abstract_renderer.py:217-232 | marking the subtree `export="true"` does not change the meta kind the field is dispatched on |
| LegacyAbstract.VMethods | protogen.legacy/abstract_renderer.py:151-153 | the methods rendered are `vmethod` elements; there are none when the element has no `virtual-methods` child |
| LegacyAbstract.VMethodsOfFirstBlock | protogen.legacy/abstract_renderer.py:151-153 | only the first `virtual-methods` child is looked at: the methods are exactly its `vmethod` children, all of them and only them, in document order |
| LegacyAbstract.AbstractRenderer.constructor | protogen.legacy/abstract_renderer.py:6-23 | a new renderer has empty rule lists, `ignore_no_export` on, `comment_ignored` off and an empty anonymous cache |
| LegacyAbstract.AbstractRenderer.SetIgnoreNoExport | protogen.legacy/abstract_renderer.py:25-27 | only the `ignore_no_export` switch changes |
| LegacyAbstract.AbstractRenderer.SetCommentIgnored | protogen.legacy/abstract_renderer.py:29-31 | only the `comment_ignored` switch changes |
| LegacyAbstract.AbstractRenderer.AddExceptionRename | protogen.legacy/abstract_renderer.py:70-72 | the rename rule is appended last; nothing else changes |
| LegacyAbstract.AbstractRenderer.AddExceptionIgnore | protogen.legacy/abstract_renderer.py:74-76 | the ignore rule is appended last; nothing else changes |
| LegacyAbstract.AbstractRenderer.AddExceptionIndex | protogen.legacy/abstract_renderer.py:78-80 | the index rule is appended last; nothing else changes |
| LegacyAbstract.AbstractRenderer.AddExceptionEnum | protogen.legacy/abstract_renderer.py:82-84 | the enum rule is appended last; nothing else changes |
| LegacyAbstract.AbstractRenderer.GetName | protogen.legacy/abstract_renderer.py:90-110 | the rename loop and the name fallbacks return `ResolveName`'s two names and leave the cache as it says; the rules are untouched |
| LegacyProto.ContextDefaults | protogen.legacy/proto_renderer.py:10-14 | a `Context` turns a falsy ordinal into 1, defaults the keyword to `required` (an explicit empty keyword stays empty) and the indent offset to 0 |
| LegacyProto.PbName | protogen.legacy/proto_renderer.py:62-64 | `ProtoRenderer.get_name` gives a non-empty protobuf name and never touches the imports |
| LegacyProto.EnsureName | protogen.legacy/proto_renderer.py:75-76 | `if not ctx.name: ctx.name = get_name(xml)`: afterwards the context has a name and nothing else of it changed; an existing name is kept without resolving anything |
| LegacyProto.RenderLine | protogen.legacy/proto_renderer.py:69-78 | `_render_line` succeeds exactly when the element's level parses, clears `required`/`optional` in version 3, leaves the context named and the imports alone |
| LegacyProto.LineKeywordAndName | protogen.legacy/proto_renderer.py:69-78 | the line starts with the indentation and the keyword (empty for `required`/`optional` in version 3), and its name is the context's name or else the element's protobuf name |
| LegacyProto.EnumDefaultNumbering | protogen.legacy/proto_renderer.py:88-111 | an enum whose items carry no values renders as the header, item k as `<prefix><name> = k;` in document order, and the closing brace |
| LegacyProto.LocalEnumField | protogen.legacy/proto_renderer.py:113-125 | an enum field without `type-name` first renders its own enum type, named by `get_typedef_name` and prefixed with that name |
| LegacyProto.MaskLoopLines | protogen.legacy/proto_renderer.py:134-140 | the mask loop only appends to the text it was given, and writes field i's line as `<name> = 0x<i in hex>;` |
| LegacyProto.MaskNumbering | protogen.legacy/proto_renderer.py:134-140 | the i-th bitfield flag is numbered `0x<i>`, its position, whatever attributes it carries |
| LegacyProto.EmptyBitfield | protogen.legacy/proto_renderer.py:130-154 | a bitfield without flags renders as a message with an empty line for the masks and the single `required fixed32 flags = 1;` field |
| LegacyProto.ConvertTname | protogen.legacy/proto_renderer.py:168-175 | a primitive type converts through the type table, any other named type is imported and kept, and a missing type becomes `bytes` |
| LegacyProto.MethodOrdinals | protogen.legacy/abstract_renderer.py:151-170 | each getter method takes the next ordinal, so the loop advances the ordinal by at most the number of methods; methods without `ret-type` render nothing and leave it alone |
| LegacyProto.UnknownTypeRaises | protogen.legacy/abstract_renderer.py:175-185 | a type whose `ld:meta` is none of bitfield-, enum-, class- or struct-type raises |
| LegacyProto.UnknownFieldRaises | protogen.legacy/abstract_renderer.py:220-233 | a kept field of an unknown meta kind raises |
| LegacyProto.ImplKept | protogen.legacy/abstract_renderer.py:216-233 | a kept field is dispatched on its meta kind after its whole subtree is marked `export="true"` |
| LegacyProto.DispatchUnknown | protogen.legacy/abstract_renderer.py:231-233 | the dispatch of an unknown meta kind raises "not supported" |
| LegacyProto.FieldRaises | protogen.legacy/proto_renderer.py:357-364 | `render_field` propagates every exception of `render_field_impl` |
| LegacyProto.IgnoredField | protogen.legacy/abstract_renderer.py:210-215 | an ignored field changes neither state nor context and renders as nothing, or as one indented `/* ignored field ... */` line when `comment_ignored` is set |
| LegacyProto.PointerLines | protogen.legacy/proto_renderer.py:201-220 | a pointer to a primitive or index-ruled type turns `required` into `optional`, drops one indent level, and for an index rule is named `<name>_<field>` |
| LegacyProto.PointerUnknown | protogen.legacy/proto_renderer.py:207-212 | a pointer with neither `type-name` nor children renders as `/* ignored pointer to unknown type */` |
| LegacyProto.ContainerComments | protogen.legacy/proto_renderer.py:223-268 | a `df-linked-list` renders as a global field; a container of containers and a container of unknown type render as their "ignored" comments |
| LegacyProto.UnionLoopKeepsPrefix | protogen.legacy/proto_renderer.py:336-345 | the union loop only appends to the predeclarations and the fields gathered so far |
| LegacyProto.ProtoRenderer.constructor | protogen.legacy/proto_renderer.py:39-46 | a new renderer has the abstract renderer's defaults, protobuf version 2, the given package and no imports |
| LegacyProto.ProtoRenderer.SetVersion | protogen.legacy/proto_renderer.py:58-60 | only the version changes |
| LegacyProto.ProtoRenderer.GetName | protogen.legacy/proto_renderer.py:62-64 | returns `PbName`'s name and leaves the cache as it says |
| LegacyProto.ProtoRenderer.RenderEnumItems | protogen.legacy/proto_renderer.py:95-107 | the item loop succeeds exactly when the specification loop does and returns the same body, deferred lines and cache |
| LegacyProto.ProtoRenderer.RenderNegativeItem | protogen.legacy/proto_renderer.py:99-100 | a negative item only adds its line to the deferred lines |
| LegacyProto.ProtoRenderer.RenderItem | protogen.legacy/proto_renderer.py:101-107 | a non-negative item writes the `ZERO` line when the counter first jumps, then its own line, and moves the counter past its number |
| LegacyProto.ProtoRenderer.RenderTypeEnum | protogen.legacy/proto_renderer.py:88-111 | `render_type_enum` equals the specification `TypeEnum`, error for error, text and state |
| LegacyProto.ProtoRenderer.RenderMasks | protogen.legacy/proto_renderer.py:130-142 | `_render_masks` equals the specification `Masks` |
| LegacyProto.ProtoRenderer.RenderTypeBitfield | protogen.legacy/proto_renderer.py:144-154 | `render_type_bitfield` equals the specification `TypeBitfield` |
| LegacyProto.ProtoRenderer.RenderField | protogen.legacy/proto_renderer.py:357-364 | `render_field` equals the specification `Field`, and the renderer's state is the one it returns |
| LegacyProto.ProtoRenderer.RenderStructFields | protogen.legacy/proto_renderer.py:287-293 | the field loop equals the specification loop and advances the ordinal by one per field and by the number of arms per union |
| LegacyProto.ProtoRenderer.RenderMethods | protogen.legacy/abstract_renderer.py:151-155 | the method loop equals the specification loop |
| LegacyProto.ProtoRenderer.RenderTypeStruct | protogen.legacy/abstract_renderer.py:137-157 | `render_type_struct` equals the specification `TypeStruct` |
| LegacyProto.ProtoRenderer.RenderType | protogen.legacy/proto_renderer.py:366-373 | `render_type` equals the specification `TypeDecl`, error for error, text and state |
| LegacyCpp.OuterJoinPush | protogen.legacy/cpp_renderer.py:44-49 | the outer-type join behaves as `str.join`: pushing a name onto a non-empty stack appends the separator and the name; onto an empty stack gives the name alone |
| LegacyCpp.OuterJoinOk | protogen.legacy/cpp_renderer.py:44-49 | the join of the outer-type stack succeeds exactly when no entry is `None` (a missing `type-name` raises `TypeError`); the empty stack joins to `""` |
| LegacyCpp.ConvertSimpleShape | protogen.legacy/cpp_renderer.py:162-175 | `add_` for an array element, `set_` otherwise; dereferencing inserts exactly one `*` and wraps the same statement in a NULL test of the same element |
| LegacyCpp.PrototypeMatchesHeader | protogen.legacy/cpp_renderer.py:460-464 | the prototype declares exactly the function the struct header defines: the header is the prototype qualified by the C++ namespace, with ` {` for `;` |
| LegacyCpp.GetNames | protogen.legacy/abstract_renderer.py:90-110 | both resolved names are non-empty, and only the anonymous-name cache changes |
| LegacyCpp.EnsureNames | protogen.legacy/cpp_renderer.py:214-215 | afterwards the context has names; names already present are kept and nothing changes; otherwise only the names and the cache change |
| LegacyCpp.FieldEnum | protogen.legacy/cpp_renderer.py:90-98 | a rendered enum field is recorded as the last enum (the next union's discriminant), the outer stack is unchanged and the import sets only grow |
| LegacyCpp.AnonScope | protogen.legacy/cpp_renderer.py:368-373 | the caller's state changes only in its anonymous cache; the nested renderer is a fresh copy whose stack is the caller's with the typedef name pushed |
| LegacyCpp.AnonEnum | protogen.legacy/cpp_renderer.py:100-112 | rendering the enum lambda changes only the caller's anonymous cache |
| LegacyCpp.AnonBitfield | protogen.legacy/cpp_renderer.py:136-148 | rendering the bitfield lambda changes only the caller's anonymous cache |
| LegacyCpp.AnonScopeTypes | protogen.legacy/cpp_renderer.py:104-109 | a nested lambda is typed by the enclosing types joined with the new typedef name: `<outer>_T` for protobuf and `<outer>::T` for DFHack |
| LegacyCpp.LastIndexRuleSpec | protogen.legacy/cpp_renderer.py:262-267 | a container's index rule is found exactly when some rule names the type, and it is the last such rule |
| LegacyCpp.Field | protogen.legacy/abstract_renderer.py:187-233 | rendering a field never changes the outer-type stack and only adds to the import sets |
| LegacyCpp.Dispatch | protogen.legacy/abstract_renderer.py:220-233 | every branch of the meta-kind dispatch keeps the outer-type stack and only adds imports |
| LegacyCpp.FieldConversion | protogen.legacy/cpp_renderer.py:438-446 | a conversion field imports `conversion` into the protobuf imports, and only adds imports |
| LegacyCpp.FieldMethod | protogen.legacy/cpp_renderer.py:351-366 | a getter keeps the outer-type stack and only adds imports |
| LegacyCpp.FieldSimple | protogen.legacy/cpp_renderer.py:189-191 | a simple field keeps the outer-type stack and only adds imports |
| LegacyCpp.FieldGlobal | protogen.legacy/cpp_renderer.py:193-208 | a global field keeps the outer-type stack and only adds imports |
| LegacyCpp.Pointer | protogen.legacy/cpp_renderer.py:213-232 | a pointer field keeps the outer-type stack and only adds imports |
| LegacyCpp.Container | protogen.legacy/cpp_renderer.py:234-329 | a container field keeps the outer-type stack and only adds imports |
| LegacyCpp.Element | protogen.legacy/cpp_renderer.py:272-317 | every element branch of a container keeps the outer-type stack and only adds imports |
| LegacyCpp.AnonCompound | protogen.legacy/cpp_renderer.py:368-381 | an anonymous compound's lambda, rendered on a copy, leaves the caller's stack as it was; imports made inside it reach the caller |
| LegacyCpp.AnonFields | protogen.legacy/cpp_renderer.py:378-379 | the lambda's field loop keeps the stack and only adds imports |
| LegacyCpp.Compound | protogen.legacy/cpp_renderer.py:383-413 | a compound field (union, enum, bitfield or struct) keeps the outer-type stack and only adds imports |
| LegacyCpp.Union | protogen.legacy/cpp_renderer.py:418-433 | a union keeps the outer-type stack and only adds imports |
| LegacyCpp.StructSkipsIgnored | protogen.legacy/cpp_renderer.py:344-349 | an ignored field adds no text to the struct; with `comment_ignored` its comment is dropped and it takes an ordinal, without it it renders as nothing and the ordinal stays |
| LegacyCpp.IgnoredIsComment | protogen.legacy/abstract_renderer.py:210-215 | the ignored-field text is a comment when `comment_ignored` is set and the empty string, which is not a comment, otherwise |
| LegacyCpp.PointerPrimitive | protogen.legacy/cpp_renderer.py:217-218 | a pointer to a primitive is one `set_` through the pointer, under a NULL test of it |
| LegacyCpp.PointerIndexed | protogen.legacy/cpp_renderer.py:219-223 | a pointer whose type has an index rule copies the rule's field of the pointee into `<pb>_<field>`, and the type joins the protobuf imports |
| LegacyCpp.PointerUnknown | protogen.legacy/cpp_renderer.py:232 | a pointer with neither a type nor a child renders as the ignored-pointer comment |
| LegacyCpp.ContainerComments | protogen.legacy/cpp_renderer.py:239-246 | a container without a child, a flag array and a bit vector each become one comment naming the field |
| LegacyCpp.BytesComment | protogen.legacy/cpp_renderer.py:255-256 | a container of pointers to `bytes` becomes one comment naming the field |
| LegacyCpp.NestedContainerComment | protogen.legacy/cpp_renderer.py:307-308 | an element that is itself a container or static array is not copied: one comment, no loop |
| LegacyCpp.LoopBound | protogen.legacy/cpp_renderer.py:323-325 | the loop bound is `count` when set, else the container's `size()`, through `->` when the container is behind a pointer |
| LegacyCpp.ContainerOfPrimitivePointers | protogen.legacy/cpp_renderer.py:257-258 | a container of primitive pointers is one loop adding each element through its pointer, under a NULL test |
| LegacyCpp.EnumElements | protogen.legacy/cpp_renderer.py:280-291 | a `_type` or enum-exception element is converted by `describe_<T>` into a `dfproto::<T> value` and added, with the type imported on both sides |
| LegacyCpp.UnionNoDiscriminator | protogen.legacy/cpp_renderer.py:419-421 | with no enum field rendered before, the union is a comment naming its typedef |
| LegacyCpp.UnionSwitch | protogen.legacy/cpp_renderer.py:422-433 | with a recorded enum field, the union is a switch on that field's DFHack name, ending with a `default` that clears the union |
| LegacyCpp.EnumIsDiscriminator | protogen.legacy/cpp_renderer.py:90-98 | an enum field is the discriminant of the next union rendered after it: the switch tests the enum field's DFHack name |
| LegacyCpp.UnknownTypeRaises | protogen.legacy/abstract_renderer.py:175-185 | a type whose meta kind is not bitfield-, enum-, class- or struct-type raises |
| LegacyCpp.UnknownFieldRaises | protogen.legacy/abstract_renderer.py:220-233 | a field with an unknown meta kind that passes the filter raises |
| LegacyCpp.DispatchUnknown | protogen.legacy/abstract_renderer.py:233 | the dispatch of an unknown meta kind raises "not supported" |
| LegacyCpp.NestedKeepsParent | protogen.legacy/cpp_renderer.py:53-59 | `copy()` clones the stack, so pushing onto the copy leaves the parent's stack as it was; the import sets are shared and the last enum is not copied |
| LegacyCpp.IndexRuleFirst | protogen.legacy/cpp_renderer.py:219-223 | a pointer uses the first index rule naming its type |
| LegacyCpp.LastIndexRulePrefix | protogen.legacy/cpp_renderer.py:262-267 | scanning one more rule either replaces the found field (when that rule names the type) or keeps it |
| LegacyCpp.CppRenderer.constructor | protogen.legacy/cpp_renderer.py:31-42 | a new renderer has the default rules, empty import sets, no last enum and an empty outer stack |
| LegacyCpp.CppRenderer.GetName | protogen.legacy/abstract_renderer.py:90-110 | `get_name` returns the specification's names and advances the cache as it does |
| LegacyCpp.CppRenderer.Copy | protogen.legacy/cpp_renderer.py:53-59 | the copy is a new object with the same settings, the same stack and imports, a fresh cache and no last enum |
| LegacyCpp.CppRenderer.RenderField | protogen.legacy/cpp_renderer.py:451-454 | `render_field` returns the text of the specification `Field` and stores its state; an exception leaves the configuration and stack alone |
| LegacyCpp.CppRenderer.PointerIndexRule | protogen.legacy/cpp_renderer.py:219-223 | the pointer's rule loop returns the first rule for the type |
| LegacyCpp.CppRenderer.ContainerIndexRule | protogen.legacy/cpp_renderer.py:262-267 | the container's rule loop returns the last rule for the type |
| LegacyCpp.CppRenderer.OpenScope | protogen.legacy/cpp_renderer.py:368-373 | opening a nested scope returns the typedef name and a new renderer whose state is the specification's nested state |
| LegacyCpp.CppRenderer.RenderAnonCompound | protogen.legacy/cpp_renderer.py:368-381 | the lambda text and state equal the specification `AnonCompound` |
| LegacyCpp.CppRenderer.RenderFields | protogen.legacy/cpp_renderer.py:378-379 | the lambda's field loop equals the specification loop |
| LegacyCpp.CppRenderer.RenderUnion | protogen.legacy/cpp_renderer.py:418-433 | `render_field_union` equals the specification `Union` and never raises |
| LegacyCpp.CppRenderer.RenderArm | protogen.legacy/cpp_renderer.py:425-429 | one `case` of the switch is the first step of the specification's case list |
| LegacyCpp.CppRenderer.RenderStructFields | protogen.legacy/abstract_renderer.py:148-150 | the struct's field loop equals the specification loop, and each field takes at most one ordinal |
| LegacyCpp.CppRenderer.RenderStructField | protogen.legacy/cpp_renderer.py:344-349 | one `_render_struct_field` step is one step of the specification loop and takes at most one ordinal |
| LegacyCpp.CppRenderer.RenderMethods | protogen.legacy/abstract_renderer.py:151-155 | the method loop equals the specification loop, and each method takes at most one ordinal |
| LegacyCpp.CppRenderer.RenderClassMethod | protogen.legacy/abstract_renderer.py:159-170 | one `_render_class_method` step is one step of the specification loop; only a getter takes an ordinal |
| LegacyCpp.CppRenderer.RenderTypeStruct | protogen.legacy/abstract_renderer.py:137-157 | `render_type_struct` equals the specification `TypeStruct`, text and state |
| LegacyCpp.CppRenderer.RenderType | protogen.legacy/cpp_renderer.py:456-458 | the type name is pushed onto the outer stack and stays pushed whatever follows; the result equals the specification `TypeDecl` |
| RootAbstract.NsKey | abstract_renderer.py:8-11 | the namespace key always starts with `{`; a namespace that already does is kept, any other is wrapped in braces |
| RootAbstract.FirstRename | abstract_renderer.py:57-61 | a rename rule found from rule `i` on is a rule of the list, at or after `i`, that selects the element as its first match |
| RootAbstract.FirstRenameIs | abstract_renderer.py:57-61 | the search stops at the first rule that selects the element, whatever the later rules say |
| RootAbstract.FirstRenameNone | abstract_renderer.py:57-61 | when no remaining rule selects the element, none is found |
| RootAbstract.FirstRuleWins | abstract_renderer.py:55-61 | the first selecting rule gives the protobuf name, the raw `name` attribute (possibly absent) is the DFHack name, and the anonymous cache is untouched |
| RootAbstract.NoRuleSameNames | abstract_renderer.py:62-69 | without a rule both names are the same: `name`, else `ld:anon-name`, else `anon_<counter>` |
| RootAbstract.AnonCounter | abstract_renderer.py:64-68 | the counter moves by one exactly when an unnamed, unrenamed element differs from the cached one; asking again for the same element gives the same names and cache |
| RootAbstract.AnonNamesDiffer | abstract_renderer.py:68 | different counter values give different anonymous names |
| RootAbstract.DistinctAnonNames | abstract_renderer.py:62-69 | two different unnamed elements asked for one after the other get different protobuf names |
| RootAbstract.TypedefName | abstract_renderer.py:71-75 | `ld:typedef-name` when set, else `T_` followed by the name |
| RootAbstract.AppendComment | abstract_renderer.py:77-81 | the result starts with the line; it equals the line exactly when there is no comment, and otherwise continues with ` /* <comment> */` |
| RootAbstract.Ident | abstract_renderer.py:51-53 | two spaces per level, one level when `ld:level` is unset; a level that does not parse raises, and only then |
| RootAbstract.OrdinalName | proto_renderer.py:58-64 | the name is never empty and a truthy name is kept as it is |
| RootAbstract.OrdinalInjective | proto_renderer.py:60-63 | the ordinal text (`m<-value>` for a negative ordinal) gives the ordinal back |
| RootAbstract.FirstChars | proto_renderer.py:60-61 | a negative ordinal's text never equals a non-negative one's |
| RootAbstract.OrdinalsDiffer | proto_renderer.py:60-63 | different ordinals never give the same anonymous name |
| RootAbstract.AnonymousName | proto_renderer.py:58-64 | an element with neither `name` nor `ld:anon-name` is `anon_<value>` (`anon_m<-value>` when negative), a different name for every ordinal |
| RootAbstract.AbstractRenderer.constructor | abstract_renderer.py:6-16 | the namespace is normalised, the cache is empty with counter 0, and there are no rename rules |
| RootAbstract.AbstractRenderer.AddExceptionRename | abstract_renderer.py:47-49 | the new rule goes after the existing ones and nothing else changes |
| RootAbstract.AbstractRenderer.GetName | abstract_renderer.py:55-69 | the rule loop, returning at the first selecting rule, gives the names and cache of the specification `ResolveName` |
| RootProto.Name | proto_renderer.py:52-64 | a resolved name is never empty |
| RootProto.RenamedNone | proto_renderer.py:54-57 | when no remaining rule selects the element its name is unchanged |
| RootProto.RenamedLast | proto_renderer.py:54-57 | the rename loop ends with the new name of the last rule that selects the element |
| RootProto.LastRenameWins | proto_renderer.py:52-64 | the last selecting rule names the element, whatever the ordinal |
| RootProto.NameByOrdinal | proto_renderer.py:58-64 | without a rule a named element keeps its name for every ordinal; one with no name and no `ld:anon-name` is `anon_<value>` (`anon_m<-value>` when negative), so two ordinals never give it the same name |
| RootProto.LineShape | proto_renderer.py:82-91 | a rendered line starts with its keyword part and ends with a newline, and without a comment it ends with its last part |
| RootProto.LineFormat | proto_renderer.py:82-91 | a line starts with its label and a space and ends the line; without a comment it ends with `= <value>;` |
| RootProto.Version3Labels | proto_renderer.py:83-84 | in version 3 `required` and `optional` lines are written with an empty label; in version 2 the label is written out |
| RootProto.BodySnoc | proto_renderer.py:110-122 | the enum body of one more slot is the body so far followed by that slot's line |
| RootProto.BodyAppend | proto_renderer.py:110-122 | the enum body distributes over concatenation of its slots |
| RootProto.EnumDefaultNumbering | proto_renderer.py:101-124 | an enum without explicit values numbers item k as k; the prefix defaults to `<tname>_` |
| RootProto.EnumBadValue | proto_renderer.py:111-112 | an item whose value is not an integer makes the whole enum raise |
| RootProto.LocalEnumField | proto_renderer.py:126-131 | a local enum is declared one step further in under its typedef name, items prefixed by the field's name and numbered from 0, followed by the field line of that type |
| RootProto.CommentAfter | proto_renderer.py:76-80 | appending a comment to a longer text appends it after the last part |
| RootProto.MaskNumbering | proto_renderer.py:265-275 | mask k is numbered k in hexadecimal and, unnamed and unrenamed, is called `anon_<k>`; the k-th line follows the first k |
| RootProto.SimpleFieldType | proto_renderer.py:145-153 | a simple field's type is the `type-name` of an enum or bitfield (imported), the scalar of a primitive (nothing imported), any other subtype as is (imported), `bytes` without a subtype |
| RootProto.Global | proto_renderer.py:184-188 | a global field succeeds exactly when it has a `type-name`, which is then imported; otherwise the assertion fails |
| RootProto.SumWidthsSnoc | proto_renderer.py:203-208 | the widths of one more field add that field's width |
| RootProto.UnionArmsFitWidth | proto_renderer.py:203-208 | a union's arms fit in the width the struct loop reserves for it, so the next field's number is never one of the arms' |
| RootProto.UnknownFieldRaises | proto_renderer.py:311 | a field whose meta kind is unknown raises "not supported" |
| RootProto.UnknownTypeRaises | proto_renderer.py:328 | a type whose meta kind is not bitfield-, enum-, class- or struct-type raises "not supported" |
| RootProto.PointerDelegates | proto_renderer.py:159-160 | an untyped pointer with a child renders the child under the pointer's name |
| RootProto.PointerRef | proto_renderer.py:161 | any other pointer is the line `optional int32 <name>_ref = <value>;` (no label in version 3) |
| RootProto.PlainLine | proto_renderer.py:82-91 | without a comment, a typed and named line is exactly `<keyword> <type> <name> = <value>;` and a newline |
| RootProto.ContainerOfLinkedList | proto_renderer.py:166-167 | a linked list is rendered as a global field |
| RootProto.ContainerOfScalars | proto_renderer.py:171-177 | a container of primitives is a `repeated` line of the converted scalar under the container's name |
| RootProto.ContainerIgnored | proto_renderer.py:171-181 | a container of `pointer`, or of a non-primitive type without a child, is an ignored-container comment and adds no import |
| RootProto.ContainerOfPointers | proto_renderer.py:168-170 | a non-primitive `pointer-type` makes the container a pointer field with the container's ordinal |
| RootProto.StructLoopOrdinals | proto_renderer.py:198-208 | the struct loop ends at the first ordinal plus the widths of all fields, so each field is numbered after the widths of those before it |
| RootProto.UnionShape | proto_renderer.py:243-260 | a union is its predeclared messages, then `oneof <tname> {`, then its arms and `}`; a union without arms is an empty `oneof` |
| RootProto.EnumMainStep | proto_renderer.py:114-120 | one non-negative item appends the ZERO line when the counter jumps from 0, then the item's line, as the specification body does |
| RootProto.EnumNegStep | proto_renderer.py:112-113 | one negative item is deferred to the lines after the main body |
| RootProto.EnumLoopDone | proto_renderer.py:110-122 | at the end of the loop every value parsed and the text is the body in the specification's layout order |
| RootProto.MaskStep | proto_renderer.py:269-273 | one mask step appends the line, then the comment, then a newline |
| RootProto.ProtoRenderer.constructor | proto_renderer.py:8-13 | a new renderer writes version 2, with no renames and no imports |
| RootProto.ProtoRenderer.SetVersion | proto_renderer.py:36-38 | only the version changes |
| RootProto.ProtoRenderer.AddExceptionRename | proto_renderer.py:40-42 | the new rule goes after the existing ones and nothing else changes |
| RootProto.ProtoRenderer.GetName | proto_renderer.py:52-64 | the rename loop, every selecting rule replacing the name, gives the specification `Name` |
| RootProto.ProtoRenderer.RenderEnumItem | proto_renderer.py:96-99 | the item line equals the specification's item line |
| RootProto.ProtoRenderer.EnumNegItem | proto_renderer.py:112-113 | a negative item is one step of the specification scan, deferred |
| RootProto.ProtoRenderer.EnumMainItem | proto_renderer.py:114-120 | any other item is one step of the specification scan, with the ZERO line when the counter jumps from 0 |
| RootProto.ProtoRenderer.EnumItem | proto_renderer.py:110-120 | one loop iteration is one step of the specification scan |
| RootProto.ProtoRenderer.EnumItems | proto_renderer.py:110-122 | the item loop raises `ValueError` exactly when a value does not parse, and otherwise gives the specification body in layout order |
| RootProto.ProtoRenderer.RenderEnumType | proto_renderer.py:101-124 | `render_enum_type` equals the specification `EnumType` |
| RootProto.ProtoRenderer.RenderMasks | proto_renderer.py:265-275 | the mask loop equals the specification `Masks` |
| RootProto.ProtoRenderer.RenderBitfieldType | proto_renderer.py:277-286 | `render_bitfield_type` equals the specification `BitfieldType` |
| RootProto.ProtoRenderer.ConvertTypeName | proto_renderer.py:136-143 | `_convert_tname` returns the specification's type and import set |
| RootProto.ProtoRenderer.RenderSimpleField | proto_renderer.py:145-153 | `render_simple_field` returns the specification's text and import set |
| RootProto.ProtoRenderer.RenderField | proto_renderer.py:298-311 | `render_field` equals the specification `Field`, text, imports and error |
| RootProto.ProtoRenderer.RenderStructType | proto_renderer.py:193-210 | `render_struct_type` equals the specification `StructType` |
| RootProto.ProtoRenderer.RenderStructFields | proto_renderer.py:203-208 | the field loop equals the specification loop |
| RootProto.ProtoRenderer.RenderStructField | proto_renderer.py:204 | one field of the loop is its indentation, then `render_field` at the current ordinal: the specification `StructField`, error for error, text and imports |
| RootProto.ProtoRenderer.RenderUnion | proto_renderer.py:243-260 | `render_union` equals the specification `Union` |
| RootProto.ProtoRenderer.RenderType | proto_renderer.py:313-328 | `render_type` equals the specification `TypeDecl`, text, imports and error |
| RootCpp.Name | cpp_renderer.py:49-57 | a resolved name is never empty (no rename rules in this renderer) |
| RootCpp.TypedefNameOf | cpp_renderer.py:59-63 | the typedef name raises `TypeError` exactly when there is no `ld:typedef-name` and no name; otherwise it is the typedef name of that name |
| RootCpp.LineHelpersAgree | cpp_renderer.py:69-90 | the two line helpers agree when there is no type or prefix, and both end with `;`, the comment and a newline |
| RootCpp.EnumType | cpp_renderer.py:92-100 | an enum's copy function is written exactly when a type name is known; otherwise the assertion fails |
| RootCpp.PrototypeMatchesDefinition | cpp_renderer.py:338-342 | the prototype declares the function a struct type defines: the same signature, without the C++ namespace, with `;` for the body |
| RootCpp.Container | cpp_renderer.py:147-165 | a container never raises, keeps the last enum and only adds imports |
| RootCpp.Global | cpp_renderer.py:167-181 | a global field only adds imports and keeps the enclosing type's name |
| RootCpp.Field | cpp_renderer.py:296-309 | rendering a field, raising or not, only adds imports and keeps the enclosing type's name |
| RootCpp.Compound | cpp_renderer.py:214-237 | a compound field only adds imports and keeps the enclosing type's name |
| RootCpp.Pointer | cpp_renderer.py:136-145 | a pointer field only adds imports and keeps the enclosing type's name |
| RootCpp.AnonCompound | cpp_renderer.py:203-212 | an anonymous compound only adds imports and keeps the enclosing type's name |
| RootCpp.FieldsLoop | cpp_renderer.py:196-199 | the field loop only adds imports and never shortens the text |
| RootCpp.StructType | cpp_renderer.py:186-201 | a struct's function is never empty, and rendering it only adds imports |
| RootCpp.Decl | cpp_renderer.py:313-325 | the enclosing type's name is set to the type's `type-name` and stays so; a successful body is never empty |
| RootCpp.RenderTypeSwallowsErrors | cpp_renderer.py:311-336 | `render_type` yields the empty text exactly when its body raised, the body's text otherwise, and leaves the enclosing type's name set either way |
| RootCpp.UnknownTypeIsEmpty | cpp_renderer.py:325-336 | a type of unknown meta kind renders as the empty text and changes only the enclosing type's name |
| RootCpp.UnknownFieldRaises | cpp_renderer.py:309 | a field of unknown meta kind raises "not supported" and changes nothing |
| RootCpp.SimpleIgnoresOrdinal | cpp_renderer.py:124-134 | a simple field is named with ordinal 1 whatever ordinal or name it is given, and changes nothing |
| RootCpp.EnumIsDiscriminator | cpp_renderer.py:242-256 | an enum field records itself, and a union rendered next switches on `dfhack->type` with cases qualified by that enum's `type-name` and a `default` clearing the union |
| RootCpp.UnionNoDiscriminator | cpp_renderer.py:244-245 | without an enum rendered before it, a union is a comment naming its typedef name |
| RootCpp.UnnamedArmsShareCase | cpp_renderer.py:248-251 | every arm is named with the union's own ordinal, so two arms with no `name` and no `ld:anon-name` get the same case label |
| RootCpp.CasesSnoc | cpp_renderer.py:248-252 | the k-th case follows the first k, named with the union's ordinal whatever k is |
| RootCpp.ContainerCases | cpp_renderer.py:147-165 | pointers to a type are copied by id with the type imported; a container of `pointer` copies the values; one whose element converts to `bytes` is a comment |
| RootCpp.GlobalImports | cpp_renderer.py:167-181 | a global needs a `type-name`; an enum global imports it and becomes the discriminator, rendered as the enum field with ordinal 1; any other non-bitfield goes to the dfproto imports |
| RootCpp.AnonCompoundNeedsNames | cpp_renderer.py:203-206 | an anonymous compound with no typedef name and no name raises `TypeError`; outside `render_type` (no enclosing type name) it raises `AttributeError` |
| RootCpp.AnonymousCompoundRaises | cpp_renderer.py:227-228 | a compound marked anonymous is rendered with no name, so without a typedef name it raises |
| RootCpp.MaskNumbering | cpp_renderer.py:261-274 | mask k is numbered k in hexadecimal and, unnamed, is called `anon_<k>`; the k-th line follows the first k |
| RootCpp.CppRenderer.constructor | cpp_renderer.py:8-18 | a new renderer has empty import sets, no enum recorded and no enclosing type |
| RootCpp.CppRenderer.RenderField | cpp_renderer.py:296-309 | `render_field` equals the specification `Field`, and keeps the state it leaves whether it raises or not |
| RootCpp.CppRenderer.RenderFields | cpp_renderer.py:196-199 | the field loop equals the specification loop |
| RootCpp.CppRenderer.RenderStructType | cpp_renderer.py:186-201 | `render_struct_type` equals the specification `StructType` |
| RootCpp.CppRenderer.RenderAnonCompound | cpp_renderer.py:203-212 | `render_anon_compound` equals the specification `AnonCompound` |
| RootCpp.CppRenderer.RenderUnion | cpp_renderer.py:242-256 | the case loop equals the specification `Union` |
| RootCpp.CppRenderer.RenderBitfieldMasks | cpp_renderer.py:261-274 | the mask loop equals the specification `Masks` |
| RootCpp.CppRenderer.RenderType | cpp_renderer.py:311-336 | `render_type` equals the specification `TypeDecl`, text and state |
| Renderer.TableInTypeTable | renderer.py:9-15 | the prototype's type table is a part of the later generations' table, with the same scalars |
| Renderer.ConvertType | renderer.py:17-19 | a type converts exactly when it is given: to its table scalar, or else to `T_<type>` |
| Renderer.EnumLines | renderer.py:29-31 | the only error of the item loop is `TypeError` (an item without a name) |
| Renderer.EnumNumbering | renderer.py:23-33 | the enum body succeeds exactly when every item is named, and is then item i's line numbered i, in order |
| Renderer.Enum | renderer.py:35-40 | a rendered enum field has both a typedef name and a name |
| Renderer.Container | renderer.py:44-48 | a container renders exactly when it has a type and a name, as `repeat <type> <name>;` with no field number |
| Renderer.FieldLine | renderer.py:50-53 | a field with neither subtype nor name is `T_anon anon = <value>;` |
| Renderer.FieldNumbering | renderer.py:61-65 | fields are numbered 1, 2, ... in document order |
| Renderer.Message | renderer.py:60 | a message starts with `message <t> {` |
| Renderer.StructType | renderer.py:57-67 | a struct renders exactly when a type name is given or present |
| Renderer.AnonCompound | renderer.py:69-72 | an anonymous compound is the struct named `T_anon` unless a name is given, and never raises |
| Renderer.PredeclEmpty | renderer.py:80-91 | there is something to pre-declare exactly when some arm is a compound |
| Renderer.UnionWithoutCompounds | renderer.py:76-94 | a union whose arms are all scalars is the bare `oneof`, its arms numbered 1, 2, ... |
| Renderer.RenderRaises | renderer.py:98-119 | a compound that is neither an enum nor anonymous raises, and so does any unknown meta |
| Renderer.RenderAnonymous | renderer.py:108-111 | an anonymous compound renders as a `T_anon` message or, for a union, as `oneof anon` |
| Renderer.RenderEnumType | renderer.py:23-33 | the item loop equals the specification `EnumType` |
| Renderer.RenderStructType | renderer.py:57-67 | the field loop equals the specification `StructType` |
| Renderer.RenderUnion | renderer.py:76-94 | the arm loop equals the specification `Union` |
| Merge.Restrict | protogen/merge.py:10-12 | the restriction keeps exactly the keys of `a` that are in the given set |
| Merge.OnlySharedKeysMatter | protogen/merge.py:7-14 | only node1's attributes that node2 also has decide the comparison |
| Merge.MissingAttributesMatch | protogen/merge.py:10-13 | absent or empty attributes of node1 never block a match, although the comment at line 13 says all of node2's attributes must be present in node1 |
| Merge.MergedMatches | protogen/merge.py:19-25 | after node2's attributes are copied into it, an element of the same tag matches node2 again |
| Merge.IdsAllSplit | protogen/merge.py:17-18 | the identities below a list of siblings are the first sibling's followed by the rest's |
| Merge.IdsAllHas | protogen/merge.py:17-18 | every sibling's identities are among the list's |
| Merge.UniqueAt | protogen/merge.py:17-18 | in a tree of distinct elements each sibling's subtree is disjoint from its later siblings' |
| Merge.MergeNodeFrame | protogen/merge.py:16-26 | a merge writes only descendants of node1, never node1 itself or anything outside its tree |
| Merge.MergeFromFrame | protogen/merge.py:17-26 | the outer loop from any sub2 on writes only descendants of node1 |
| Merge.MergeArmsFrame | protogen/merge.py:18-26 | the inner loop from child `i` on writes only those children and their descendants |
| Merge.ArmMerged | protogen/merge.py:18-26 | child `i` ends with its attributes of that moment overwritten by all of sub2's when it matches sub2 then, and unchanged when it does not; attributes sub2 lacks survive |
| Merge.KeysAllHas | protogen/merge.py:22 | every sibling's attribute keys are among the list's |
| Merge.KeepsTrans | protogen/merge.py:16-26 | keeping attributes composes: two steps that each keep the keys neither writes keep them together |
| Merge.MergeNodeKeeps | protogen.legacy/merge.py:16-26 | a merge removes no attribute, and an attribute whose key no element below node2 carries keeps its value everywhere |
| Merge.MergeFromKeeps | protogen/merge.py:17-26 | the outer loop from any sub2 on keeps every attribute no element below node2 carries |
| Merge.MergeArmsKeeps | protogen/merge.py:18-26 | the inner loop keeps every attribute whose key no element below sub2 carries |
| Merge.AttrMapKeys | protogen/merge.py:16-26 | the attribute store of a tree holds exactly that tree's element identities |
| Merge.AttrMapAllKeys | protogen/merge.py:16-26 | the attribute store of a list of trees holds exactly their identities |
| Merge.Document.constructor | protogen/merge.py:102 | the parsed base tree's elements each have the attributes they were read with |
| Merge.Document.CopyAttributes | protogen/merge.py:21-25 | the element ends with its attributes overridden by all of sub2's, nothing else changes, and `num` counts the attributes that changed |
| Merge.Document.ParseNode | protogen/merge.py:16-26 | `parse_node` leaves the attribute store the specification `MergeNode` describes, and no element is added or removed |
| Merge.LineReader.constructor | protogen/merge.py:86 | a new reader is at the first line of the file |
| Merge.LineReader.ReadLine | protogen/merge.py:31 | `readline` returns the next line and moves on, or the empty string at the end of the file without moving |
| Merge.FindWith | protogen/merge.py:42 | every element the descendant search finds is a descendant carrying the searched value |
| Merge.FindWithInOrder | protogen/merge.py:42 | the descendant search finds every descendant carrying the value, in document order, and nothing else |
| Merge.Filter | protogen/merge.py:42 | the attribute test keeps only elements of the list that carry the value |
| Merge.FilterInOrder | protogen/merge.py:42 | the attribute test keeps every element of the list that carries the value, in their order, and nothing else |
| Merge.Getter | protogen/merge.py:44 | the getter name is `get`, then the field name's first character upper-cased, then the rest of the name unchanged |
| Merge.FieldStep | protogen/merge.py:36-64 | one field line adds at most one to the count, and adds one exactly when the line is well formed and an element or getter was found |
| Merge.ReadLoop | protogen/merge.py:33-65 | corrected (a malformed field line is skipped, see Findings): the loop stops at the end of the file or just after the first line without a tab, having read only tab lines before it, and never lowers the count |
| Merge.ReadTypeFrom | protogen/merge.py:28-67 | corrected as `Merge.ReadLoop`: `read_type` returns the type element and count of the specification `ReadType` and leaves the reader where it says |
| Merge.TextToXml | protogen/merge.py:69-83 | corrected as `Merge.ReadLoop`: `t2x` returns the tree the specification `T2XLoop` builds from the reader's lines |
| Merge.ExportMarks | protogen/merge.py:52-60 | the line `f` adds an element of the field's tag named `f` and marked `export='true'`; `f as T` marks it `export_as='T'` |
| Merge.GetterFallback | protogen/merge.py:43-50 | a name with no field falls back to the getter vmethod, wrapped in a new `virtual-methods` element; with no getter either nothing is added |
| Merge.HeaderAfterBlockIsSkipped | protogen/merge.py:74-82 | `read_type` consumes the line that ends its block, so a type header directly after the fields is never looked at by `t2x` |
| Merge.MalformedLineSpins | protogen/merge.py:59-63 | as written, a malformed tab line naming a field is read again on every iteration: after k iterations the loop is still on it, with k more elements and the same count |
| Merge.MalformedLineSkipped | protogen/merge.py:59-65 | corrected, a malformed line appends its element unmarked, is not counted, and the loop goes on with the next line |
| Attributes.CountRemove | protogen/merge.py:22-25 | the number of changed attributes does not depend on the order the keys are visited in |
| Attributes.CountIsChanged | protogen/merge.py:22-25 | counting the visited keys counts exactly those whose value differs |
| Attributes.CopyInto | protogen/merge.py:21-25 | the loop ends with the element's attributes overridden by all of sub2's, and `num` is the count of differing keys |
| Attributes.CopyCountsChanges | protogen/merge.py:21-25 | the number the copy reports is the number of attributes whose value changes |
| RemoteLegends.CheckList | remotelegends.cpp:41-59 | as written: no world is `CR_FAILURE`, a missing request `CR_WRONG_USAGE`; a range is accepted exactly when `0 <= start <= end <= max_end`; a rejection is never `CR_OK` |
| RemoteLegends.CheckListCorrected | remotelegends.cpp:41-59 | corrected: a range is accepted exactly when `0 <= start <= end < max_end`, so every accepted range indexes the vector |
| RemoteLegends.DefaultIsWholeList | remotelegends.cpp:50-51 | with no bounds, a non-empty vector's range is `0 .. max_end-1` |
| RemoteLegends.EmptyListRejected | remotelegends.cpp:51-54 | with no end on an empty vector the default end is -1, and the request is refused |
| RemoteLegends.CorrectionOnlyAtMaxEnd | remotelegends.cpp:52-55 | the two checks decide alike on every request except those whose end is exactly `max_end` |
| RemoteLegends.AcceptedEndOverruns | remotelegends.cpp:52-55 | as written, `list_end = 3` on a 3-element vector is accepted, and the copied range then runs past its end |
| RemoteLegends.Cell.constructor | remotelegends.cpp:62 | a caller's `int` local holds the value it is given (the source leaves it uninitialised; nothing reads it before the check writes it) |
| RemoteLegends.CheckListRequest | remotelegends.cpp:41-59 | on rejection the code is returned and nothing is written; on acceptance `CR_OK`, the end written last and the start written first |
| RemoteLegends.GetList | remotelegends.cpp:60-69 | the reply lists exactly the elements `start..end` in order on `CR_OK`, and nothing with any other code |
| RemoteLegends.GetWholeList | remotelegends.cpp:60-69 | a request with no bounds lists a non-empty vector whole |

## Left out

- XPath and EXSLT evaluation (rename, ignore and index rules): a rule is known only by the ordered identities of the elements it selects, given with the renderer's configuration.
- lxml itself: attribute order (attributes are a `map`), `sourceline`, XML quoting in the element templates of `read_type`, and parse errors of the input files.
- Printing: the error message and traceback that `render_type` of cpp_renderer.py prints before returning `""`, the `stderr` messages of `read_type`, and the `printerr` messages of `check_list_request`. Only the returned values are modelled.
- Partial updates made before an exception: a renderer method that raises keeps its configuration and outer-type stack, but the model does not say which imports or cache changes happened before the exception.
- The `export='true'` marks that `render_field_impl` writes into an element and its descendants: the model renders the marked element, but does not keep the marks in the caller's tree for later calls.
- The insert-on-lookup of the `defaultdict` type tables: every lookup that matters is guarded by `is_primitive_type`, so the table is an immutable map.
- Merge.Document.ParseNode: the tree's shape is fixed (no element is added or removed) and only the attribute store changes; `node2` is an immutable value, so that it is never modified holds by construction.
- Merge.Document.CopyAttributes: `num` is stated as a recursive count over the keys of sub2; the lemma `Attributes.CopyCountsChanges` equates it with the number of changed attributes. The source computes `num` and never reads it.
- Merge.TextToXml: the output root is the `data-definition` element built directly, not parsed from the XML text; `text_to_xml` (opening the file) and `main` (argument parsing, writing the tree to standard output) are I/O.
- RemoteLegends.GetList: requires a vector shorter than 2^31 elements, because `VNAME.size()` (a `size_t`) is narrowed to `int` for `max_end`; larger vectors are not modelled. Each element's description (`describe_<TYPE>`) is the element itself.
- RemoteLegends.CheckListRequest: uses the corrected bound (see Findings); the check as written is `RemoteLegends.CheckList`.
- Merge.ReadLoop / Merge.ReadTypeFrom / Merge.TextToXml: use the corrected skip of a malformed field line (see Findings), so they always end; the loop as written, which reads that line again forever, is `Merge.StepAsWritten` / `Merge.IterateAsWritten`.
- EnumValues (`EnumNumbering.EnumValues`, through `Base.ParseInt`): `int()` is modelled with its surrounding whitespace, sign and single underscores between digits, but over ASCII digits only; the non-ASCII decimal digits Python also accepts (Arabic-Indic, full-width) make the model raise `ValueError` where the source reads a number.
- Lower / UpperChar / Getter (`Base.Lower`, `Base.UpperChar`, `Merge.Getter`): case mapping is ASCII only; Python's `lower()`/`upper()` also map non-ASCII letters, and may turn one character into several (`'ß'.upper()` is `'SS'`).
- The world-loaded test (`Core::getInstance().isWorldLoaded()`) is a parameter.
- `convert_language_name_to_string`, the DFHack plugin registration and the list of `METHOD_GET_LIST` instances in remotelegends.cpp: foreign calls and declarations with no logic of their own.
- protogen/dependencies.py, protogen/dag.py, protogen.py, list.py and protogen.legacy/list.py (command-line tools, graph queries, file-system work), global_type_renderer.py (a file-writing wrapper) and legends_service.cpp (a gRPC server) are not part of this model.

## Findings

| source | as written | input that shows it | evidently intended | confidence | as-written member | corrected member |
|---|---|---|---|---|---|---|
| remotelegends.cpp:52 | the range check refuses only `end > max_end`, and the getter then builds `std::vector(&v[start], &v[end+1])` (line 65) | a vector of 3 elements and a request with `list_end = 3`: accepted, and the getter reads `v[3]`, one past the end | refuse `end >= max_end`, so that `end` is always a valid index | not executed | RemoteLegends.CheckList | RemoteLegends.CheckListCorrected |
| protogen/merge.py:59-63 | a tab line of a field that exists but is neither `f` nor `f as T` writes an error and `continue`s without reading the next line | the line `\tf x` where the type has a field `f`: the loop reads the same line forever, appending one element per turn | read the next line before continuing, skipping the malformed line | not executed | Merge.MalformedLineSpins | Merge.MalformedLineSkipped |
