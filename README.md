# arm2d_xml2c in Dafny

`arm2d_xml2c.py` converts an XML description of an Arm-2D scene layout into
C code written in the Arm-2D layout DSL. It walks the parsed element tree
depth first. For each element it emits at most one opening macro-call line ending in
`{`, and for each element whose tag is one of the five configured tags
(`Canvas`, `Align`, `Layout`, `LayoutItem`, `Dock`) it emits a closing `}`
line after the children. The lines are indented by four spaces per tree level. An
ambient canvas name, initially `__canvas`, is set by every `Canvas` element
and used by every later `Align` and `Dock` line. The output text is the lines
joined by `"\n"`.

The project models this core in seven modules:

- `Wrappers` — `Option` and `Result`.
- `Text` — indentation, ASCII `lower`/`upper`, `", ".join`/`"\n".join` and
  splitting on a separator, with the round trips between join and split.
- `Attributes` — the `TAG_CONFIG` table and `get_attribute`. An absent
  attribute is `None`, and `Render` prints it as Python's f-strings do
  (`None`). `Truthy` is Python truthiness of an optional string.
- `Generators` — the line builders (`generate_align_call`,
  `generate_dock_call`, the vertical and horizontal dock helpers,
  `generate_layout_call`, `process_item_line_dock`) and the per-tag step of
  `process_tag`. The raised `ValueError`s are `Err` results carrying the
  message. The dock helpers and `process_item_line_dock`, which the program
  never calls, are modelled stand-alone and are not part of the walk.
- `Walker`:
  - the element tree as a `Node` datatype;
  - the walk as a pure specification (`Walk`, `WalkChildren`) that threads
    the canvas name;
  - the closures of `xml_to_c` as the class `Transducer`. Its fields are the
    `c_code` buffer and the `nonlocal canvas_name`. Its recursive methods
    `Traverse`/`TraverseChildren` append in place, and each is proved to
    produce exactly what the specification says.
- `WalkOrder` — the walk flattened into its pre-order sequence of
  enter/leave events, folded from left to right. On that form the model
  proves:
  - the canvas-threading rule;
  - error propagation: the first bad `Align` aborts the run;
  - brace counting;
  - indentation per level;
  - the shape of the final text.
- `Scenarios` — small concrete walks.

Closing braces follow the code rather than the shape of the tree: a node
is closed iff its tag is in `TAG_CONFIG`, with or without children and with
or without an opening line (`Generators.ClosingLines`, `WalkOrder.WalkBraces`).

## Model

| member | source | states |
|---|---|---|
| Attributes.TagTable | arm2d_xml2c.py:6-31 | the five configured tags are exactly the keys of `TAG_CONFIG`, and `Defaults` returns each tag's default map (empty for any other tag) |
| Attributes.GetAttribute | arm2d_xml2c.py:34-37 | `get_attribute`: the node's own value, else the tag's default, else `None`; its independent form, the defaults overlaid by the node's map, is `GetAttributeIsOverlay` |
| Attributes.DefaultsWithinAttributes | arm2d_xml2c.py:6-31 | every defaulted attribute is one of its tag's declared attributes |
| Attributes.GetAttributeIsOverlay | arm2d_xml2c.py:34-37 | `get_attribute` is a lookup in the tag's defaults overlaid by the node's own attributes; it yields a value iff the node or the defaults have the name |
| Attributes.NodeValueOverridesDefault | arm2d_xml2c.py:37 | an attribute present on the node is returned unchanged, whatever the default |
| Attributes.DefaultValues | arm2d_xml2c.py:6-37 | the defaults an empty node sees: type `centre`, region `__centre_region`, alignment `DEFAULT`, debug `false`, dock `false`, margin `0`; no default for a canvas name or a dock side |
| Attributes.UnconfiguredTagHasNoDefaults | arm2d_xml2c.py:35-37 | for a tag outside `TAG_CONFIG` (such as `DockItem`) the result is the node's own value or `None` |
| Attributes.Resolve | arm2d_xml2c.py:34-37 | an attribute with a default always resolves to a present value |
| Text.Indent | arm2d_xml2c.py:130 | the indent of level `l` is exactly `4*l` spaces |
| Text.LeadingSpacesIndent | arm2d_xml2c.py:130 | a line built from the indent and a non-space character starts with exactly `4*l` spaces |
| Text.Lower | arm2d_xml2c.py:99 | lower-casing keeps the length and maps each character |
| Text.Upper | arm2d_xml2c.py:97-100 | upper-casing keeps the length and maps each character |
| Text.LowerIsTrue | arm2d_xml2c.py:99 | `s.lower() == "true"` holds exactly for the sixteen capitalisations of `true` |
| Text.SplitJoin | arm2d_xml2c.py:201 | splitting the joined text on the separator gives back the lines, when no line contains it |
| Text.JoinSplit | arm2d_xml2c.py:201 | joining the pieces of a split gives back the text |
| Text.JoinEndsWithLast | arm2d_xml2c.py:201 | the joined text ends with the last line (no trailing separator) |
| Generators.CallOpensBlock | arm2d_xml2c.py:56 | every macro-call line at level `l` is indented `4*l`, ends with ` {` and is not a closing line |
| Generators.CloseLine | arm2d_xml2c.py:193-195 | the closing line at level `l` is indented `4*l` and is a closing line, not an opening one |
| Generators.CallShapes | arm2d_xml2c.py:56 | the text of a macro call with one to four arguments, as the f-strings write it |
| Generators.AlignTypes | arm2d_xml2c.py:40-51 | the mapping accepts exactly the ten alignment types, and `centre` and `center` both give `arm_2d_align_centre` |
| Generators.AlignCall | arm2d_xml2c.py:39-56 | succeeds iff the type is one of the ten; otherwise fails with `Unsupported alignment type: <type>` |
| Generators.AlignLine | arm2d_xml2c.py:56 | for a valid type the line is `indent + macro(canvas, width, height) {` |
| Generators.DockCall | arm2d_xml2c.py:58-80 | succeeds iff the side is one of the five mapped sides (`general` checked first); otherwise fails with `Unsupported dock side: <side>` |
| Generators.DockCallArguments | arm2d_xml2c.py:67-80 | the arguments are the canvas, width if `general` or truthy, height if `general` or truthy, then margin |
| Generators.DockCallArity | arm2d_xml2c.py:67-76 | `general` always takes four arguments; `top` with only a truthy width takes three |
| Generators.VerticalDockCall | arm2d_xml2c.py:82-83 | the line is exactly the f-string text `indent + "arm_2d_dock_vertical(" + canvas + ", " + width + ", " + margin + ") {"`; `DockLinesVersusGenerators` relates it to the inline vertical Dock line |
| Generators.HorizontalDockCall | arm2d_xml2c.py:85-86 | the line is exactly the f-string text `indent + "arm_2d_dock_horizontal(" + canvas + ", " + height + ", " + margin + ") {"`; `DockLinesVersusGenerators` relates it to the inline horizontal Dock line |
| Generators.LayoutCall | arm2d_xml2c.py:88-106 | yields a line iff the tag is `Layout` |
| Generators.LayoutArguments | arm2d_xml2c.py:90-104 | the argument list starts with the region; the upper-cased alignment follows iff it is non-empty and not `DEFAULT`; when debug lower-cases to `true` the upper-cased alignment and `true` end the list |
| Generators.LayoutAllDefaults | arm2d_xml2c.py:88-105 | an attribute-less Layout gives `arm_2d_layout(__centre_region) {` |
| Generators.LayoutRegionOnly | arm2d_xml2c.py:95-105 | an explicit region with default alignment and debug gives only the region |
| Generators.LayoutDebugRepeatsAlignment | arm2d_xml2c.py:96-101 | with alignment `top` and debug `True` the alignment appears twice: `(__centre_region, TOP, TOP, true)` |
| Generators.LayoutDebugPassesSentinel | arm2d_xml2c.py:99-101 | with debug on and default alignment, the sentinel `DEFAULT` itself is passed: `(__centre_region, DEFAULT, true)` |
| Generators.ItemLineDock | arm2d_xml2c.py:108-119 | yields a line iff the tag is `DockItem` and the side is `horizontal` or `vertical` |
| Generators.ItemLineDockArguments | arm2d_xml2c.py:108-119 | for `DockItem` the horizontal line takes `(width, margin)` and the vertical line `(height, margin)`, each printed as given or as `None` |
| Generators.ItemLineDockWithoutMargin | arm2d_xml2c.py:110-116 | `DockItem` has no defaults, so a missing margin prints as `None` |
| Generators.LayoutItemLines | arm2d_xml2c.py:144-162 | the LayoutItem branch of `process_tag`; specified by `LayoutItemLineCount`, `LayoutItemArguments` and `LayoutItemOpensBlock` |
| Generators.LayoutItemLineCount | arm2d_xml2c.py:144-162 | a LayoutItem emits at most one line; exactly one iff docked with a line style, or undocked with one of the four styles |
| Generators.LayoutItemArguments | arm2d_xml2c.py:148-162 | the macro and arguments for each docked and undocked style: docked lines take only width or only height, undocked ones `(height, width)` |
| Generators.DockLineCount | arm2d_xml2c.py:163-185 | a Dock emits one line iff its side is one of the seven recognised sides, otherwise none |
| Generators.DockLines | arm2d_xml2c.py:163-185 | the Dock branch of `process_tag`; specified by `DockLineCount`, `DockLinesVersusGenerators` and `DockOpensBlock` |
| Generators.DockLinesVersusGenerators | arm2d_xml2c.py:163-185 | the inline vertical and horizontal lines equal the unused helper functions, `general` equals `generate_dock_call`; `top` agrees with it on width-only nodes and differs when both width and height are truthy |
| Generators.CanvasLine | arm2d_xml2c.py:131-135 | the line is exactly the f-string text `indent + "arm_2d_canvas(" + target + ", " + name + ") {"`, with an absent attribute printed as `None` |
| Generators.CanvasWithoutAttributes | arm2d_xml2c.py:131-135 | a Canvas without attributes gives `arm_2d_canvas(None, None) {` |
| Generators.ProcessTag | arm2d_xml2c.py:128-185 | `process_tag` as a value: the lines a tag appends and the canvas name it leaves, or the error it raises; specified by `ProcessTagOutcome`, `ProcessTagLines` and `StepOpensBlock`, and the in-place `Transducer.ProcessTag` is proved equal to it |
| Generators.ProcessTagOutcome | arm2d_xml2c.py:128-185 | a tag step fails iff the tag is `Align` with an unsupported type, with that message; a Canvas sets the canvas name to its `name` attribute and every other tag keeps it |
| Generators.ProcessTagLines | arm2d_xml2c.py:128-185 | a tag step emits at most one line, an opening line at its level; exactly one for Canvas, Align and Layout; none for an unconfigured tag |
| Generators.StepOpensBlock | arm2d_xml2c.py:128-185 | whatever a successful tag step emits is an opening line at the node's level, never a closing one |
| Generators.PlacementOpensBlock | arm2d_xml2c.py:131-143 | the Canvas, Align and Layout lines are opening lines at the node's level |
| Generators.LayoutItemOpensBlock | arm2d_xml2c.py:144-162 | the LayoutItem lines are opening lines at the node's level |
| Generators.DockOpensBlock | arm2d_xml2c.py:163-185 | the Dock lines are opening lines at the node's level |
| Generators.ClosingLines | arm2d_xml2c.py:193-195 | one closing line, indented `4*level`, iff the tag is in `TAG_CONFIG` |
| Walker.Walk | arm2d_xml2c.py:187-195 | `traverse` as a value; the in-place `Transducer.Traverse` is proved equal to it, and `WalkOrder.WalkIsRun` equates it with the left fold of the pre-order events, on which the canvas, error, brace and indentation lemmas are proved |
| Walker.WalkChildren | arm2d_xml2c.py:190-192 | the loop over the first `k` children, each walked with the canvas name the earlier ones left; `Transducer.TraverseChildren` and `WalkOrder.ChildrenIsRun` are proved equal to it |
| Walker.ChildErrorPersists | arm2d_xml2c.py:191-192 | once a child raises, the siblings after it are not walked and the error is the result |
| Walker.Transducer.ProcessTag | arm2d_xml2c.py:128-185 | the in-place step appends exactly the lines of the tag step and updates the canvas name as it says, or reports its error |
| Walker.Transducer.AppendCanvas | arm2d_xml2c.py:131-135 | appends the canvas line and sets the canvas name to the `name` attribute |
| Walker.Transducer.AppendAlign | arm2d_xml2c.py:136-140 | appends the align line built with the current canvas name, or reports the unsupported type |
| Walker.Transducer.AppendLayoutItem | arm2d_xml2c.py:144-162 | appends exactly the LayoutItem lines, canvas name unchanged |
| Walker.Transducer.AppendDock | arm2d_xml2c.py:163-185 | appends exactly the Dock lines, built with the current canvas name, canvas name unchanged |
| Walker.Transducer.CloseBlock | arm2d_xml2c.py:193-195 | appends the closing line iff the tag is configured |
| Walker.Transducer.Traverse | arm2d_xml2c.py:187-195 | the recursive in-place walk appends exactly the specification's lines, and leaves the canvas name it computes, or returns its error |
| Walker.Transducer.TraverseChildren | arm2d_xml2c.py:189-192 | the loop over the children appends exactly their specified lines in order, stopping at the first error |
| Walker.XmlToC | arm2d_xml2c.py:121-201 | starting from an empty buffer and `__canvas`, the result is the joined walk output, or the walk's error |
| Walker.Convert | arm2d_xml2c.py:198-201 | the text written: the walk's lines joined by newlines, or the walk's error; specified by `WalkOrder.ConvertText` and implemented by `XmlToC` |
| WalkOrder.RunAppend | arm2d_xml2c.py:187-195 | running two event sequences one after the other is running their concatenation |
| WalkOrder.WalkIsRun | arm2d_xml2c.py:187-195 | the recursive walk equals the left fold of its pre-order event sequence |
| WalkOrder.ChildrenIsRun | arm2d_xml2c.py:191-192 | the children's walk equals the fold of their concatenated events |
| WalkOrder.RunAfterPrefix | arm2d_xml2c.py:189-192 | after a prefix that succeeds, the rest of the events run from the canvas name the prefix left, and their lines follow the prefix's |
| WalkOrder.RunAfterFailure | arm2d_xml2c.py:189-192 | after a prefix that fails, nothing later runs and the prefix's error is the result |
| WalkOrder.RunOfEvents | arm2d_xml2c.py:187-195 | folding a node's events is its step, then its children's events, then its closing line |
| WalkOrder.CanvasAfterLast | arm2d_xml2c.py:126-134 | after any sequence of events the canvas name is the name of the last Canvas entered, however far back or in whatever subtree |
| WalkOrder.CanvasAfterNone | arm2d_xml2c.py:126-129 | with no Canvas event the canvas name is the starting one |
| WalkOrder.RunCanvas | arm2d_xml2c.py:126-140 | the canvas name a run leaves is the one the canvas rule computes |
| WalkOrder.EventInContext | arm2d_xml2c.py:128-195 | every event is performed with the canvas name of all earlier events, and its lines sit in the output right after the lines of those earlier events |
| WalkOrder.PerformFails | arm2d_xml2c.py:53-54 | an event fails iff it enters an `Align` with an unsupported type |
| WalkOrder.RunFails | arm2d_xml2c.py:53-54 | a run fails iff some event is a bad `Align`, and the error is the first such event's message |
| WalkOrder.WalkFails | arm2d_xml2c.py:53-54 | the conversion of a tree fails iff its pre-order contains a bad `Align` |
| WalkOrder.ClosersAppend | arm2d_xml2c.py:195 | closing lines of two buffers add up |
| WalkOrder.WalkBraces | arm2d_xml2c.py:193-195 | the number of `}` lines in a node's output equals the number of configured nodes in its subtree, whether or not they emitted an opening line |
| WalkOrder.ChildrenBraces | arm2d_xml2c.py:191-195 | the same count over the first `k` children |
| WalkOrder.OpeningLinesNoClosers | arm2d_xml2c.py:135-185 | opening lines contribute no `}` line |
| WalkOrder.UnconfiguredIsTransparent | arm2d_xml2c.py:187-195 | an element with an unconfigured tag (e.g. `DockItem`) emits nothing itself; its output is its children's, one level deeper |
| WalkOrder.DockWithUnknownSide | arm2d_xml2c.py:163-195 | a Dock with an unrecognised or missing side emits only its children's lines and an unpaired `}` |
| WalkOrder.EventIndent | arm2d_xml2c.py:130 | every line an event emits is indented `4*level` |
| WalkOrder.EventLevels | arm2d_xml2c.py:187-192 | a node's events begin with entering it and end with leaving it at its level; every event in between is deeper |
| WalkOrder.ChildEventLevels | arm2d_xml2c.py:191-192 | the children's events are all at least at the children's level |
| WalkOrder.ConvertText | arm2d_xml2c.py:198-201 | the output text is the lines joined by newline, ends with the last line, and splits back into the lines |
| Scenarios.CanvasLeaf | arm2d_xml2c.py:131-135 | a childless `Canvas name="c"` at level 1 emits `arm_2d_canvas(None, c) {` and `}`, and leaves the name `c` |
| Scenarios.DockLeaf | arm2d_xml2c.py:163-169 | a childless top Dock under canvas `c` emits `arm_2d_dock_top(c, 9, 0) {` and `}` |
| Scenarios.CanvasNameLeaksToSibling | arm2d_xml2c.py:126-135 | a Dock that is a sibling after a Canvas, outside the Canvas's subtree, still uses that Canvas's name; the unconfigured root emits nothing of its own |
| Scenarios.CentreAlignLeaf | arm2d_xml2c.py:136-140 | a childless centre Align at level 1 under canvas `cv` emits `arm_2d_align_centre(cv, 10, 20) {` and its `}` |
| Scenarios.ScreenCanvasStep | arm2d_xml2c.py:131-135 | the step of `Canvas name="cv" target="scr"` emits `arm_2d_canvas(scr, cv) {` and sets the canvas name to `cv` |
| Scenarios.AlignUnderCanvas | arm2d_xml2c.py:128-195 | a Canvas holding one Align emits the Canvas line, the Align block one level deeper with the Canvas's name, then the Canvas's own `}` at level 0 |
| Scenarios.AlignUnderCanvasText | arm2d_xml2c.py:198-201 | that tree converts to the four lines `arm_2d_canvas(scr, cv) {`, `    arm_2d_align_centre(cv, 10, 20) {`, `    }`, `}` joined by newlines |

## Left out

- XML parsing (`ET.parse`, `getroot`, arm2d_xml2c.py:122-123) is a foreign
  library. The input is an already-parsed `Node` whose attributes form a map,
  so each key occurs once.
- Writing the file (arm2d_xml2c.py:200-201) is I/O. The model produces the
  text that would be written. When the walk raises, nothing is written, and
  the model gives the error instead.
- The command line (arm2d_xml2c.py:203-221: argparse, the file-existence
  check, `print`, `exit`) is plumbing around `xml_to_c` and is not modelled.
- Text.Lower, Text.Upper: these map only ASCII letters. Python's `lower()`
  and `upper()` also map non-ASCII letters and can change the length of a
  string (e.g. `ß`.upper() is `SS`). The model does not reproduce Unicode
  case mapping.
- Recursion depth: `traverse` (arm2d_xml2c.py:187-192) recurses once per
  tree level, so in Python a tree nested deeper than the interpreter's
  recursion limit (1000 frames by default) raises `RecursionError` and no
  file is written. `Walk` and `Transducer.Traverse` assume unbounded
  recursion depth and succeed at any depth.
- The Python exception type (`ValueError`) is not modelled. Only its
  message is kept: `Err(message)`.
- The `attributes` lists of `TAG_CONFIG` are never consulted by the code
  (any attribute is looked up). The model keeps them as data only, in
  `TagTable` and `DefaultsWithinAttributes`.
- `example/scene_layout.c` is not reproduced as a whole. A concrete walk over
  a literal tree of four or more elements makes the verifier unfold every
  attribute lookup of the tree at once, which exceeds its resource bound.
  `Scenarios` works out smaller trees instead, including a block that is
  closed after its child's lines and the text such a tree converts to.
