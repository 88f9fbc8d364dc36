/**
 * The line generators of arm2d_xml2c.py: one function per kind of macro
 * call, each building one `<indent><macro>(<args>) {` line from resolved
 * attributes, and `ProcessTag`, the per-node dispatch of `process_tag`
 * (what one node appends to the output and how it changes the ambient
 * canvas name).
 */
module Generators {
  import opened Wrappers
  import opened Text
  import opened Attributes

  /** `f"{indent}{macro}({a}, {b}, ...) {{"`: a macro call that opens a block. */
  function Call(indent: string, macro: string, args: seq<string>): string
  {
    indent + macro + "(" + Join(args, ", ") + ") {"
  }

  /** A line opening a block at a nesting level: exactly `4 * level`
      leading spaces, and it ends in ` {`. */
  predicate OpensBlock(line: string, level: nat)
  {
    LeadingSpaces(line) == 4 * level && |line| >= 2 && line[|line| - 2..] == " {"
  }

  /** A line that closes a block: it ends in `}`. */
  predicate ClosesBlock(line: string)
  {
    |line| > 0 && line[|line| - 1] == '}'
  }

  lemma CallOpensBlock(level: nat, macro: string, args: seq<string>)
    requires |macro| > 0 && macro[0] != ' '
    ensures OpensBlock(Call(Indent(level), macro, args), level)
    ensures !ClosesBlock(Call(Indent(level), macro, args))
  {
    var rest := macro + "(" + Join(args, ", ") + ") {";
    assert Call(Indent(level), macro, args) == Indent(level) + rest;
    LeadingSpacesIndent(level, rest);
  }

  /** The closing line of a block at a nesting level. */
  function CloseLine(level: nat): (r: string)
    ensures LeadingSpaces(r) == 4 * level && ClosesBlock(r) && !OpensBlock(r, level)
  {
    LeadingSpacesIndent(level, "}");
    Indent(level) + "}"
  }

  /** The calls with one to four arguments are the f-strings of the source. */
  lemma CallShapes(indent: string, macro: string, a: string, b: string, c: string, d: string)
    ensures Call(indent, macro, [a]) == indent + macro + "(" + a + ") {"
    ensures Call(indent, macro, [a, b]) == indent + macro + "(" + a + ", " + b + ") {"
    ensures Call(indent, macro, [a, b, c]) == indent + macro + "(" + a + ", " + b + ", " + c + ") {"
    ensures Call(indent, macro, [a, b, c, d]) ==
      indent + macro + "(" + a + ", " + b + ", " + c + ", " + d + ") {"
  {
    JoinCons(c, [d], ", ");
    assert [c] + [d] == [c, d];
    JoinCons(b, [c, d], ", ");
    assert [b] + [c, d] == [b, c, d];
    JoinCons(a, [b, c, d], ", ");
    assert [a] + [b, c, d] == [a, b, c, d];
    JoinCons(b, [c], ", ");
    assert [b] + [c] == [b, c];
    JoinCons(a, [b, c], ", ");
    assert [a] + [b, c] == [a, b, c];
    JoinCons(a, [b], ", ");
    assert [a] + [b] == [a, b];
  }

  // ---------------------------------------------------------------- Align

  /** `align_mapping` of `generate_align_call`. */
  const AlignMapping: map<string, string> := map[
    "centre" := "arm_2d_align_centre",
    "center" := "arm_2d_align_centre",
    "top-left" := "arm_2d_align_top_left",
    "top-right" := "arm_2d_align_top_right",
    "bottom-left" := "arm_2d_align_bottom_left",
    "bottom-right" := "arm_2d_align_bottom_right",
    "middle-left" := "arm_2d_align_mid_left",
    "middle-right" := "arm_2d_align_mid_right",
    "top-center" := "arm_2d_align_top_centre",
    "bottom-center" := "arm_2d_align_bottom_centre"
  ]

  /** An Align type the generator accepts. */
  predicate ValidAlignType(t: Option<string>)
  {
    t.Some? && t.value in AlignMapping
  }

  /** The generator accepts exactly ten type names, and both spellings of
      "centre" select the same macro. */
  lemma AlignTypes(t: string)
    ensures t in AlignMapping <==>
      t in {"centre", "center", "top-left", "top-right", "bottom-left", "bottom-right",
            "middle-left", "middle-right", "top-center", "bottom-center"}
    ensures AlignMapping["centre"] == AlignMapping["center"] == "arm_2d_align_centre"
  {
    var ks := {"centre", "center", "top-left", "top-right", "bottom-left", "bottom-right",
               "middle-left", "middle-right", "top-center", "bottom-center"};
    assert AlignMapping.Keys == ks;
  }

  /** `generate_align_call`: an unknown type raises an error naming it. */
  function AlignCall(type_: Option<string>, indent: string, canvas: Option<string>,
                     width: Option<string>, height: Option<string>): (r: Result<string, string>)
    ensures r.Ok? <==> ValidAlignType(type_)
    ensures r.Err? ==> r.error == "Unsupported alignment type: " + Render(type_)
  {
    if !ValidAlignType(type_) then Err("Unsupported alignment type: " + Render(type_))
    else Ok(Call(indent, AlignMapping[type_.value], [Render(canvas), Render(width), Render(height)]))
  }

  /** An accepted Align line names the canvas, then width, then height. */
  lemma AlignLine(t: string, indent: string, canvas: Option<string>, width: Option<string>, height: Option<string>)
    requires t in AlignMapping
    ensures AlignCall(Some(t), indent, canvas, width, height) ==
      Ok(indent + AlignMapping[t] + "(" + Render(canvas) + ", " + Render(width) + ", " + Render(height) + ") {")
  {
    CallShapes(indent, AlignMapping[t], Render(canvas), Render(width), Render(height), "");
  }

  // ----------------------------------------------------------------- Dock

  /** `dock_mapping` of `generate_dock_call`. */
  const DockMapping: map<string, string> := map[
    "top" := "arm_2d_dock_top",
    "bottom" := "arm_2d_dock_bottom",
    "left" := "arm_2d_dock_left",
    "right" := "arm_2d_dock_right",
    "general" := "arm_2d_dock"
  ]

  /** `generate_dock_call`: "general" always takes width and height; the
      other sides take whichever of them is truthy; an unknown side raises. */
  function DockCall(side: Option<string>, indent: string, canvas: Option<string>, width: Option<string>,
                    height: Option<string>, margin: Option<string>): (r: Result<string, string>)
    ensures r.Ok? <==> side.Some? && side.value in DockMapping
    ensures r.Err? ==> r.error == "Unsupported dock side: " + Render(side)
  {
    var c, w, h, m := Render(canvas), Render(width), Render(height), Render(margin);
    if side == Some("general") then Ok(Call(indent, DockMapping["general"], [c, w, h, m]))
    else if side.None? || side.value !in DockMapping then Err("Unsupported dock side: " + Render(side))
    else if Truthy(width) && Truthy(height) then Ok(Call(indent, DockMapping[side.value], [c, w, h, m]))
    else if Truthy(width) then Ok(Call(indent, DockMapping[side.value], [c, w, m]))
    else if Truthy(height) then Ok(Call(indent, DockMapping[side.value], [c, h, m]))
    else Ok(Call(indent, DockMapping[side.value], [c, m]))
  }

  /** The arguments of `generate_dock_call`, stated one by one: the canvas,
      the width when it is truthy or the side is "general", likewise the
      height, and the margin last. */
  lemma DockCallArguments(side: string, indent: string, canvas: Option<string>, width: Option<string>,
                          height: Option<string>, margin: Option<string>)
    requires side in DockMapping
    ensures DockCall(Some(side), indent, canvas, width, height, margin) ==
      Ok(Call(indent, DockMapping[side],
              [Render(canvas)]
              + (if side == "general" || Truthy(width) then [Render(width)] else [])
              + (if side == "general" || Truthy(height) then [Render(height)] else [])
              + [Render(margin)]))
  {
    var c, w, h, m := Render(canvas), Render(width), Render(height), Render(margin);
    var args := [c]
              + (if side == "general" || Truthy(width) then [w] else [])
              + (if side == "general" || Truthy(height) then [h] else [])
              + [m];
    if side == "general" || (Truthy(width) && Truthy(height)) {
      assert args == [c, w, h, m];
    } else if Truthy(width) {
      assert args == [c, w, m];
    } else if Truthy(height) {
      assert args == [c, h, m];
    } else {
      assert args == [c, m];
    }
  }

  /** "general" always yields four arguments; "top" with only a width yields three. */
  lemma DockCallArity(indent: string, canvas: Option<string>, width: Option<string>,
                      height: Option<string>, margin: Option<string>)
    ensures DockCall(Some("general"), indent, canvas, width, height, margin) ==
      Ok(Call(indent, "arm_2d_dock", [Render(canvas), Render(width), Render(height), Render(margin)]))
    ensures Truthy(width) && height.None? ==>
      DockCall(Some("top"), indent, canvas, width, height, margin) ==
      Ok(Call(indent, "arm_2d_dock_top", [Render(canvas), Render(width), Render(margin)]))
  {
  }

  /** `generate_vertical_dock_call`. */
  function VerticalDockCall(indent: string, canvas: Option<string>, width: Option<string>,
                            margin: Option<string>): (r: string)
    ensures r == indent + "arm_2d_dock_vertical(" + Render(canvas) + ", " + Render(width) + ", " + Render(margin) + ") {"
  {
    CallShapes(indent, "arm_2d_dock_vertical", Render(canvas), Render(width), Render(margin), "");
    Call(indent, "arm_2d_dock_vertical", [Render(canvas), Render(width), Render(margin)])
  }

  /** `generate_horizontal_dock_call`. */
  function HorizontalDockCall(indent: string, canvas: Option<string>, height: Option<string>,
                              margin: Option<string>): (r: string)
    ensures r == indent + "arm_2d_dock_horizontal(" + Render(canvas) + ", " + Render(height) + ", " + Render(margin) + ") {"
  {
    CallShapes(indent, "arm_2d_dock_horizontal", Render(canvas), Render(height), Render(margin), "");
    Call(indent, "arm_2d_dock_horizontal", [Render(canvas), Render(height), Render(margin)])
  }

  // --------------------------------------------------------------- Layout

  /** True when a flag attribute reads "true" in any letter case
      (`value.lower() == "true"`, used for `debug` and `dock`). */
  predicate IsTrueFlag(s: string)
  {
    Lower(s) == "true"
  }

  /** The argument list `generate_layout_call` assembles. */
  function LayoutArgs(attrib: map<string, string>): seq<string>
  {
    var region := Resolve("Layout", "region", attrib);
    var alignment := Resolve("Layout", "alignment", attrib);
    var debug := Resolve("Layout", "debug", attrib);
    [region]
    + (if alignment != "" && alignment != "DEFAULT" then [Upper(alignment)] else [])
    + (if IsTrueFlag(debug) then [Upper(alignment), "true"] else [])
  }

  /** `generate_layout_call`: a line for a Layout tag only. */
  function LayoutCall(tag: string, attrib: map<string, string>, indent: string): (r: Option<string>)
    ensures r.Some? <==> tag == "Layout"
  {
    if tag == "Layout" then Some(Call(indent, "arm_2d_layout", LayoutArgs(attrib))) else None
  }

  /** The Layout arguments: the region first; the upper-cased alignment if
      it is set and not "DEFAULT"; and, when debug reads "true" in any case,
      the upper-cased alignment once more followed by `true`. */
  lemma LayoutArguments(attrib: map<string, string>)
    ensures var region := GetAttribute("Layout", "region", attrib);
            var alignment := GetAttribute("Layout", "alignment", attrib).value;
            var debug := GetAttribute("Layout", "debug", attrib).value;
            var aligned := alignment != "" && alignment != "DEFAULT";
            var dbg := IsTrueFlag(debug);
            var args := LayoutArgs(attrib);
            && region.Some? && args[0] == region.value
            && |args| == 1 + (if aligned then 1 else 0) + (if dbg then 2 else 0)
            && (aligned ==> args[1] == Upper(alignment))
            && (dbg ==> args[|args| - 2..] == [Upper(alignment), "true"])
  {
  }

  /** A Layout without attributes passes only the default region. */
  lemma LayoutAllDefaults()
    ensures LayoutCall("Layout", map[], "") == Some(Call("", "arm_2d_layout", ["__centre_region"]))
  {
    LayoutArgsOf(map[], "__centre_region", "DEFAULT", "false");
    LowerIsTrue("false");
  }

  /** An explicit region with the "DEFAULT" sentinel and debug off passes
      the region alone. */
  lemma LayoutRegionOnly()
    ensures LayoutCall("Layout", map["region" := "R", "alignment" := "DEFAULT", "debug" := "false"], "")
            == Some(Call("", "arm_2d_layout", ["R"]))
  {
    LayoutArgsOf(map["region" := "R", "alignment" := "DEFAULT", "debug" := "false"], "R", "DEFAULT", "false");
    LowerIsTrue("false");
  }

  /** Debug on repeats the upper-cased alignment before `true`. */
  lemma LayoutDebugRepeatsAlignment()
    ensures LayoutCall("Layout", map["alignment" := "top", "debug" := "True"], "")
            == Some(Call("", "arm_2d_layout", ["__centre_region", "TOP", "TOP", "true"]))
  {
    LayoutArgsOf(map["alignment" := "top", "debug" := "True"], "__centre_region", "top", "True");
    UpperTop();
    LowerIsTrue("True");
  }

  lemma UpperTop()
    ensures Upper("top") == "TOP"
  {
  }

  lemma UpperDefault()
    ensures Upper("DEFAULT") == "DEFAULT"
  {
    UpperOfUpper("DEFAULT");
  }

  /** Debug on with the "DEFAULT" sentinel passes the sentinel itself. */
  lemma LayoutDebugPassesSentinel()
    ensures LayoutCall("Layout", map["debug" := "TRUE"], "")
            == Some(Call("", "arm_2d_layout", ["__centre_region", "DEFAULT", "true"]))
  {
    UpperDefault();
    LayoutArgsOf(map["debug" := "TRUE"], "__centre_region", "DEFAULT", "TRUE");
    LowerIsTrue("TRUE");
  }

  /** The Layout arguments, once the three attributes are known. */
  lemma LayoutArgsOf(attrib: map<string, string>, region: string, alignment: string, debug: string)
    requires GetAttribute("Layout", "region", attrib) == Some(region)
    requires GetAttribute("Layout", "alignment", attrib) == Some(alignment)
    requires GetAttribute("Layout", "debug", attrib) == Some(debug)
    ensures LayoutCall("Layout", attrib, "") == Some(Call("", "arm_2d_layout",
      [region]
      + (if alignment != "" && alignment != "DEFAULT" then [Upper(alignment)] else [])
      + (if IsTrueFlag(debug) then [Upper(alignment), "true"] else [])))
  {
  }

  // ------------------------------------------------------------- DockItem

  /** `process_item_line_dock`: a line for a DockItem whose side is
      "horizontal" or "vertical". */
  function ItemLineDock(tag: string, attrib: map<string, string>, indent: string): (r: Option<string>)
    ensures r.Some? <==>
      tag == "DockItem" && "side" in attrib && (attrib["side"] == "horizontal" || attrib["side"] == "vertical")
  {
    if tag == "DockItem" then
      var side := GetAttribute(tag, "side", attrib);
      var width := GetAttribute(tag, "width", attrib);
      var height := GetAttribute(tag, "height", attrib);
      var margin := GetAttribute(tag, "margin", attrib);
      if side == Some("horizontal") then Some(Call(indent, "__item_line_dock_horizontal", [Render(width), Render(margin)]))
      else if side == Some("vertical") then Some(Call(indent, "__item_line_dock_vertical", [Render(height), Render(margin)]))
      else None
    else None
  }

  /** The DockItem line takes the node's own attributes only, since
      `DockItem` has no entry in `TAG_CONFIG`: width (horizontal) or height
      (vertical), then margin, each printed as `None` when absent. */
  lemma ItemLineDockArguments(attrib: map<string, string>, indent: string)
    ensures var width := if "width" in attrib then attrib["width"] else "None";
            var height := if "height" in attrib then attrib["height"] else "None";
            var margin := if "margin" in attrib then attrib["margin"] else "None";
            && ("side" in attrib && attrib["side"] == "horizontal" ==>
                  ItemLineDock("DockItem", attrib, indent)
                  == Some(Call(indent, "__item_line_dock_horizontal", [width, margin])))
            && ("side" in attrib && attrib["side"] == "vertical" ==>
                  ItemLineDock("DockItem", attrib, indent)
                  == Some(Call(indent, "__item_line_dock_vertical", [height, margin])))
  {
    UnconfiguredTagHasNoDefaults("DockItem", "side", attrib);
    UnconfiguredTagHasNoDefaults("DockItem", "width", attrib);
    UnconfiguredTagHasNoDefaults("DockItem", "height", attrib);
    UnconfiguredTagHasNoDefaults("DockItem", "margin", attrib);
  }

  /** A DockItem has no defaults, so a missing margin prints as `None`. */
  lemma ItemLineDockWithoutMargin()
    ensures ItemLineDock("DockItem", map["side" := "horizontal", "width" := "8"], "")
            == Some(Call("", "__item_line_dock_horizontal", ["8", "None"]))
  {
    var attrib := map["side" := "horizontal", "width" := "8"];
    UnconfiguredTagHasNoDefaults("DockItem", "margin", attrib);
    UnconfiguredTagHasNoDefaults("DockItem", "width", attrib);
  }

  // ----------------------------------------------------------- LayoutItem

  /** The lines a LayoutItem appends (`process_tag`, LayoutItem branch):
      one `if` per style, so at most one of them fires. */
  function LayoutItemLines(attrib: map<string, string>, indent: string): seq<string>
  {
    var style := GetAttribute("LayoutItem", "style", attrib);
    var height := GetAttribute("LayoutItem", "height", attrib);
    var width := GetAttribute("LayoutItem", "width", attrib);
    var dock := Resolve("LayoutItem", "dock", attrib);
    if IsTrueFlag(dock) then
      (if style == Some("line horizontal") then [Call(indent, "__item_line_dock_horizontal", [Render(width)])] else [])
      + (if style == Some("line vertical") then [Call(indent, "__item_line_dock_vertical", [Render(height)])] else [])
    else
      (if style == Some("line horizontal") then [Call(indent, "__item_line_horizontal", [Render(height), Render(width)])] else [])
      + (if style == Some("line vertical") then [Call(indent, "__item_line_vertical", [Render(height), Render(width)])] else [])
      + (if style == Some("horizontal") then [Call(indent, "__item_horizontal", [Render(height), Render(width)])] else [])
      + (if style == Some("vertical") then [Call(indent, "__item_vertical", [Render(height), Render(width)])] else [])
  }

  /** At most one style fires; a docked item needs a line style, an
      undocked one any of the four styles. */
  lemma LayoutItemLineCount(attrib: map<string, string>, indent: string)
    ensures var r := LayoutItemLines(attrib, indent);
            var style := GetAttribute("LayoutItem", "style", attrib);
            && |r| <= 1
            && (|r| == 1 <==>
                  if IsTrueFlag(GetAttribute("LayoutItem", "dock", attrib).value)
                  then style == Some("line horizontal") || style == Some("line vertical")
                  else style == Some("line horizontal") || style == Some("line vertical")
                       || style == Some("horizontal") || style == Some("vertical"))
  {
  }

  /** Docked line items take one dimension (the width when horizontal, the
      height when vertical); the others take height then width. */
  lemma LayoutItemArguments(attrib: map<string, string>, indent: string)
    ensures var style := GetAttribute("LayoutItem", "style", attrib);
            var h, w := Render(GetAttribute("LayoutItem", "height", attrib)), Render(GetAttribute("LayoutItem", "width", attrib));
            var docked := IsTrueFlag(GetAttribute("LayoutItem", "dock", attrib).value);
            var r := LayoutItemLines(attrib, indent);
            && (docked && style == Some("line horizontal") ==> r == [Call(indent, "__item_line_dock_horizontal", [w])])
            && (docked && style == Some("line vertical") ==> r == [Call(indent, "__item_line_dock_vertical", [h])])
            && (!docked && style == Some("line horizontal") ==> r == [Call(indent, "__item_line_horizontal", [h, w])])
            && (!docked && style == Some("line vertical") ==> r == [Call(indent, "__item_line_vertical", [h, w])])
            && (!docked && style == Some("horizontal") ==> r == [Call(indent, "__item_horizontal", [h, w])])
            && (!docked && style == Some("vertical") ==> r == [Call(indent, "__item_vertical", [h, w])])
  {
  }

  // ------------------------------------------------------ Dock, in the walk

  /** The line a Dock appends (`process_tag`, Dock branch): a fixed
      argument list per side, nothing for any other side. */
  function DockLines(attrib: map<string, string>, indent: string, canvas: Option<string>): seq<string>
  {
    var side := GetAttribute("Dock", "side", attrib);
    var c := Render(canvas);
    var w := Render(GetAttribute("Dock", "width", attrib));
    var h := Render(GetAttribute("Dock", "height", attrib));
    var m := Render(GetAttribute("Dock", "margin", attrib));
    if side == Some("top") then [Call(indent, "arm_2d_dock_top", [c, w, m])]
    else if side == Some("bottom") then [Call(indent, "arm_2d_dock_bottom", [c, w, m])]
    else if side == Some("left") then [Call(indent, "arm_2d_dock_left", [c, h, m])]
    else if side == Some("right") then [Call(indent, "arm_2d_dock_right", [c, h, m])]
    else if side == Some("general") then [Call(indent, "arm_2d_dock", [c, w, h, m])]
    else if side == Some("vertical") then [Call(indent, "arm_2d_dock_vertical", [c, w, m])]
    else if side == Some("horizontal") then [Call(indent, "arm_2d_dock_horizontal", [c, h, m])]
    else []
  }

  /** A Dock appends one line for each of the seven sides the walk knows,
      and nothing for any other side or a missing one. */
  lemma DockLineCount(attrib: map<string, string>, indent: string, canvas: Option<string>)
    ensures var side := GetAttribute("Dock", "side", attrib);
            |DockLines(attrib, indent, canvas)| ==
              if side.Some? && side.value in {"top", "bottom", "left", "right", "general", "vertical", "horizontal"}
              then 1 else 0
  {
  }

  /** How the walk's inline Dock lines relate to the stand-alone generators
      that nothing calls: "vertical", "horizontal" and "general" agree with
      them; "top" agrees with `generate_dock_call` when only the width is
      truthy, and differs from it when both dimensions are, because the
      walk drops the height. */
  lemma DockLinesVersusGenerators(attrib: map<string, string>, indent: string, canvas: Option<string>)
    ensures var side := GetAttribute("Dock", "side", attrib);
            var width := GetAttribute("Dock", "width", attrib);
            var height := GetAttribute("Dock", "height", attrib);
            var margin := GetAttribute("Dock", "margin", attrib);
            var r := DockLines(attrib, indent, canvas);
            && (side == Some("vertical") ==> r == [VerticalDockCall(indent, canvas, width, margin)])
            && (side == Some("horizontal") ==> r == [HorizontalDockCall(indent, canvas, height, margin)])
            && (side == Some("general") ==> r == [DockCall(side, indent, canvas, width, height, margin).value])
            && (side == Some("top") ==>
                  (Truthy(width) && !Truthy(height) ==> r == [DockCall(side, indent, canvas, width, height, margin).value])
                  && (Truthy(width) && Truthy(height) ==> r != [DockCall(side, indent, canvas, width, height, margin).value]))
  {
    var side := GetAttribute("Dock", "side", attrib);
    var width := GetAttribute("Dock", "width", attrib);
    var height := GetAttribute("Dock", "height", attrib);
    var margin := GetAttribute("Dock", "margin", attrib);
    DockLinesVersusHelpers(attrib, indent, canvas);
    if side == Some("top") && Truthy(width) && Truthy(height) {
      var c, w, h, m := Render(canvas), Render(width), Render(height), Render(margin);
      CallShapes(indent, "arm_2d_dock_top", c, w, m, "");
      CallShapes(indent, "arm_2d_dock_top", c, w, h, m);
      assert |Call(indent, "arm_2d_dock_top", [c, w, m])| < |Call(indent, "arm_2d_dock_top", [c, w, h, m])|;
    }
  }

  /** The inline vertical and horizontal Dock lines are the unused helpers' lines. */
  lemma DockLinesVersusHelpers(attrib: map<string, string>, indent: string, canvas: Option<string>)
    ensures var side := GetAttribute("Dock", "side", attrib);
            var r := DockLines(attrib, indent, canvas);
            && (side == Some("vertical") ==>
                  r == [VerticalDockCall(indent, canvas, GetAttribute("Dock", "width", attrib), GetAttribute("Dock", "margin", attrib))])
            && (side == Some("horizontal") ==>
                  r == [HorizontalDockCall(indent, canvas, GetAttribute("Dock", "height", attrib), GetAttribute("Dock", "margin", attrib))])
  {
  }

  // --------------------------------------------------------------- Canvas

  /** The line a Canvas appends: target first, then name. */
  function CanvasLine(attrib: map<string, string>, indent: string): (r: string)
    ensures r == indent + "arm_2d_canvas(" + Render(GetAttribute("Canvas", "target", attrib)) + ", "
                 + Render(GetAttribute("Canvas", "name", attrib)) + ") {"
  {
    CallShapes(indent, "arm_2d_canvas", Render(GetAttribute("Canvas", "target", attrib)),
               Render(GetAttribute("Canvas", "name", attrib)), "", "");
    Call(indent, "arm_2d_canvas", [Render(GetAttribute("Canvas", "target", attrib)),
                                   Render(GetAttribute("Canvas", "name", attrib))])
  }

  /** A Canvas without attributes prints `None` for both. */
  lemma CanvasWithoutAttributes()
    ensures CanvasLine(map[], "") == "arm_2d_canvas(None, None) {"
  {
    CallShapes("", "arm_2d_canvas", "None", "None", "", "");
  }

  // ------------------------------------------------------------- dispatch

  /** What processing one node does: the lines it appends and the ambient
      canvas name afterwards. */
  datatype TagStep = TagStep(lines: seq<string>, canvas: Option<string>)

  /** `process_tag`: the opening line of one node at a nesting level, given
      the ambient canvas name. */
  function ProcessTag(tag: string, attrib: map<string, string>, level: nat, canvas: Option<string>)
    : Result<TagStep, string>
  {
    var indent := Indent(level);
    if tag == "Canvas" then
      Ok(TagStep([CanvasLine(attrib, indent)], GetAttribute(tag, "name", attrib)))
    else if tag == "Align" then
      var type_ := GetAttribute(tag, "type", attrib);
      var width := GetAttribute(tag, "width", attrib);
      var height := GetAttribute(tag, "height", attrib);
      match AlignCall(type_, indent, canvas, width, height)
      case Err(e) => Err(e)
      case Ok(line) => Ok(TagStep([line], canvas))
    else if tag == "Layout" then
      Ok(TagStep([LayoutCall(tag, attrib, indent).value], canvas))
    else if tag == "LayoutItem" then
      Ok(TagStep(LayoutItemLines(attrib, indent), canvas))
    else if tag == "Dock" then
      Ok(TagStep(DockLines(attrib, indent, canvas), canvas))
    else
      Ok(TagStep([], canvas))
  }

  /** Only an Align with an unsupported type raises, with the generator's
      message; only a Canvas changes the canvas name, to its own name
      attribute. */
  lemma ProcessTagOutcome(tag: string, attrib: map<string, string>, level: nat, canvas: Option<string>)
    ensures var r := ProcessTag(tag, attrib, level, canvas);
            && (r.Err? <==> tag == "Align" && !ValidAlignType(GetAttribute("Align", "type", attrib)))
            && (r.Err? ==> r.error == "Unsupported alignment type: " + Render(GetAttribute("Align", "type", attrib)))
            && (r.Ok? ==> r.value.canvas == if tag == "Canvas" then GetAttribute("Canvas", "name", attrib) else canvas)
  {
  }

  /** A node appends at most one line, which opens a block at its level;
      Canvas, Align and Layout always append one, a tag outside the table
      none. */
  lemma ProcessTagLines(tag: string, attrib: map<string, string>, level: nat, canvas: Option<string>)
    requires ProcessTag(tag, attrib, level, canvas).Ok?
    ensures var lines := ProcessTag(tag, attrib, level, canvas).value.lines;
            && OpeningLines(lines, level)
            && ((tag == "Canvas" || tag == "Align" || tag == "Layout") ==> |lines| == 1)
            && (!Configured(tag) ==> lines == [])
  {
    StepOpensBlock(tag, attrib, level, canvas);
  }

  /** The lines of a tag step open blocks at the node's level. */
  lemma StepOpensBlock(tag: string, attrib: map<string, string>, level: nat, canvas: Option<string>)
    requires ProcessTag(tag, attrib, level, canvas).Ok?
    ensures OpeningLines(ProcessTag(tag, attrib, level, canvas).value.lines, level)
  {
    var indent := Indent(level);
    var lines := ProcessTag(tag, attrib, level, canvas).value.lines;
    if tag == "Canvas" || tag == "Align" || tag == "Layout" {
      PlacementOpensBlock(tag, attrib, level, canvas);
    } else if tag == "LayoutItem" {
      assert lines == LayoutItemLines(attrib, indent);
      LayoutItemOpensBlock(attrib, level);
    } else if tag == "Dock" {
      assert lines == DockLines(attrib, indent, canvas);
      DockOpensBlock(attrib, level, canvas);
    } else {
      assert lines == [];
    }
  }

  /** The single-call steps: a canvas, an alignment or a layout. */
  lemma PlacementOpensBlock(tag: string, attrib: map<string, string>, level: nat, canvas: Option<string>)
    requires tag == "Canvas" || tag == "Align" || tag == "Layout"
    requires ProcessTag(tag, attrib, level, canvas).Ok?
    ensures OpeningLines(ProcessTag(tag, attrib, level, canvas).value.lines, level)
  {
    var indent := Indent(level);
    var lines := ProcessTag(tag, attrib, level, canvas).value.lines;
    if tag == "Canvas" {
      assert lines == [CanvasLine(attrib, indent)];
      CallOpensBlock(level, "arm_2d_canvas", [Render(GetAttribute(tag, "target", attrib)),
                                              Render(GetAttribute(tag, "name", attrib))]);
    } else if tag == "Align" {
      var type_ := GetAttribute(tag, "type", attrib);
      var args := [Render(canvas), Render(GetAttribute(tag, "width", attrib)), Render(GetAttribute(tag, "height", attrib))];
      assert lines == [Call(indent, AlignMapping[type_.value], args)];
      CallOpensBlock(level, AlignMapping[type_.value], args);
    } else {
      assert lines == [Call(indent, "arm_2d_layout", LayoutArgs(attrib))];
      CallOpensBlock(level, "arm_2d_layout", LayoutArgs(attrib));
    }
  }

  /** The lines one node opens with: at most one, opening a block at the
      node's level. */
  predicate OpeningLines(lines: seq<string>, level: nat)
  {
    |lines| <= 1 && forall i :: 0 <= i < |lines| ==> OpensBlock(lines[i], level) && !ClosesBlock(lines[i])
  }

  lemma LayoutItemOpensBlock(attrib: map<string, string>, level: nat)
    ensures OpeningLines(LayoutItemLines(attrib, Indent(level)), level)
  {
    var r := LayoutItemLines(attrib, Indent(level));
    var style := GetAttribute("LayoutItem", "style", attrib);
    var h, w := Render(GetAttribute("LayoutItem", "height", attrib)), Render(GetAttribute("LayoutItem", "width", attrib));
    var indent := Indent(level);
    if IsTrueFlag(Resolve("LayoutItem", "dock", attrib)) {
      if style == Some("line horizontal") {
        assert r == [Call(indent, "__item_line_dock_horizontal", [w])];
        CallOpensBlock(level, "__item_line_dock_horizontal", [w]);
      } else if style == Some("line vertical") {
        assert r == [Call(indent, "__item_line_dock_vertical", [h])];
        CallOpensBlock(level, "__item_line_dock_vertical", [h]);
      } else {
        assert r == [];
      }
    } else if style == Some("line horizontal") {
      assert r == [Call(indent, "__item_line_horizontal", [h, w])];
      CallOpensBlock(level, "__item_line_horizontal", [h, w]);
    } else if style == Some("line vertical") {
      assert r == [Call(indent, "__item_line_vertical", [h, w])];
      CallOpensBlock(level, "__item_line_vertical", [h, w]);
    } else if style == Some("horizontal") {
      assert r == [Call(indent, "__item_horizontal", [h, w])];
      CallOpensBlock(level, "__item_horizontal", [h, w]);
    } else if style == Some("vertical") {
      assert r == [Call(indent, "__item_vertical", [h, w])];
      CallOpensBlock(level, "__item_vertical", [h, w]);
    } else {
      assert r == [];
    }
  }

  lemma DockOpensBlock(attrib: map<string, string>, level: nat, canvas: Option<string>)
    ensures OpeningLines(DockLines(attrib, Indent(level), canvas), level)
  {
    var r := DockLines(attrib, Indent(level), canvas);
    var side := GetAttribute("Dock", "side", attrib);
    var c := Render(canvas);
    var w := Render(GetAttribute("Dock", "width", attrib));
    var h := Render(GetAttribute("Dock", "height", attrib));
    var m := Render(GetAttribute("Dock", "margin", attrib));
    if side == Some("top") {
      CallOpensBlock(level, "arm_2d_dock_top", [c, w, m]);
    } else if side == Some("bottom") {
      CallOpensBlock(level, "arm_2d_dock_bottom", [c, w, m]);
    } else if side == Some("left") {
      CallOpensBlock(level, "arm_2d_dock_left", [c, h, m]);
    } else if side == Some("right") {
      CallOpensBlock(level, "arm_2d_dock_right", [c, h, m]);
    } else if side == Some("general") {
      CallOpensBlock(level, "arm_2d_dock", [c, w, h, m]);
    } else if side == Some("vertical") {
      CallOpensBlock(level, "arm_2d_dock_vertical", [c, w, m]);
    } else if side == Some("horizontal") {
      CallOpensBlock(level, "arm_2d_dock_horizontal", [c, h, m]);
    } else {
      assert r == [];
    }
  }

  /** The closing line a node appends after its children: one for each of
      the five configured tags, whether or not an opening line was emitted. */
  function Closing(tag: string, level: nat): seq<string>
  {
    if Configured(tag) then [CloseLine(level)] else []
  }

  /** Exactly the configured tags close a block, at their own level. */
  lemma ClosingLines(tag: string, level: nat)
    ensures var r := Closing(tag, level);
            && |r| == (if Configured(tag) then 1 else 0)
            && forall i :: 0 <= i < |r| ==> ClosesBlock(r[i]) && LeadingSpaces(r[i]) == 4 * level
  {
  }
}
