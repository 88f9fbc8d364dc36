/** Concrete walks of small trees, worked out against the model. */
module Scenarios {
  import opened Wrappers
  import opened Text
  import opened Attributes
  import opened Generators
  import opened Walker

  /** A node without children emits its own lines followed by its closing line. */
  lemma LeafWalk(n: Node, level: nat, canvas: Option<string>)
    requires n.children == [] && ProcessTag(n.tag, n.attrib, level, canvas).Ok?
    ensures var step := ProcessTag(n.tag, n.attrib, level, canvas).value;
            Walk(n, level, canvas) == Ok(Emitted(step.lines + Closing(n.tag, level), step.canvas))
  {
    var step := ProcessTag(n.tag, n.attrib, level, canvas).value;
    WalkAfterStep(n, level, canvas);
    assert WalkChildren(n, 0, level + 1, step.canvas) == Ok(Emitted([], step.canvas));
    assert step.lines + [] + Closing(n.tag, level) == step.lines + Closing(n.tag, level);
  }

  /** A node with one child: its own lines, the child's one level deeper,
      then its closing line; the canvas name is the one the child leaves. */
  lemma OneChildWalk(n: Node, level: nat, canvas: Option<string>, step: TagStep, only: Emitted)
    requires |n.children| == 1
    requires ProcessTag(n.tag, n.attrib, level, canvas) == Ok(step)
    requires Walk(n.children[0], level + 1, step.canvas) == Ok(only)
    ensures Walk(n, level, canvas) == Ok(Emitted(step.lines + only.lines + Closing(n.tag, level), only.canvas))
  {
    WalkAfterStep(n, level, canvas);
    WalkChildrenStep(n, 0, level + 1, step.canvas, Emitted([], step.canvas), Ok(only));
    assert [] + only.lines == only.lines;
  }

  /** A node with two children: the second child starts from the canvas
      name the first one leaves. */
  lemma TwoChildWalk(n: Node, level: nat, canvas: Option<string>, step: TagStep, first: Emitted, second: Emitted)
    requires |n.children| == 2
    requires ProcessTag(n.tag, n.attrib, level, canvas) == Ok(step)
    requires Walk(n.children[0], level + 1, step.canvas) == Ok(first)
    requires Walk(n.children[1], level + 1, first.canvas) == Ok(second)
    ensures Walk(n, level, canvas) ==
              Ok(Emitted(step.lines + first.lines + second.lines + Closing(n.tag, level), second.canvas))
  {
    WalkAfterStep(n, level, canvas);
    WalkChildrenStep(n, 0, level + 1, step.canvas, Emitted([], step.canvas), Ok(first));
    assert [] + first.lines == first.lines;
    WalkChildrenStep(n, 1, level + 1, step.canvas, first, Ok(second));
    AppendAssociates(step.lines, first.lines, second.lines);
  }

  // ------------------------------------------------- the canvas name leaks

  const LeakCanvas := Node("Canvas", map["name" := "c"], [])
  const LeakDock := Node("Dock", map["side" := "top", "width" := "9"], [])
  const LeakScene := Node("Scene", map[], [LeakCanvas, LeakDock])

  /** A childless `<Canvas name="c"/>` emits `arm_2d_canvas(None, c) {` and
      its `}`, and leaves the canvas name `c`. */
  lemma CanvasLeaf()
    ensures Walk(LeakCanvas, 1, InitialCanvas)
            == Ok(Emitted([Call(Indent(1), "arm_2d_canvas", ["None", "c"]), CloseLine(1)], Some("c")))
  {
    var line := Call(Indent(1), "arm_2d_canvas", ["None", "c"]);
    assert ProcessTag("Canvas", LeakCanvas.attrib, 1, InitialCanvas) == Ok(TagStep([line], Some("c")));
    LeafWalk(LeakCanvas, 1, InitialCanvas);
    assert Closing("Canvas", 1) == [CloseLine(1)];
    assert [line] + [CloseLine(1)] == [line, CloseLine(1)];
  }

  /** A childless top Dock under the canvas name `c` takes the default
      margin: `arm_2d_dock_top(c, 9, 0) {` and its `}`. */
  lemma DockLeaf()
    ensures Walk(LeakDock, 1, Some("c"))
            == Ok(Emitted([Call(Indent(1), "arm_2d_dock_top", ["c", "9", "0"]), CloseLine(1)], Some("c")))
  {
    var line := Call(Indent(1), "arm_2d_dock_top", ["c", "9", "0"]);
    assert ProcessTag("Dock", LeakDock.attrib, 1, Some("c")) == Ok(TagStep([line], Some("c")));
    LeafWalk(LeakDock, 1, Some("c"));
    assert Closing("Dock", 1) == [CloseLine(1)];
    assert [line] + [CloseLine(1)] == [line, CloseLine(1)];
  }

  /** The Dock after the Canvas is its sibling, outside the Canvas's
      subtree, yet it uses the Canvas's name; the unconfigured root emits
      nothing of its own. */
  lemma CanvasNameLeaksToSibling()
    ensures Walk(LeakScene, 0, InitialCanvas)
            == Ok(Emitted([Call(Indent(1), "arm_2d_canvas", ["None", "c"]), CloseLine(1),
                           Call(Indent(1), "arm_2d_dock_top", ["c", "9", "0"]), CloseLine(1)], Some("c")))
  {
    CanvasLeaf();
    DockLeaf();
    assert ProcessTag("Scene", map[], 0, InitialCanvas) == Ok(TagStep([], InitialCanvas));
    TwoChildWalk(LeakScene, 0, InitialCanvas, TagStep([], InitialCanvas),
                 Walk(LeakCanvas, 1, InitialCanvas).value, Walk(LeakDock, 1, Some("c")).value);
    assert Closing("Scene", 0) == [];
    var canvasLine, dockLine := Call(Indent(1), "arm_2d_canvas", ["None", "c"]), Call(Indent(1), "arm_2d_dock_top", ["c", "9", "0"]);
    assert [] + [canvasLine, CloseLine(1)] + [dockLine, CloseLine(1)] + []
           == [canvasLine, CloseLine(1), dockLine, CloseLine(1)];
  }

  // ------------------------------------------- a block closes after its child

  const CentreAlign := Node("Align", map["type" := "centre", "width" := "10", "height" := "20"], [])
  const ScreenCanvas := Node("Canvas", map["name" := "cv", "target" := "scr"], [CentreAlign])

  /** The Align inside the Canvas uses the Canvas's name. */
  lemma CentreAlignLeaf()
    ensures Walk(CentreAlign, 1, Some("cv"))
            == Ok(Emitted([Call(Indent(1), "arm_2d_align_centre", ["cv", "10", "20"]), CloseLine(1)], Some("cv")))
  {
    var line := Call(Indent(1), "arm_2d_align_centre", ["cv", "10", "20"]);
    assert ProcessTag("Align", CentreAlign.attrib, 1, Some("cv")) == Ok(TagStep([line], Some("cv")));
    LeafWalk(CentreAlign, 1, Some("cv"));
    assert Closing("Align", 1) == [CloseLine(1)];
    assert [line] + [CloseLine(1)] == [line, CloseLine(1)];
  }

  /** `<Canvas name="cv" target="scr"><Align type="centre" width="10" height="20"/></Canvas>`:
      the Canvas line, the Align block one level deeper, then the Canvas's
      own `}` at level 0 after its child's lines. */
  lemma AlignUnderCanvas()
    ensures Walk(ScreenCanvas, 0, InitialCanvas)
            == Ok(Emitted([Call("", "arm_2d_canvas", ["scr", "cv"]),
                           Call(Indent(1), "arm_2d_align_centre", ["cv", "10", "20"]), CloseLine(1),
                           CloseLine(0)], Some("cv")))
  {
    CentreAlignLeaf();
    var line := Call("", "arm_2d_canvas", ["scr", "cv"]);
    ScreenCanvasStep();
    OneChildWalk(ScreenCanvas, 0, InitialCanvas, TagStep([line], Some("cv")), Walk(CentreAlign, 1, Some("cv")).value);
    assert Closing("Canvas", 0) == [CloseLine(0)];
    var align := Call(Indent(1), "arm_2d_align_centre", ["cv", "10", "20"]);
    assert [line] + [align, CloseLine(1)] + [CloseLine(0)] == [line, align, CloseLine(1), CloseLine(0)];
  }

  lemma ScreenCanvasStep()
    ensures ProcessTag("Canvas", ScreenCanvas.attrib, 0, InitialCanvas)
            == Ok(TagStep([Call("", "arm_2d_canvas", ["scr", "cv"])], Some("cv")))
  {
    assert Indent(0) == "";
  }

  /** The text written for that tree: four lines, no trailing newline. */
  lemma AlignUnderCanvasText()
    ensures Convert(ScreenCanvas)
            == Ok("arm_2d_canvas(scr, cv) {" + "\n" + ("    " + "arm_2d_align_centre(cv, 10, 20) {") + "\n"
                  + "    }" + "\n" + "}")
  {
    AlignUnderCanvas();
    var a, b, c, d := Call("", "arm_2d_canvas", ["scr", "cv"]),
                      Call(Indent(1), "arm_2d_align_centre", ["cv", "10", "20"]), CloseLine(1), CloseLine(0);
    JoinFour(a, b, c, d, "\n");
    CanvasLineText();
    AlignLineText();
    ClosingTexts();
    assert Join([a, b, c, d], "\n") == a + "\n" + b + "\n" + c + "\n" + d;
  }

  lemma JoinFour(a: string, b: string, c: string, d: string, sep: string)
    ensures Join([a, b, c, d], sep) == a + sep + b + sep + c + sep + d
  {
    JoinCons(a, [b, c, d], sep);
    assert [a, b, c, d] == [a] + [b, c, d];
    JoinCons(b, [c, d], sep);
    assert [b, c, d] == [b] + [c, d];
    JoinCons(c, [d], sep);
    assert [c, d] == [c] + [d];
  }

  lemma CanvasLineText()
    ensures Call("", "arm_2d_canvas", ["scr", "cv"]) == "arm_2d_canvas(scr, cv) {"
  {
    CallShapes("", "arm_2d_canvas", "scr", "cv", "", "");
  }

  lemma AlignLineText()
    ensures Call(Indent(1), "arm_2d_align_centre", ["cv", "10", "20"]) == "    " + "arm_2d_align_centre(cv, 10, 20) {"
  {
    IndentOne();
    CallShapes("    ", "arm_2d_align_centre", "cv", "10", "20", "");
    assert "arm_2d_align_centre" + "(" + "cv" + ", " + "10" + ", " + "20" + ") {" == "arm_2d_align_centre(cv, 10, 20) {";
  }

  lemma IndentOne()
    ensures Indent(1) == "    "
  {
  }

  lemma ClosingTexts()
    ensures CloseLine(1) == "    }" && CloseLine(0) == "}"
  {
    IndentOne();
    assert Indent(0) == "";
  }
}
