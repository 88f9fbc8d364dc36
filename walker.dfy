/**
 * The tree walk of `xml_to_c`: a depth-first, pre-order traversal of the
 * parsed element tree that appends each node's opening line, walks its
 * children one level deeper, and appends a closing `}` for the five
 * configured tags, threading one ambient canvas name through the whole
 * walk. `Walk` is the specification as a function; `Transducer` is the
 * walk as the source performs it, appending to a line buffer and updating
 * the canvas name in place.
 */
module Walker {
  import opened Wrappers
  import opened Text
  import opened Attributes
  import opened Generators

  /** A parsed XML element: its tag, its attributes (unique keys) and its
      children in document order. */
  datatype Node = Node(tag: string, attrib: map<string, string>, children: seq<Node>)

  /** What walking part of the tree produces: the lines appended, in
      order, and the ambient canvas name afterwards. */
  datatype Emitted = Emitted(lines: seq<string>, canvas: Option<string>)

  /** The canvas name in force before any Canvas node is met. */
  const InitialCanvas: Option<string> := Some("__canvas")

  /** `traverse(node, level)`: the node's opening line, then its children
      at `level + 1`, then its closing line. */
  function Walk(n: Node, level: nat, canvas: Option<string>): Result<Emitted, string>
    decreases n, |n.children| + 1
  {
    match ProcessTag(n.tag, n.attrib, level, canvas)
    case Err(e) => Err(e)
    case Ok(step) =>
      match WalkChildren(n, |n.children|, level + 1, step.canvas)
      case Err(e) => Err(e)
      case Ok(inner) => Ok(Emitted(step.lines + inner.lines + Closing(n.tag, level), inner.canvas))
  }

  /** The first `k` children of `n`, walked in document order at `level`,
      each starting from the canvas name the previous one left. */
  function WalkChildren(n: Node, k: nat, level: nat, canvas: Option<string>): Result<Emitted, string>
    requires k <= |n.children|
    decreases n, k
  {
    if k == 0 then Ok(Emitted([], canvas))
    else
      match WalkChildren(n, k - 1, level, canvas)
      case Err(e) => Err(e)
      case Ok(before) => Chain(before, Walk(n.children[k - 1], level, before.canvas))
  }

  /** `first` followed by `rest`: their lines in order, and the canvas
      name `rest` leaves; an error in `rest` is the result. */
  function Chain(first: Emitted, rest: Result<Emitted, string>): Result<Emitted, string>
  {
    match rest
    case Err(e) => Err(e)
    case Ok(r) => Ok(Emitted(first.lines + r.lines, r.canvas))
  }

  /** A node whose opening step succeeded goes on with its children. */
  lemma WalkAfterStep(n: Node, level: nat, canvas: Option<string>)
    requires ProcessTag(n.tag, n.attrib, level, canvas).Ok?
    ensures var step := ProcessTag(n.tag, n.attrib, level, canvas).value;
            Walk(n, level, canvas) ==
              match WalkChildren(n, |n.children|, level + 1, step.canvas)
              case Err(e) => Err(e)
              case Ok(inner) => Ok(Emitted(step.lines + inner.lines + Closing(n.tag, level), inner.canvas))
  {
  }

  /** One step of the walk over children: child `j` continues from the
      state the first `j` children left. */
  lemma WalkChildrenStep(n: Node, j: nat, level: nat, canvas: Option<string>, before: Emitted,
                         child: Result<Emitted, string>)
    requires j < |n.children|
    requires WalkChildren(n, j, level, canvas) == Ok(before)
    requires child == Walk(n.children[j], level, before.canvas)
    ensures WalkChildren(n, j + 1, level, canvas) == Chain(before, child)
  {
  }

  /** Once a child has raised, walking further children raises the same error. */
  lemma {:induction false} ChildErrorPersists(n: Node, j: nat, k: nat, level: nat, canvas: Option<string>)
    requires j <= k <= |n.children|
    requires WalkChildren(n, j, level, canvas).Err?
    ensures WalkChildren(n, k, level, canvas) == WalkChildren(n, j, level, canvas)
    decreases k
  {
    if k > j {
      ChildErrorPersists(n, j, k - 1, level, canvas);
    }
  }

  /** `xml_to_c` after parsing: the text written to the output file, or the
      error that aborts the run before the file is opened. */
  function Convert(root: Node): Result<string, string>
  {
    match Walk(root, 0, InitialCanvas)
    case Err(e) => Err(e)
    case Ok(out) => Ok(Join(out.lines, "\n"))
  }

  /** The state `xml_to_c` keeps during the walk: the `c_code` buffer and
      the `nonlocal canvas_name`. */
  class Transducer {
    var lines: seq<string>
    var canvasName: Option<string>

    constructor ()
      ensures lines == [] && canvasName == InitialCanvas
    {
      lines := [];
      canvasName := InitialCanvas;
    }

    /** `process_tag`: append the node's opening line, if any, and update
        the canvas name for a Canvas; an unsupported Align type raises. */
    method ProcessTag(tag: string, attrib: map<string, string>, level: nat) returns (error: Option<string>)
      modifies this
      ensures match Generators.ProcessTag(tag, attrib, level, old(canvasName))
              case Err(e) => error == Some(e)
              case Ok(step) => error == None && lines == old(lines) + step.lines && canvasName == step.canvas
    {
      error := None;
      var indent := Indent(level);
      if tag == "Canvas" {
        AppendCanvas(attrib, indent);
      } else if tag == "Align" {
        error := AppendAlign(attrib, indent);
      } else if tag == "Layout" {
        var layoutCall := LayoutCall(tag, attrib, indent);
        lines := lines + [layoutCall.value];
      } else if tag == "LayoutItem" {
        AppendLayoutItem(attrib, indent);
      } else if tag == "Dock" {
        AppendDock(attrib, indent);
      }
    }

    /** The Canvas branch of `process_tag`: the canvas name becomes the
        node's name attribute. */
    method AppendCanvas(attrib: map<string, string>, indent: string)
      modifies this
      ensures lines == old(lines) + [CanvasLine(attrib, indent)]
      ensures canvasName == GetAttribute("Canvas", "name", attrib)
    {
      var name := GetAttribute("Canvas", "name", attrib);
      var target := GetAttribute("Canvas", "target", attrib);
      canvasName := name;
      lines := lines + [Call(indent, "arm_2d_canvas", [Render(target), Render(name)])];
    }

    /** The Align branch of `process_tag`. */
    method AppendAlign(attrib: map<string, string>, indent: string) returns (error: Option<string>)
      modifies this
      ensures var call := AlignCall(GetAttribute("Align", "type", attrib), indent, old(canvasName),
                                    GetAttribute("Align", "width", attrib), GetAttribute("Align", "height", attrib));
              match call
              case Err(e) => error == Some(e)
              case Ok(line) => error == None && lines == old(lines) + [line] && canvasName == old(canvasName)
    {
      error := None;
      var type_ := GetAttribute("Align", "type", attrib);
      var width := GetAttribute("Align", "width", attrib);
      var height := GetAttribute("Align", "height", attrib);
      var call := AlignCall(type_, indent, canvasName, width, height);
      match call {
        case Err(e) => error := Some(e);
        case Ok(line) => lines := lines + [line];
      }
    }

    /** The LayoutItem branch of `process_tag`. */
    method AppendLayoutItem(attrib: map<string, string>, indent: string)
      modifies this
      ensures lines == old(lines) + LayoutItemLines(attrib, indent) && canvasName == old(canvasName)
    {
      var style := GetAttribute("LayoutItem", "style", attrib);
      var height := Render(GetAttribute("LayoutItem", "height", attrib));
      var width := Render(GetAttribute("LayoutItem", "width", attrib));
      var dock := Resolve("LayoutItem", "dock", attrib);
      if IsTrueFlag(dock) {
        if style == Some("line horizontal") {
          lines := lines + [Call(indent, "__item_line_dock_horizontal", [width])];
        }
        if style == Some("line vertical") {
          lines := lines + [Call(indent, "__item_line_dock_vertical", [height])];
        }
      } else {
        if style == Some("line horizontal") {
          lines := lines + [Call(indent, "__item_line_horizontal", [height, width])];
        }
        if style == Some("line vertical") {
          lines := lines + [Call(indent, "__item_line_vertical", [height, width])];
        }
        if style == Some("horizontal") {
          lines := lines + [Call(indent, "__item_horizontal", [height, width])];
        }
        if style == Some("vertical") {
          lines := lines + [Call(indent, "__item_vertical", [height, width])];
        }
      }
      LayoutItemArguments(attrib, indent);
      LayoutItemLineCount(attrib, indent);
    }

    /** The Dock branch of `process_tag`. */
    method AppendDock(attrib: map<string, string>, indent: string)
      modifies this
      ensures lines == old(lines) + DockLines(attrib, indent, old(canvasName)) && canvasName == old(canvasName)
    {
      var side := GetAttribute("Dock", "side", attrib);
      var c := Render(canvasName);
      var width := Render(GetAttribute("Dock", "width", attrib));
      var height := Render(GetAttribute("Dock", "height", attrib));
      var margin := Render(GetAttribute("Dock", "margin", attrib));
      if side == Some("top") {
        lines := lines + [Call(indent, "arm_2d_dock_top", [c, width, margin])];
      } else if side == Some("bottom") {
        lines := lines + [Call(indent, "arm_2d_dock_bottom", [c, width, margin])];
      } else if side == Some("left") {
        lines := lines + [Call(indent, "arm_2d_dock_left", [c, height, margin])];
      } else if side == Some("right") {
        lines := lines + [Call(indent, "arm_2d_dock_right", [c, height, margin])];
      } else if side == Some("general") {
        lines := lines + [Call(indent, "arm_2d_dock", [c, width, height, margin])];
      } else if side == Some("vertical") {
        lines := lines + [Call(indent, "arm_2d_dock_vertical", [c, width, margin])];
      } else if side == Some("horizontal") {
        lines := lines + [Call(indent, "arm_2d_dock_horizontal", [c, height, margin])];
      }
    }

    /** `traverse`: process the node, walk its children one level deeper
        in document order, then close the block of a configured tag. An
        error raised anywhere stops the walk. */
    method Traverse(node: Node, level: nat) returns (error: Option<string>)
      modifies this
      decreases node, 1
      ensures Reflects(Walk(node, level, old(canvasName)), error, old(lines), lines, canvasName)
    {
      ghost var before := lines;
      error := ProcessTag(node.tag, node.attrib, level);
      if error.Some? {
        return;
      }
      ghost var step := Generators.ProcessTag(node.tag, node.attrib, level, old(canvasName)).value;
      WalkAfterStep(node, level, old(canvasName));
      error := TraverseChildren(node, level + 1);
      if error.Some? {
        return;
      }
      ghost var inner := WalkChildren(node, |node.children|, level + 1, step.canvas).value;
      CloseBlock(node.tag, level);
      AppendAssociates(before, step.lines, inner.lines);
      AppendAssociates(before, step.lines + inner.lines, Closing(node.tag, level));
    }

    /** The closing brace `traverse` writes after the children of a configured tag. */
    method CloseBlock(tag: string, level: nat)
      modifies this
      ensures lines == old(lines) + Closing(tag, level) && canvasName == old(canvasName)
    {
      if Configured(tag) {
        lines := lines + [Indent(level) + "}"];
      }
    }

    /** The `for child in node` loop of `traverse`: every child in document
        order at the given level, each continuing from the canvas name the
        previous one left. */
    method TraverseChildren(node: Node, level: nat) returns (error: Option<string>)
      modifies this
      decreases node, 0
      ensures Reflects(WalkChildren(node, |node.children|, level, old(canvasName)), error, old(lines), lines, canvasName)
    {
      ghost var start, initial := canvasName, lines;
      error := None;
      var i := 0;
      ghost var done := Emitted([], start);
      while i < |node.children|
        invariant 0 <= i <= |node.children|
        invariant WalkChildren(node, i, level, start) == Ok(done)
        invariant Reflects(Ok(done), error, initial, lines, canvasName)
      {
        ghost var child := Walk(node.children[i], level, done.canvas);
        error := Traverse(node.children[i], level);
        WalkChildrenStep(node, i, level, start, done, child);
        if error.Some? {
          ChildErrorPersists(node, i + 1, |node.children|, level, start);
          return;
        }
        AppendAssociates(initial, done.lines, child.value.lines);
        done := Emitted(done.lines + child.value.lines, child.value.canvas);
        i := i + 1;
      }
    }
  }

  /** The buffer and canvas name after part of the walk, given what the
      specification says that part yields from `start`: the same error, or
      no error, the yielded lines appended to `start` and the canvas name
      it leaves. */
  ghost predicate Reflects(r: Result<Emitted, string>, error: Option<string>, start: seq<string>,
                           lines: seq<string>, canvas: Option<string>)
  {
    match r
    case Err(e) => error == Some(e)
    case Ok(out) => error == None && lines == start + out.lines && canvas == out.canvas
  }

  /** Appending two pieces one after the other appends their concatenation. */
  lemma AppendAssociates<T>(a: seq<T>, b: seq<T>, c: seq<T>)
    ensures a + b + c == a + (b + c)
  {
  }

  /** `xml_to_c` after parsing: walk the tree from level 0 with the initial
      canvas name and join the lines with newlines. */
  method XmlToC(root: Node) returns (r: Result<string, string>)
    ensures r == Convert(root)
  {
    var t := new Transducer();
    var error := t.Traverse(root, 0);
    if error.Some? {
      return Err(error.value);
    }
    assert t.lines == Walk(root, 0, InitialCanvas).value.lines;
    r := Ok(Join(t.lines, "\n"));
  }
}
