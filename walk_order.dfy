/**
 * What the walk of `xml_to_c` emits, stated over the whole tree. The walk
 * is flattened into its pre-order sequence of events (a node's opening
 * step, then the events of its children in document order one level
 * deeper, then its closing step), and the walk is proved to be running
 * those events one after the other while threading the canvas name. From
 * that follow: which canvas name every line sees, when and with which
 * message the walk fails, how many `}` lines it writes, and how each
 * line is indented.
 */
module WalkOrder {
  import opened Wrappers
  import opened Text
  import opened Attributes
  import opened Generators
  import opened Walker

  /** One step of the walk: `process_tag` on entering a node, the closing
      brace (if any) on leaving it. */
  datatype Event = Enter(tag: string, attrib: map<string, string>, level: nat) | Leave(tag: string, level: nat)

  /** The events of `traverse(n, level)` in the order they happen. */
  function Events(n: Node, level: nat): seq<Event>
    decreases n, |n.children| + 1
  {
    [Enter(n.tag, n.attrib, level)] + ChildEvents(n, |n.children|, level + 1) + [Leave(n.tag, level)]
  }

  /** The events of the first `k` children of `n`, in document order. */
  function ChildEvents(n: Node, k: nat, level: nat): seq<Event>
    requires k <= |n.children|
    decreases n, k
  {
    if k == 0 then [] else ChildEvents(n, k - 1, level) + Events(n.children[k - 1], level)
  }

  /** What a single event does, given the canvas name in force. */
  function Perform(e: Event, canvas: Option<string>): Result<TagStep, string>
  {
    match e
    case Enter(tag, attrib, level) => ProcessTag(tag, attrib, level, canvas)
    case Leave(tag, level) => Ok(TagStep(Closing(tag, level), canvas))
  }

  /** Performing events one after the other from a canvas name; the first
      error stops the run. */
  function Run(es: seq<Event>, canvas: Option<string>): Result<Emitted, string>
  {
    if |es| == 0 then Ok(Emitted([], canvas))
    else
      match Perform(es[0], canvas)
      case Err(e) => Err(e)
      case Ok(step) => Chain(Emitted(step.lines, step.canvas), Run(es[1..], step.canvas))
  }

  /** Running two event sequences back to back is running the first, then
      the second from the canvas name the first left. */
  lemma {:induction false} RunAppend(a: seq<Event>, b: seq<Event>, canvas: Option<string>)
    ensures Run(a + b, canvas) ==
              match Run(a, canvas)
              case Err(e) => Err(e)
              case Ok(x) => Chain(x, Run(b, x.canvas))
    decreases |a|
  {
    if |a| == 0 {
      assert a + b == b;
      match Run(b, canvas)
      case Err(_) =>
      case Ok(y) => assert [] + y.lines == y.lines;
    } else {
      assert (a + b)[0] == a[0];
      assert (a + b)[1..] == a[1..] + b;
      match Perform(a[0], canvas)
      case Err(_) =>
      case Ok(step) =>
        RunAppend(a[1..], b, step.canvas);
        match Run(a[1..], step.canvas)
        case Err(_) =>
        case Ok(x) =>
          match Run(b, x.canvas)
          case Err(_) =>
          case Ok(y) => assert step.lines + x.lines + y.lines == step.lines + (x.lines + y.lines);
    }
  }

  /** The walk of a node is the run of its events. */
  lemma {:induction false} WalkIsRun(n: Node, level: nat, canvas: Option<string>)
    ensures Walk(n, level, canvas) == Run(Events(n, level), canvas)
    decreases n, |n.children| + 1
  {
    RunOfEvents(n, level, canvas);
    match ProcessTag(n.tag, n.attrib, level, canvas)
    case Err(_) =>
    case Ok(step) => ChildrenIsRun(n, |n.children|, level + 1, step.canvas);
  }

  /** The run of a node's events: its opening step, the run of its
      children's events from the canvas name that step leaves, then its
      closing lines. */
  lemma RunOfEvents(n: Node, level: nat, canvas: Option<string>)
    ensures Run(Events(n, level), canvas) ==
              match ProcessTag(n.tag, n.attrib, level, canvas)
              case Err(e) => Err(e)
              case Ok(step) =>
                match Run(ChildEvents(n, |n.children|, level + 1), step.canvas)
                case Err(e) => Err(e)
                case Ok(x) => Ok(Emitted(step.lines + x.lines + Closing(n.tag, level), x.canvas))
  {
    var enter := [Enter(n.tag, n.attrib, level)];
    var inner := ChildEvents(n, |n.children|, level + 1);
    var leave := [Leave(n.tag, level)];
    assert Events(n, level) == enter + (inner + leave);
    RunAppend(enter, inner + leave, canvas);
    RunSingle(enter[0], canvas);
    assert enter == [enter[0]];
    match ProcessTag(n.tag, n.attrib, level, canvas)
    case Err(_) =>
    case Ok(step) =>
      RunAppend(inner, leave, step.canvas);
      match Run(inner, step.canvas)
      case Err(_) =>
      case Ok(x) =>
        RunSingle(leave[0], x.canvas);
        assert leave == [leave[0]];
        AppendAssociates(step.lines, x.lines, Closing(n.tag, level));
  }

  /** Running one event performs it. */
  lemma RunSingle(e: Event, canvas: Option<string>)
    ensures Run([e], canvas) ==
              match Perform(e, canvas)
              case Err(err) => Err(err)
              case Ok(step) => Ok(Emitted(step.lines, step.canvas))
  {
    assert [e][1..] == [];
    match Perform(e, canvas)
    case Err(_) =>
    case Ok(step) => assert step.lines + [] == step.lines;
  }

  /** The walk of the first `k` children is the run of their events. */
  lemma {:induction false} ChildrenIsRun(n: Node, k: nat, level: nat, canvas: Option<string>)
    requires k <= |n.children|
    ensures WalkChildren(n, k, level, canvas) == Run(ChildEvents(n, k, level), canvas)
    decreases n, k
  {
    if k > 0 {
      var child := n.children[k - 1];
      var prefix := ChildEvents(n, k - 1, level);
      ChildrenIsRun(n, k - 1, level, canvas);
      assert ChildEvents(n, k, level) == prefix + Events(child, level);
      var earlier := Run(prefix, canvas);
      assert WalkChildren(n, k - 1, level, canvas) == earlier;
      match earlier
      case Err(e) =>
        RunAfterFailure(prefix, Events(child, level), canvas, e);
      case Ok(before) =>
        WalkIsRun(child, level, before.canvas);
        RunAfterPrefix(prefix, Events(child, level), canvas, before);
    }
  }

  /** A run that fails on a prefix fails with the same error. */
  lemma RunAfterFailure(a: seq<Event>, b: seq<Event>, canvas: Option<string>, e: string)
    requires Run(a, canvas) == Err(e)
    ensures Run(a + b, canvas) == Err(e)
  {
    RunAppend(a, b, canvas);
  }

  /** A run over a prefix that succeeds hands its canvas name to the rest. */
  lemma RunAfterPrefix(a: seq<Event>, b: seq<Event>, canvas: Option<string>, before: Emitted)
    requires Run(a, canvas) == Ok(before)
    ensures Run(a + b, canvas) == Chain(before, Run(b, before.canvas))
  {
    RunAppend(a, b, canvas);
  }


  // ---------------------------------------------------------- canvas name

  /** The canvas name after an event: a Canvas sets it to its name
      attribute; nothing else changes it. */
  function NextCanvas(e: Event, canvas: Option<string>): Option<string>
  {
    if e.Enter? && e.tag == "Canvas" then GetAttribute("Canvas", "name", e.attrib) else canvas
  }

  /** The canvas name after a sequence of events: that of the last Canvas
      among them, or the starting one if there is none. */
  function CanvasAfter(es: seq<Event>, canvas: Option<string>): Option<string>
  {
    if |es| == 0 then canvas else CanvasAfter(es[1..], NextCanvas(es[0], canvas))
  }

  /** A Canvas among the events decides the canvas name from then on:
      after the last Canvas, the name is that Canvas's, wherever it sits in
      the tree. */
  lemma {:induction false} CanvasAfterLast(es: seq<Event>, i: nat, canvas: Option<string>)
    requires i < |es| && es[i].Enter? && es[i].tag == "Canvas"
    requires forall j :: i < j < |es| ==> !(es[j].Enter? && es[j].tag == "Canvas")
    ensures CanvasAfter(es, canvas) == GetAttribute("Canvas", "name", es[i].attrib)
    decreases |es|
  {
    if i > 0 {
      CanvasAfterLast(es[1..], i - 1, NextCanvas(es[0], canvas));
    } else {
      CanvasAfterNone(es[1..], NextCanvas(es[0], canvas));
    }
  }

  /** Events without a Canvas leave the canvas name alone. */
  lemma {:induction false} CanvasAfterNone(es: seq<Event>, canvas: Option<string>)
    requires forall j :: 0 <= j < |es| ==> !(es[j].Enter? && es[j].tag == "Canvas")
    ensures CanvasAfter(es, canvas) == canvas
    decreases |es|
  {
    if |es| > 0 {
      assert !(es[0].Enter? && es[0].tag == "Canvas");
      CanvasAfterNone(es[1..], canvas);
    }
  }

  /** The canvas name a successful event leaves is `NextCanvas`. */
  lemma PerformCanvas(e: Event, canvas: Option<string>)
    requires Perform(e, canvas).Ok?
    ensures Perform(e, canvas).value.canvas == NextCanvas(e, canvas)
  {
    if e.Enter? {
      ProcessTagOutcome(e.tag, e.attrib, e.level, canvas);
    }
  }

  /** The canvas name at the end of a successful run is `CanvasAfter`. */
  lemma {:induction false} RunCanvas(es: seq<Event>, canvas: Option<string>)
    requires Run(es, canvas).Ok?
    ensures Run(es, canvas).value.canvas == CanvasAfter(es, canvas)
    decreases |es|
  {
    if |es| > 0 {
      PerformCanvas(es[0], canvas);
      RunCanvas(es[1..], Perform(es[0], canvas).value.canvas);
    }
  }

  /** Every event of a successful run is performed with the canvas name
      the events before it leave, and its lines sit in the output right
      after theirs. So an Align or Dock line names the most recent Canvas
      before it in document order, even one in a sibling subtree that has
      already been closed. */
  lemma EventInContext(es: seq<Event>, i: nat, canvas: Option<string>)
    requires i < |es| && Run(es, canvas).Ok?
    ensures var seen := CanvasAfter(es[..i], canvas);
            && Run(es[..i], canvas).Ok?
            && Perform(es[i], seen).Ok?
            && var before := Run(es[..i], canvas).value.lines;
               var own := Perform(es[i], seen).value.lines;
               var out := Run(es, canvas).value.lines;
               |before| + |own| <= |out| && out[|before|..|before| + |own|] == own
  {
    assert es == es[..i] + es[i..];
    RunAppend(es[..i], es[i..], canvas);
    var x := Run(es[..i], canvas).value;
    RunCanvas(es[..i], canvas);
    assert es[i..][0] == es[i];
    var step := Perform(es[i], x.canvas).value;
    var rest := Run(es[i..][1..], step.canvas).value;
    assert Run(es, canvas).value.lines == x.lines + (step.lines + rest.lines);
  }

  // ---------------------------------------------------------------- errors

  /** An event that raises: entering an Align whose type is unsupported. */
  predicate BadAlign(e: Event)
  {
    e.Enter? && e.tag == "Align" && !ValidAlignType(GetAttribute("Align", "type", e.attrib))
  }

  /** The message such an event raises. */
  function AlignError(e: Event): string
    requires e.Enter?
  {
    "Unsupported alignment type: " + Render(GetAttribute("Align", "type", e.attrib))
  }

  lemma PerformFails(e: Event, canvas: Option<string>)
    ensures Perform(e, canvas).Err? <==> BadAlign(e)
    ensures Perform(e, canvas).Err? ==> Perform(e, canvas).error == AlignError(e)
  {
    if e.Enter? {
      ProcessTagOutcome(e.tag, e.attrib, e.level, canvas);
    }
  }

  /** A run fails exactly when one of its events is an Align with an
      unsupported type, whatever the canvas names, and the error is the
      one the first such Align raises. */
  lemma {:induction false} RunFails(es: seq<Event>, canvas: Option<string>)
    ensures Run(es, canvas).Err? <==> exists i :: 0 <= i < |es| && BadAlign(es[i])
    ensures Run(es, canvas).Err? ==>
              exists i :: 0 <= i < |es| && BadAlign(es[i]) && (forall j :: 0 <= j < i ==> !BadAlign(es[j]))
                          && Run(es, canvas).error == AlignError(es[i])
    decreases |es|
  {
    if |es| > 0 {
      PerformFails(es[0], canvas);
      if !BadAlign(es[0]) {
        var next := Perform(es[0], canvas).value.canvas;
        RunFails(es[1..], next);
        if Run(es[1..], next).Err? {
          var i :| 0 <= i < |es[1..]| && BadAlign(es[1..][i]) && (forall j :: 0 <= j < i ==> !BadAlign(es[1..][j]))
                   && Run(es[1..], next).error == AlignError(es[1..][i]);
          assert es[i + 1] == es[1..][i];
          forall j | 0 <= j < i + 1
            ensures !BadAlign(es[j])
          {
            if j > 0 {
              assert es[j] == es[1..][j - 1];
            }
          }
        }
        if exists i :: 0 <= i < |es| && BadAlign(es[i]) {
          var i :| 0 <= i < |es| && BadAlign(es[i]);
          assert es[1..][i - 1] == es[i];
        }
      } else {
        assert BadAlign(es[0]);
      }
    }
  }

  /** The events of a tree include the Enter of every node; in particular
      a tree fails iff it holds an Align with an unsupported type. */
  lemma WalkFails(n: Node, level: nat, canvas: Option<string>)
    ensures Walk(n, level, canvas).Err? <==>
              exists i :: 0 <= i < |Events(n, level)| && BadAlign(Events(n, level)[i])
  {
    WalkIsRun(n, level, canvas);
    RunFails(Events(n, level), canvas);
  }

  // -------------------------------------------------------- closing braces

  /** The number of lines that close a block. */
  function Closers(lines: seq<string>): nat
  {
    if |lines| == 0 then 0 else (if ClosesBlock(lines[0]) then 1 else 0) + Closers(lines[1..])
  }

  lemma {:induction false} ClosersAppend(a: seq<string>, b: seq<string>)
    ensures Closers(a + b) == Closers(a) + Closers(b)
    decreases |a|
  {
    if |a| > 0 {
      assert (a + b)[0] == a[0];
      assert (a + b)[1..] == a[1..] + b;
      ClosersAppend(a[1..], b);
    } else {
      assert a + b == b;
    }
  }

  /** The number of nodes of a tree whose tag is one of the five
      configured tags. */
  function ConfiguredNodes(n: Node): nat
    decreases n, |n.children| + 1
  {
    (if Configured(n.tag) then 1 else 0) + ConfiguredChildren(n, |n.children|)
  }

  function ConfiguredChildren(n: Node, k: nat): nat
    requires k <= |n.children|
    decreases n, k
  {
    if k == 0 then 0 else ConfiguredChildren(n, k - 1) + ConfiguredNodes(n.children[k - 1])
  }

  /** The walk writes one `}` line per configured node, whether or not
      that node wrote an opening line: a Dock with an unknown side or a
      LayoutItem with an unmatched style leaves its `}` unpaired. */
  lemma {:induction false} WalkBraces(n: Node, level: nat, canvas: Option<string>)
    requires Walk(n, level, canvas).Ok?
    ensures Closers(Walk(n, level, canvas).value.lines) == ConfiguredNodes(n)
    decreases n, |n.children| + 1
  {
    var step := ProcessTag(n.tag, n.attrib, level, canvas).value;
    ProcessTagLines(n.tag, n.attrib, level, canvas);
    OpeningLinesNoClosers(step.lines, level);
    ChildrenBraces(n, |n.children|, level + 1, step.canvas);
    var inner := WalkChildren(n, |n.children|, level + 1, step.canvas).value;
    ClosersAppend(step.lines, inner.lines);
    ClosersAppend(step.lines + inner.lines, Closing(n.tag, level));
    ClosingLines(n.tag, level);
    assert Closers(Closing(n.tag, level)) == if Configured(n.tag) then 1 else 0 by {
      if Configured(n.tag) {
        assert Closing(n.tag, level)[1..] == [];
      }
    }
  }

  lemma {:induction false} ChildrenBraces(n: Node, k: nat, level: nat, canvas: Option<string>)
    requires k <= |n.children| && WalkChildren(n, k, level, canvas).Ok?
    ensures Closers(WalkChildren(n, k, level, canvas).value.lines) == ConfiguredChildren(n, k)
    decreases n, k
  {
    if k > 0 {
      ChildrenBraces(n, k - 1, level, canvas);
      var before := WalkChildren(n, k - 1, level, canvas).value;
      WalkBraces(n.children[k - 1], level, before.canvas);
      ClosersAppend(before.lines, Walk(n.children[k - 1], level, before.canvas).value.lines);
    }
  }

  lemma OpeningLinesNoClosers(lines: seq<string>, level: nat)
    requires OpeningLines(lines, level)
    ensures Closers(lines) == 0
  {
    if |lines| > 0 {
      assert lines[1..] == [];
    }
  }

  // ------------------------------------------------------------ structure

  /** A tag outside the table writes nothing of its own: its walk is the
      walk of its children one level deeper (a DockItem's children are
      still walked). */
  lemma UnconfiguredIsTransparent(n: Node, level: nat, canvas: Option<string>)
    requires !Configured(n.tag)
    ensures Walk(n, level, canvas) == WalkChildren(n, |n.children|, level + 1, canvas)
  {
    ProcessTagOutcome(n.tag, n.attrib, level, canvas);
    ProcessTagLines(n.tag, n.attrib, level, canvas);
    match WalkChildren(n, |n.children|, level + 1, canvas)
    case Err(_) =>
    case Ok(inner) => assert [] + inner.lines + [] == inner.lines;
  }

  /** A Dock whose side the walk does not know writes only a `}` after its
      children. */
  lemma DockWithUnknownSide(n: Node, level: nat, canvas: Option<string>)
    requires n.tag == "Dock"
    requires var side := GetAttribute("Dock", "side", n.attrib);
             !(side.Some? && side.value in {"top", "bottom", "left", "right", "general", "vertical", "horizontal"})
    ensures Walk(n, level, canvas) ==
              match WalkChildren(n, |n.children|, level + 1, canvas)
              case Err(e) => Err(e)
              case Ok(inner) => Ok(Emitted(inner.lines + [CloseLine(level)], inner.canvas))
  {
    DockLineCount(n.attrib, Indent(level), canvas);
    assert ProcessTag(n.tag, n.attrib, level, canvas) == Ok(TagStep([], canvas));
    assert Closing(n.tag, level) == [CloseLine(level)];
    match WalkChildren(n, |n.children|, level + 1, canvas)
    case Err(_) =>
    case Ok(inner) => assert [] + inner.lines == inner.lines;
  }

  // ----------------------------------------------------------- indentation

  /** The lines of one event are indented by four spaces per level of the
      node it belongs to. */
  lemma EventIndent(e: Event, canvas: Option<string>)
    requires Perform(e, canvas).Ok?
    ensures forall i :: 0 <= i < |Perform(e, canvas).value.lines| ==>
              LeadingSpaces(Perform(e, canvas).value.lines[i]) == 4 * e.level
  {
    match e
    case Enter(tag, attrib, level) =>
      ProcessTagLines(tag, attrib, level, canvas);
    case Leave(tag, level) =>
      ClosingLines(tag, level);
  }

  /** The events of `traverse(n, level)` begin with entering `n` and end
      with leaving it, both at `level`, and every event in between belongs
      to a node deeper down. */
  lemma {:induction false} EventLevels(n: Node, level: nat)
    ensures var es := Events(n, level);
            && es[0] == Enter(n.tag, n.attrib, level)
            && es[|es| - 1] == Leave(n.tag, level)
            && forall i :: 0 < i < |es| - 1 ==> es[i].level > level
    decreases n, |n.children| + 1
  {
    var es := Events(n, level);
    var inner := ChildEvents(n, |n.children|, level + 1);
    ChildEventLevels(n, |n.children|, level + 1);
    assert es == [Enter(n.tag, n.attrib, level)] + inner + [Leave(n.tag, level)];
    forall i | 0 < i < |es| - 1
      ensures es[i].level > level
    {
      assert es[i] == inner[i - 1];
    }
  }

  lemma {:induction false} ChildEventLevels(n: Node, k: nat, level: nat)
    requires k <= |n.children|
    ensures forall i :: 0 <= i < |ChildEvents(n, k, level)| ==> ChildEvents(n, k, level)[i].level >= level
    decreases n, k
  {
    if k > 0 {
      var before: seq<Event> := ChildEvents(n, k - 1, level);
      var own: seq<Event> := Events(n.children[k - 1], level);
      var all: seq<Event> := before + own;
      ChildEventLevels(n, k - 1, level);
      EventLevels(n.children[k - 1], level);
      forall i | 0 <= i < |all|
        ensures all[i].level >= level
      {
        if i >= |before| {
          assert all[i] == own[i - |before|];
        } else {
          assert all[i] == before[i];
        }
      }
    }
  }

  // ---------------------------------------------------------------- output

  /** The file holds the lines joined by newlines with no newline after
      the last one, and it splits back into exactly those lines when no
      attribute value carried a newline. */
  lemma ConvertText(root: Node)
    requires Walk(root, 0, InitialCanvas).Ok?
    ensures var lines := Walk(root, 0, InitialCanvas).value.lines;
            && Convert(root) == Ok(Join(lines, "\n"))
            && (|lines| > 0 ==>
                  var text, last := Join(lines, "\n"), lines[|lines| - 1];
                  |text| >= |last| && text[|text| - |last|..] == last)
            && (|lines| > 0 && (forall i :: 0 <= i < |lines| ==> '\n' !in lines[i]) ==>
                  Split(Join(lines, "\n"), '\n') == lines)
  {
    var lines := Walk(root, 0, InitialCanvas).value.lines;
    if |lines| > 0 {
      JoinEndsWithLast(lines, "\n");
      if forall i :: 0 <= i < |lines| ==> '\n' !in lines[i] {
        SplitJoin(lines, '\n');
      }
    }
  }
}
