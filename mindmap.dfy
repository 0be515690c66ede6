/**
 * The mind-map view of the Study Lab (`MindMapView`): `cleanName`, the
 * sanitiser for node names, and `generateMermaidText`, which writes the
 * tree out in Mermaid's `mindmap` syntax, one indented line per node in
 * pre-order. Rendering the text is the Mermaid library's business; here it
 * is an outcome handed in from outside.
 */
module MindMap {
  import opened Wrappers
  import opened Json

  /** The characters `cleanName` removes: `( ) { } [ ]` and the double quote. */
  predicate Forbidden(c: char) {
    c == '(' || c == ')' || c == '{' || c == '}' || c == '[' || c == ']' || c == '"'
  }

  /** A name fit for a Mermaid line: at most 50 characters, none of them forbidden. */
  predicate Clean(name: string) {
    |name| <= 50 && forall c :: c in name ==> !Forbidden(c)
  }

  /** `name.replace(/[(){}[\]"]/g, '')`. */
  function Strip(s: string): (r: string)
    ensures |r| <= |s|
  {
    if s == [] then ""
    else (if Forbidden(s[0]) then "" else [s[0]]) + Strip(s[1..])
  }

  /** `Strip` keeps exactly the characters that are not forbidden. */
  lemma {:induction false} StripChars(s: string)
    ensures forall c :: c in Strip(s) <==> c in s && !Forbidden(c)
  {
    if s != [] {
      StripChars(s[1..]);
      assert s == [s[0]] + s[1..];
    }
  }

  /** Removing the forbidden characters from a string that has none changes nothing. */
  lemma {:induction false} StripKeepsClean(s: string)
    requires forall c :: c in s ==> !Forbidden(c)
    ensures Strip(s) == s
  {
    if s != [] {
      assert s[0] in s;
      assert forall c :: c in s[1..] ==> c in s;
      StripKeepsClean(s[1..]);
      assert s == [s[0]] + s[1..];
    }
  }

  /**
   * `cleanName(name)`: "Unknown" for a falsy name; for a string, the
   * forbidden characters removed and the first 50 of the rest kept. Any
   * other truthy value has no `replace` method: the TypeError is `None`.
   */
  function CleanName(name: Value): (r: Option<string>)
    ensures !Truthy(name) ==> r == Some("Unknown")
    ensures r.None? <==> Truthy(name) && !name.Str?
    ensures r.Some? ==> Clean(r.value)
    ensures Truthy(name) && name.Str? ==>
      r.Some? && r.value <= Strip(name.s) &&
      |r.value| == (if |Strip(name.s)| < 50 then |Strip(name.s)| else 50)
  {
    if !Truthy(name) then Some("Unknown")
    else if name.Str? then
      var stripped := Strip(name.s);
      var kept := if |stripped| < 50 then stripped else stripped[..50];
      StripChars(name.s);
      assert forall c :: c in kept ==> c in stripped;
      Some(kept)
    else None
  }

  /** A clean, non-empty name is left as it is. */
  lemma CleanNameFixesClean(r: string)
    requires Clean(r) && r != ""
    ensures CleanName(Str(r)) == Some(r)
  {
    StripKeepsClean(r);
    if |r| == 50 {
      assert r[..50] == r;
    }
  }

  /** Cleaning a cleaned, non-empty name gives it back. */
  lemma CleanNameIdempotent(name: Value)
    requires CleanName(name).Some? && CleanName(name).value != ""
    ensures CleanName(Str(CleanName(name).value)) == CleanName(name)
  {
    CleanNameFixesClean(CleanName(name).value);
  }

  /** A truthy name made only of forbidden characters cleans to the empty name, not to "Unknown". */
  lemma CleanNameCanBeEmpty()
    ensures CleanName(Str("()")) == Some("")
  {
    assert Strip("()") == "";
  }

  /** The children of a node: its `children` array, or none. */
  function Kids(node: Value): (r: seq<Value>)
    ensures r == [] || Arr(r) < node
  {
    if node.Obj? && "children" in node.fields && node.fields["children"].Arr? then
      node.fields["children"].items
    else []
  }

  /** The mind-map guard: a truthy object-like payload with a truthy `name`. */
  predicate IsMindMap(structure: Value) {
    Truthy(structure) && IsObjectLike(structure) && Truthy(Get(structure, "name"))
  }

  /** The number of nodes in the tree at `node`, itself included. */
  function Size(node: Value): (r: nat)
    ensures r >= 1
    decreases node, 0
  {
    var kids := Kids(node);
    if kids == [] then 1 else 1 + ForestSize(kids, 0)
  }

  /** The number of nodes in the trees at `children[i..]`. */
  function ForestSize(children: seq<Value>, i: nat): nat
    requires i <= |children|
    decreases Arr(children), |children| - i
  {
    if i == |children| then 0 else Size(children[i]) + ForestSize(children, i + 1)
  }

  /** The nodes below the root. */
  function Descendants(structure: Value): nat {
    Size(structure) - 1
  }

  /** One emitted line: the nesting level and the cleaned name. */
  datatype Entry = Entry(level: nat, name: string)

  /** The entries `addChildren` emits for one child at `level`: the child, then its subtree one level deeper. */
  function NodeEntries(child: Value, level: nat): Option<seq<Entry>>
    decreases child, 0
  {
    if child.Null? then None
    else
      var name :- CleanName(Get(child, "name"));
      var kids := Kids(child);
      var below :- if kids == [] then Some([]) else ForestEntries(kids, 0, level + 1);
      Some([Entry(level, name)] + below)
  }

  /** The entries `addChildren(children, level)` emits for `children[i..]`, in order. */
  function ForestEntries(children: seq<Value>, i: nat, level: nat): Option<seq<Entry>>
    requires i <= |children|
    decreases Arr(children), |children| - i
  {
    if i == |children| then Some([])
    else
      var first :- NodeEntries(children[i], level);
      var rest :- ForestEntries(children, i + 1, level);
      Some(first + rest)
  }

  /** The entries below the root: its children start at level 2. */
  function Outline(structure: Value): Option<seq<Entry>> {
    var kids := Kids(structure);
    if kids == [] then Some([]) else ForestEntries(kids, 0, 2)
  }

  /**
   * Levels in pre-order from `level`: the first entry is at `level`, none is
   * shallower, and each entry is at most one level deeper than the one before.
   */
  ghost predicate PreOrderLevels(es: seq<Entry>, level: nat) {
    && (es != [] ==> es[0].level == level)
    && (forall k :: 0 <= k < |es| ==> es[k].level >= level)
    && (forall k :: 0 < k < |es| ==> es[k].level <= es[k - 1].level + 1)
  }

  /** The number of entries at exactly `level`. */
  ghost function CountAt(es: seq<Entry>, level: nat): nat {
    if es == [] then 0 else (if es[0].level == level then 1 else 0) + CountAt(es[1..], level)
  }

  lemma {:induction false} CountAtAppend(a: seq<Entry>, b: seq<Entry>, level: nat)
    ensures CountAt(a + b, level) == CountAt(a, level) + CountAt(b, level)
  {
    if a == [] {
      assert a + b == b;
    } else {
      assert (a + b)[0] == a[0] && (a + b)[1..] == a[1..] + b;
      CountAtAppend(a[1..], b, level);
    }
  }

  /** Entries all deeper than `level` have none at `level`. */
  lemma {:induction false} CountAtDeeper(es: seq<Entry>, level: nat)
    requires forall k :: 0 <= k < |es| ==> es[k].level > level
    ensures CountAt(es, level) == 0
  {
    if es != [] {
      CountAtDeeper(es[1..], level);
    }
  }

  /** Every entry's name is clean. */
  ghost predicate CleanNames(es: seq<Entry>) {
    forall k :: 0 <= k < |es| ==> Clean(es[k].name)
  }

  /** Two pre-order runs at the same level concatenate into one. */
  lemma {:induction false} PreOrderAppend(a: seq<Entry>, b: seq<Entry>, level: nat)
    requires PreOrderLevels(a, level) && PreOrderLevels(b, level)
    requires CleanNames(a) && CleanNames(b)
    ensures PreOrderLevels(a + b, level) && CleanNames(a + b)
  {
    forall k | 0 < k < |a + b| ensures (a + b)[k].level <= (a + b)[k - 1].level + 1 {
      if k == |a| {
        assert (a + b)[k - 1] == a[k - 1];
      }
    }
    CleanNamesAppend(a, b);
  }

  lemma {:induction false} CleanNamesAppend(a: seq<Entry>, b: seq<Entry>)
    requires CleanNames(a) && CleanNames(b)
    ensures CleanNames(a + b)
  {
  }

  /**
   * One entry per node of the subtree at `child`, laid out in pre-order:
   * the child itself at `level`, every entry after it deeper, and exactly
   * its own children one level down.
   */
  lemma {:induction false} NodeEntriesShape(child: Value, level: nat)
    requires NodeEntries(child, level).Some?
    ensures |NodeEntries(child, level).value| == Size(child)
    ensures PreOrderLevels(NodeEntries(child, level).value, level)
    ensures CleanNames(NodeEntries(child, level).value)
    ensures forall k :: 0 < k < |NodeEntries(child, level).value| ==> NodeEntries(child, level).value[k].level > level
    ensures CountAt(NodeEntries(child, level).value, level + 1) == |Kids(child)|
    decreases child, 0
  {
    var es := NodeEntries(child, level).value;
    var kids := Kids(child);
    var below := if kids == [] then [] else ForestEntries(kids, 0, level + 1).value;
    assert es == [es[0]] + below && es[0].level == level;
    assert es[1..] == below;
    if kids != [] {
      ForestEntriesShape(kids, 0, level + 1);
    }
  }

  /** One entry per node of the trees at `children[i..]`, each laid out in pre-order at `level`. */
  lemma {:induction false} ForestEntriesShape(children: seq<Value>, i: nat, level: nat)
    requires i <= |children|
    requires ForestEntries(children, i, level).Some?
    ensures |ForestEntries(children, i, level).value| == ForestSize(children, i)
    ensures PreOrderLevels(ForestEntries(children, i, level).value, level)
    ensures CleanNames(ForestEntries(children, i, level).value)
    ensures CountAt(ForestEntries(children, i, level).value, level) == |children| - i
    decreases Arr(children), |children| - i
  {
    if i < |children| {
      var first := NodeEntries(children[i], level).value;
      var rest := ForestEntries(children, i + 1, level).value;
      NodeEntriesShape(children[i], level);
      ForestEntriesShape(children, i + 1, level);
      PreOrderAppend(first, rest, level);
      CountAtDeeper(first[1..], level);
      assert CountAt(first, level) == 1;
      CountAtAppend(first, rest, level);
    }
  }

  /**
   * The outline has one entry per descendant of the root, in pre-order,
   * every name clean. Its level-2 entries are exactly the root's children;
   * each of those is followed by its own subtree, whose top entries (its
   * children, by `NodeEntriesShape`) sit one level deeper.
   */
  lemma OutlineShape(structure: Value)
    requires Outline(structure).Some?
    ensures |Outline(structure).value| == Descendants(structure)
    ensures PreOrderLevels(Outline(structure).value, 2)
    ensures CleanNames(Outline(structure).value)
    ensures CountAt(Outline(structure).value, 2) == |Kids(structure)|
  {
    var kids := Kids(structure);
    if kids != [] {
      ForestEntriesShape(kids, 0, 2);
    }
  }

  /** `" ".repeat(k)`. */
  function Spaces(k: nat): (r: string)
    ensures |r| == k && forall c :: c in r ==> c == ' '
  {
    if k == 0 then "" else " " + Spaces(k - 1)
  }

  /** The text line of one entry: indented two spaces per level. */
  function Line(e: Entry): string {
    Spaces(2 * e.level) + e.name + "\n"
  }

  /** The lines of the entries, in order. */
  function Emit(es: seq<Entry>): string {
    if es == [] then "" else Line(es[0]) + Emit(es[1..])
  }

  lemma {:induction false} EmitAppend(a: seq<Entry>, b: seq<Entry>)
    ensures Emit(a + b) == Emit(a) + Emit(b)
  {
    if a != [] {
      assert (a + b)[0] == a[0] && (a + b)[1..] == a[1..] + b;
      EmitAppend(a[1..], b);
      ConcatAssoc(Line(a[0]), Emit(a[1..]), Emit(b));
    } else {
      assert a + b == b;
      assert "" + Emit(b) == Emit(b);
    }
  }

  /** Text that emitted `done` and then `mine` has emitted `done + mine`. */
  lemma EmitExtends(text: string, done: seq<Entry>, mine: seq<Entry>, before: string, out: string)
    requires before == text + Emit(done) && out == before + Emit(mine)
    ensures out == text + Emit(done + mine)
  {
    EmitAppend(done, mine);
    ConcatAssoc(text, Emit(done), Emit(mine));
  }

  lemma ConcatAssoc(a: string, b: string, c: string)
    ensures (a + b) + c == a + (b + c)
  {
  }

  /** The first two lines: the diagram kind and the root node. */
  function Header(rootName: string): string {
    "mindmap" + "\n" + RootLine(rootName) + "\n"
  }

  /** The root node's line, without its line break. */
  function RootLine(rootName: string): string {
    "  root((" + rootName + "))"
  }

  /** Without a line break in the root name, the header is two lines. */
  lemma HeaderLineCount(rootName: string)
    requires '\n' !in rootName
    ensures Occurrences(Header(rootName), '\n') == 2
  {
    assert '\n' !in "  root((" && '\n' !in "))";
    OccurrencesAbsent(RootLine(rootName), '\n');
    OccurrencesAbsent("mindmap", '\n');
    TwoLines("mindmap", RootLine(rootName));
  }

  /** Two lines, each ended by a line break, hold exactly two line breaks. */
  lemma TwoLines(a: string, b: string)
    requires Occurrences(a, '\n') == 0 && Occurrences(b, '\n') == 0
    ensures Occurrences(a + "\n" + b + "\n", '\n') == 2
  {
    assert Occurrences("\n", '\n') == 1;
    OccurrencesAppend(a, "\n", '\n');
    OccurrencesAppend(a + "\n", b, '\n');
    OccurrencesAppend(a + "\n" + b, "\n", '\n');
  }

  /** `generateMermaidText(structure)`; `None` where the JavaScript throws a TypeError. */
  function MermaidText(structure: Value): Option<string> {
    var root :- CleanName(Get(structure, "name"));
    var outline :- Outline(structure);
    Some(Header(root) + Emit(outline))
  }

  /** The number of occurrences of `c` in `s`. */
  function Occurrences(s: string, c: char): nat {
    if s == [] then 0 else (if s[0] == c then 1 else 0) + Occurrences(s[1..], c)
  }

  lemma {:induction false} OccurrencesAppend(a: string, b: string, c: char)
    ensures Occurrences(a + b, c) == Occurrences(a, c) + Occurrences(b, c)
  {
    if a != [] {
      assert (a + b)[0] == a[0] && (a + b)[1..] == a[1..] + b;
      OccurrencesAppend(a[1..], b, c);
    } else {
      assert a + b == b;
    }
  }

  lemma {:induction false} OccurrencesAbsent(s: string, c: char)
    requires forall d :: d in s ==> d != c
    ensures Occurrences(s, c) == 0
  {
    if s != [] {
      assert s[0] in s;
      assert forall d :: d in s[1..] ==> d in s;
      OccurrencesAbsent(s[1..], c);
    }
  }

  /** Without line breaks in the names, `Emit` writes exactly one line per entry. */
  lemma {:induction false} EmitLineCount(es: seq<Entry>)
    requires forall k :: 0 <= k < |es| ==> '\n' !in es[k].name
    ensures Occurrences(Emit(es), '\n') == |es|
  {
    if es != [] {
      var e := es[0];
      OccurrencesAppend(Spaces(2 * e.level) + e.name, "\n", '\n');
      OccurrencesAppend(Spaces(2 * e.level), e.name, '\n');
      OccurrencesAbsent(Spaces(2 * e.level), '\n');
      OccurrencesAbsent(e.name, '\n');
      OccurrencesAppend(Line(e), Emit(es[1..]), '\n');
      EmitLineCount(es[1..]);
    }
  }

  /**
   * The text is the header and then one line per descendant, indented by
   * level; when no name holds a line break it has exactly 2 + descendants
   * lines. `cleanName` leaves line breaks in, so a name holding one splits
   * its line.
   */
  lemma MermaidTextShape(structure: Value)
    requires MermaidText(structure).Some?
    ensures MermaidText(structure).value ==
      Header(CleanName(Get(structure, "name")).value) + Emit(Outline(structure).value)
    ensures |Outline(structure).value| == Descendants(structure)
    ensures '\n' !in CleanName(Get(structure, "name")).value &&
            (forall k :: 0 <= k < |Outline(structure).value| ==> '\n' !in Outline(structure).value[k].name)
        ==> Occurrences(MermaidText(structure).value, '\n') == 2 + Descendants(structure)
  {
    OutlineShape(structure);
    var root := CleanName(Get(structure, "name")).value;
    var es := Outline(structure).value;
    if '\n' !in root && forall k :: 0 <= k < |es| ==> '\n' !in es[k].name {
      EmitLineCount(es);
      HeaderLineCount(root);
      OccurrencesAppend(Header(root), Emit(es), '\n');
    }
  }

  /**
   * `addChildren(children, level)` as the source writes it: run the
   * `forEach` callback on each child in turn, stopping at the first
   * TypeError (`ok` false; the caller discards the partial text).
   */
  method AddChildren(children: seq<Value>, level: nat, text: string) returns (out: string, ok: bool)
    ensures ok <==> ForestEntries(children, 0, level).Some?
    ensures ok ==> out == text + Emit(ForestEntries(children, 0, level).value)
    decreases Arr(children), 0
  {
    out := text;
    ghost var done: seq<Entry> := [];
    var i := 0;
    while i < |children|
      invariant 0 <= i <= |children|
      invariant out == text + Emit(done)
      invariant ForestEntries(children, 0, level).Some? <==> ForestEntries(children, i, level).Some?
      invariant ForestEntries(children, i, level).Some? ==>
        ForestEntries(children, 0, level).value == done + ForestEntries(children, i, level).value
    {
      ghost var before := out;
      var sub;
      out, sub := AddChild(children[i], level, out);
      if !sub {
        assert ForestEntries(children, i, level).None?;
        return out, false;
      }
      ghost var mine := NodeEntries(children[i], level).value;
      ForestStep(children, i, level, done, mine);
      EmitExtends(text, done, mine, before, out);
      done := done + mine;
      i := i + 1;
    }
    assert ForestEntries(children, i, level) == Some([]);
    assert done + [] == done;
    ok := true;
  }

  /**
   * The `forEach` callback of `addChildren`: append the child's line, indented
   * two spaces per level, then its own children one level deeper.
   */
  method AddChild(child: Value, level: nat, text: string) returns (out: string, ok: bool)
    ensures ok <==> NodeEntries(child, level).Some?
    ensures ok ==> out == text + Emit(NodeEntries(child, level).value)
    decreases child
  {
    out := text;
    if child.Null? {
      return out, false;
    }
    var name := CleanName(Get(child, "name"));
    if name.None? {
      return out, false;
    }
    out := out + Spaces(2 * level) + name.value + "\n";
    var kids := Kids(child);
    ghost var below: seq<Entry> := [];
    if kids != [] {
      var sub;
      out, sub := AddChildren(kids, level + 1, out);
      if !sub {
        return out, false;
      }
      below := ForestEntries(kids, 0, level + 1).value;
    }
    NodeStep(child, level, name.value, below, text, out);
    ok := true;
  }

  /** One child's entries and text, as `AddChildren` produces them. */
  lemma NodeStep(child: Value, level: nat, name: string, below: seq<Entry>, before: string, after: string)
    requires !child.Null? && CleanName(Get(child, "name")) == Some(name)
    requires Kids(child) == [] ==> below == [] && after == before + Spaces(2 * level) + name + "\n"
    requires Kids(child) != [] ==>
      ForestEntries(Kids(child), 0, level + 1) == Some(below) &&
      after == before + Spaces(2 * level) + name + "\n" + Emit(below)
    ensures NodeEntries(child, level) == Some([Entry(level, name)] + below)
    ensures after == before + Emit([Entry(level, name)] + below)
  {
    NodeEntriesOf(child, level, name, below);
    EmitCons(Entry(level, name), below);
    if Kids(child) == [] {
      assert Emit(below) == "";
    }
  }

  lemma NodeEntriesOf(child: Value, level: nat, name: string, below: seq<Entry>)
    requires !child.Null? && CleanName(Get(child, "name")) == Some(name)
    requires Kids(child) == [] ==> below == []
    requires Kids(child) != [] ==> ForestEntries(Kids(child), 0, level + 1) == Some(below)
    ensures NodeEntries(child, level) == Some([Entry(level, name)] + below)
  {
  }

  lemma EmitCons(e: Entry, below: seq<Entry>)
    ensures Emit([e] + below) == Spaces(2 * e.level) + e.name + "\n" + Emit(below)
  {
    var es := [e] + below;
    assert es[0] == e && es[1..] == below;
  }

  /** Moving past a child whose entries are `mine` keeps the loop's account of the whole forest. */
  lemma ForestStep(children: seq<Value>, i: nat, level: nat, done: seq<Entry>, mine: seq<Entry>)
    requires i < |children| && NodeEntries(children[i], level) == Some(mine)
    requires ForestEntries(children, 0, level).Some? <==> ForestEntries(children, i, level).Some?
    requires ForestEntries(children, i, level).Some? ==>
      ForestEntries(children, 0, level).value == done + ForestEntries(children, i, level).value
    ensures ForestEntries(children, 0, level).Some? <==> ForestEntries(children, i + 1, level).Some?
    ensures ForestEntries(children, i + 1, level).Some? ==>
      ForestEntries(children, 0, level).value == (done + mine) + ForestEntries(children, i + 1, level).value
  {
    if ForestEntries(children, i + 1, level).Some? {
      var rest := ForestEntries(children, i + 1, level).value;
      assert ForestEntries(children, i, level) == Some(mine + rest);
      assert done + (mine + rest) == (done + mine) + rest;
    }
  }

  /** `generateMermaidText(structure)` as the source writes it, accumulating into `text`. */
  method GenerateMermaidText(structure: Value) returns (text: Option<string>)
    ensures text == MermaidText(structure)
  {
    var root := CleanName(Get(structure, "name"));
    if root.None? {
      return None;
    }
    var acc := Header(root.value);
    var kids := Kids(structure);
    if kids == [] {
      return Some(acc + Emit([]));
    }
    var all, ok := AddChildren(kids, 2, acc);
    if !ok {
      return None;
    }
    return Some(all);
  }

  /** What Mermaid did with the text. */
  datatype RenderOutcome = Rendered(svg: string) | Rejected(message: string)

  /** Stands for the JavaScript engine's own wording of the TypeError message. */
  const TypeErrorMessage: string := "TypeError"

  /** The `renderError` a render pass leaves: none on success, else the error's message or the fallback. */
  function RenderError(text: Option<string>, outcome: RenderOutcome): (r: Option<string>)
    ensures r.None? <==> text.Some? && outcome.Rendered?
    ensures r.Some? ==> r.value != ""
  {
    if text.None? then Some(TypeErrorMessage)
    else match outcome
      case Rendered(_) => None
      case Rejected(m) => Some(if m != "" then m else "Error rendering mind map")
  }

  /** What `MindMapView` renders. */
  datatype Screen =
    | NoMindMap  // "No mind map data available."
    | Chart(overlay: bool, footer: string)

  /** The mounted `MindMapView`: its structure prop and its two state hooks. */
  class MindMapView {
    const structure: Value
    var isRendering: bool
    var renderError: Option<string>

    constructor (structure: Value)
      ensures this.structure == structure && isRendering && renderError.None?
    {
      this.structure := structure;
      isRendering := true;
      renderError := None;
    }

    function View(): (s: Screen)
      reads this
      ensures s == NoMindMap <==> !IsMindMap(structure)
      ensures s.Chart? ==> (s.overlay <==> isRendering)
    {
      if !IsMindMap(structure) then NoMindMap
      else Chart(isRendering,
                 if renderError.Some? && renderError.value != "" then "Error rendering. Try refreshing."
                 else "Tip: Scroll to view the full mind map.")
    }

    /** `renderMermaid`: serialise, hand the text to Mermaid, and always leave the loading state. */
    method RenderMermaid(outcome: RenderOutcome) returns (text: Option<string>)
      requires IsMindMap(structure)
      modifies this
      ensures text == MermaidText(structure)
      ensures !isRendering
      ensures renderError == RenderError(text, outcome)
    {
      isRendering := true;
      renderError := None;
      text := GenerateMermaidText(structure);
      if text.None? {
        renderError := Some(TypeErrorMessage);
        isRendering := false;
        return;
      }
      match outcome
      case Rendered(_) =>
        isRendering := false;
      case Rejected(m) =>
        renderError := Some(if m != "" then m else "Error rendering mind map");
        isRendering := false;
    }
  }
}
