/**
 * The path part of get_consumption_data (backend/app/main.py): the PATH 1..3 cells of the
 * current row become the list of active paths, and each row of Paths.csv becomes the coloured
 * edges of one power-flow path, its steps normalised to the diagram's node names.
 */
module FlowPaths {
  import opened Text
  import Sim

  /** The node names the diagram knows, as written in the CSV after upper-casing. */
  predicate IsNamedNode(n: string) {
    n == "GRID" || n == "GRID METER" || n == "INVERTER" || n == "BATTERY" ||
    n == "BUILDING" || n == "SOLAR"
  }

  /** The node id of an upper-cased step name: the diagram's own ids for its six nodes, the
      lower-cased name for any other. */
  function NodeOf(n: string): string {
    if n == "GRID" then "grid"
    else if n == "GRID METER" then "gridMeter"
    else if n == "INVERTER" then "inverter"
    else if n == "BATTERY" then "battery"
    else if n == "BUILDING" then "building"
    else if n == "SOLAR" then "solar"
    else Lower(n)
  }

  /** map_node: the step without blanks, upper-cased, mapped to its node id. */
  function MapNode(name: string): string {
    NodeOf(Upper(Strip(name)))
  }

  /** The colour of an upper-cased first step: red from the grid, yellow from solar, green
      from the battery, white from anything else. */
  function SourceColour(source: string): string {
    if source == "GRID" then "red"
    else if source == "SOLAR" then "yellow"
    else if source == "BATTERY" then "green"
    else "white"
  }

  /** The colour chosen from the first step of a path. */
  function Colour(first: string): string {
    SourceColour(Upper(Strip(first)))
  }

  /** The colour of a path leaving a node of the diagram. */
  function NodeColour(node: string): string {
    if node == "grid" then "red"
    else if node == "solar" then "yellow"
    else if node == "battery" then "green"
    else "white"
  }

  lemma LowerUpperChar(c: char)
    ensures UpperChar(LowerChar(UpperChar(c))) == UpperChar(c)
    ensures LowerChar(UpperChar(c)) == LowerChar(c)
  {
  }

  /** Lower-casing upper-cased text and upper-casing it again gives it back. */
  lemma UpperLowerUpper(s: string)
    ensures Upper(Lower(Upper(s))) == Upper(s)
    ensures Lower(Upper(s)) == Lower(s)
  {
    forall i | 0 <= i < |s| {
      LowerUpperChar(s[i]);
    }
  }

  /** map_node ignores case and surrounding blanks. */
  lemma MapNodeNormalises(name: string)
    ensures MapNode(Upper(name)) == MapNode(name)
    ensures MapNode(Strip(name)) == MapNode(name)
  {
    StripUpper(name);
    UpperIdempotent(Strip(name));
    StripIdempotent(name);
  }

  /** A name that is not one of the diagram's nodes keeps its letters, lower-cased. */
  lemma MapNodeOther(name: string)
    requires !IsNamedNode(Upper(Strip(name)))
    ensures MapNode(name) == Lower(Strip(name))
  {
    UpperLowerUpper(Strip(name));
  }

  /** On upper-case text the colour is that of the node: an unknown name can never be
      lower-cased into "grid", "solar" or "battery". */
  lemma SourceColourOfNode(n: string)
    requires Upper(n) == n
    ensures SourceColour(n) == NodeColour(NodeOf(n))
  {
    if !IsNamedNode(n) {
      UpperLowerUpper(n);
      var m := Lower(n);
      assert Upper(m) == n;
      assert Upper("grid") == "GRID" && Upper("solar") == "SOLAR" && Upper("battery") == "BATTERY";
      assert m != "grid" && m != "solar" && m != "battery";
    }
  }

  /** The colour is the colour of the node the path starts from. */
  lemma ColourFollowsSource(first: string)
    ensures Colour(first) == NodeColour(MapNode(first))
  {
    UpperIdempotent(Strip(first));
    SourceColourOfNode(Upper(Strip(first)));
  }

  // ---------------------------------------------------------------------------------------
  // Step lists

  /** `[s for s in xs if s]`: the non-empty entries, in order. */
  function NonEmpty(xs: seq<string>): (r: seq<string>)
    ensures |r| <= |xs|
    decreases |xs|
  {
    if |xs| == 0 then []
    else if xs[0] == "" then NonEmpty(xs[1..])
    else [xs[0]] + NonEmpty(xs[1..])
  }

  /** The filter keeps exactly the non-empty entries. */
  lemma {:induction false} NonEmptyMembers(xs: seq<string>)
    ensures forall s :: s in NonEmpty(xs) <==> s in xs && s != ""
    decreases |xs|
  {
    if |xs| > 0 {
      NonEmptyMembers(xs[1..]);
      assert xs == [xs[0]] + xs[1..];
    }
  }

  /** The filter works piece by piece, so it keeps the order of the entries; filtering twice is
      filtering once. */
  lemma {:induction false} NonEmptyAppend(xs: seq<string>, ys: seq<string>)
    ensures NonEmpty(xs + ys) == NonEmpty(xs) + NonEmpty(ys)
    decreases |xs|
  {
    if |xs| > 0 {
      assert (xs + ys)[1..] == xs[1..] + ys;
      NonEmptyAppend(xs[1..], ys);
    } else {
      assert xs + ys == ys;
    }
  }

  lemma {:induction false} NonEmptyIdempotent(xs: seq<string>)
    ensures NonEmpty(NonEmpty(xs)) == NonEmpty(xs)
    decreases |xs|
  {
    if |xs| > 0 {
      NonEmptyIdempotent(xs[1..]);
      if xs[0] != "" {
        NonEmptyAppend([xs[0]], NonEmpty(xs[1..]));
      }
    }
  }

  /** One more entry is kept at the end exactly when it is non-empty. */
  lemma NonEmptyStep(xs: seq<string>, i: nat)
    requires i < |xs|
    ensures NonEmpty(xs[..i + 1]) == NonEmpty(xs[..i]) + (if xs[i] == "" then [] else [xs[i]])
  {
    NonEmptyAppend(xs[..i], [xs[i]]);
    assert xs[..i + 1] == xs[..i] + [xs[i]];
    assert NonEmpty([xs[i]]) == (if xs[i] == "" then [] else [xs[i]]) + NonEmpty([]);
  }

  /** The stripped cells of the named columns, in column order. */
  function Cells(row: Sim.CsvRow, columns: seq<string>): (cells: seq<string>)
    ensures |cells| == |columns|
  {
    seq(|columns|, i requires 0 <= i < |columns| => Sim.Cell(row, columns[i]))
  }

  const StepColumns: seq<string> := ["Step 1", "Step 2", "Step 3", "Step 4"]
  const PathColumns: seq<string> := ["PATH 1", "PATH 2", "PATH 3"]

  /** The steps of a Paths.csv row: Step 1..4 stripped, the empty ones dropped. */
  function Steps(prow: Sim.CsvRow): seq<string> {
    NonEmpty(Cells(prow, StepColumns))
  }

  /** The active paths of a consumption row: PATH 1..3 stripped, the empty ones dropped. */
  function ActivePathsOf(row: Sim.CsvRow): seq<string> {
    NonEmpty(Cells(row, PathColumns))
  }

  /** The loop over PATH 1, PATH 2, PATH 3 that appends each non-empty stripped cell. */
  method ActivePaths(row: Sim.CsvRow) returns (paths: seq<string>)
    ensures paths == ActivePathsOf(row)
  {
    var cells := Cells(row, PathColumns);
    paths := [];
    var i := 0;
    while i < |PathColumns|
      invariant 0 <= i <= |PathColumns|
      invariant paths == NonEmpty(cells[..i])
    {
      var val := Sim.Cell(row, PathColumns[i]);
      NonEmptyStep(cells, i);
      if val != "" {
        paths := paths + [val];
      }
      i := i + 1;
    }
    assert cells[..i] == cells;
  }

  /** Every active path is a non-empty cell of one of the three columns, and every non-empty
      cell is listed. */
  lemma ActivePathsMembers(row: Sim.CsvRow)
    ensures forall p :: p in ActivePathsOf(row) <==>
              p != "" && (p == Sim.Cell(row, "PATH 1") || p == Sim.Cell(row, "PATH 2") || p == Sim.Cell(row, "PATH 3"))
  {
    assert Cells(row, PathColumns) == [Sim.Cell(row, "PATH 1"), Sim.Cell(row, "PATH 2"), Sim.Cell(row, "PATH 3")];
    NonEmptyMembers(Cells(row, PathColumns));
  }

  /** The row the simulator serves carries a single PATH column and no PATH 1..3, so the active
      paths read from it are always empty. */
  lemma SimulatorRowHasNoActivePaths(row: Sim.CsvRow)
    requires "PATH 1" !in row && "PATH 2" !in row && "PATH 3" !in row
    ensures ActivePathsOf(row) == []
  {
    var cells := Cells(row, PathColumns);
    assert cells == ["", "", ""];
    assert NonEmpty(cells) == NonEmpty(cells[1..]) == NonEmpty(cells[2..]) == NonEmpty(cells[3..]);
  }

  /** None of PATH 1..3 is a column of the simulator's row: the only column name of six
      characters it has is TARIFF. */
  lemma PathColumnsNotInRow()
    ensures "PATH 1" !in Sim.RowColumns && "PATH 2" !in Sim.RowColumns && "PATH 3" !in Sim.RowColumns
  {
    forall c | c in Sim.RowColumns ensures |c| != 6 || c == "TARIFF" {
    }
    assert "PATH 1"[0] != "TARIFF"[0];
  }

  /** get_current_row writes the path into a single PATH column, so the row main.py receives
      from the simulator never yields an active path. */
  lemma CurrentRowHasNoActivePaths(sim: Sim.Simulator, show: real -> string, showPercent: real -> string)
    requires sim.CurrentRow(show, showPercent).Hit?
    ensures ActivePathsOf(sim.CurrentRow(show, showPercent).value) == []
  {
    var row := sim.CurrentRow(show, showPercent).value;
    PathColumnsNotInRow();
    SimulatorRowHasNoActivePaths(row);
  }

  // ---------------------------------------------------------------------------------------
  // Edges

  /** One entry of path_definitions. */
  datatype Edge = Edge(pathId: string, from: string, to: string, color: string, description: string)

  /** The steps joined by " → ". */
  function Description(steps: seq<string>): string {
    Join(steps, " \U{2192} ")
  }

  /** The node id of every step. */
  function Nodes(steps: seq<string>): (nodes: seq<string>)
    ensures |nodes| == |steps|
  {
    seq(|steps|, i requires 0 <= i < |steps| => MapNode(steps[i]))
  }

  /** One edge per consecutive pair of nodes, all with the same id, colour and description. */
  function PairEdges(pathId: string, nodes: seq<string>, color: string, description: string): (edges: seq<Edge>)
    requires |nodes| >= 1
  {
    seq(|nodes| - 1, i requires 0 <= i < |nodes| - 1 => Edge(pathId, nodes[i], nodes[i + 1], color, description))
  }

  /** The edges of one Paths.csv row: none without a path id or with fewer than two steps;
      otherwise the pairs of its steps' nodes, coloured from its first step. */
  function RowEdges(prow: Sim.CsvRow): (edges: seq<Edge>) {
    var pathId := Sim.Cell(prow, "PATHS");
    var steps := Steps(prow);
    if pathId == "" || |steps| < 2 then []
    else PairEdges(pathId, Nodes(steps), Colour(steps[0]), Description(steps))
  }

  /** The groups one after the other. */
  function Concat(groups: seq<seq<Edge>>): seq<Edge>
    decreases |groups|
  {
    if |groups| == 0 then [] else groups[0] + Concat(groups[1..])
  }

  lemma {:induction false} ConcatAppend(xs: seq<seq<Edge>>, ys: seq<seq<Edge>>)
    ensures Concat(xs + ys) == Concat(xs) + Concat(ys)
    decreases |xs|
  {
    if |xs| > 0 {
      assert (xs + ys)[1..] == xs[1..] + ys;
      ConcatAppend(xs[1..], ys);
    } else {
      assert xs + ys == ys;
    }
  }

  /** One more group adds its edges at the end. */
  lemma ConcatStep(groups: seq<seq<Edge>>, r: nat)
    requires r < |groups|
    ensures Concat(groups[..r + 1]) == Concat(groups[..r]) + groups[r]
  {
    ConcatAppend(groups[..r], [groups[r]]);
    assert groups[..r + 1] == groups[..r] + [groups[r]];
    assert Concat([groups[r]]) == groups[r] + Concat([]);
  }

  /** The edges of each row of Paths.csv. */
  function RowGroups(prows: seq<Sim.CsvRow>): (groups: seq<seq<Edge>>)
    ensures |groups| == |prows|
  {
    seq(|prows|, i requires 0 <= i < |prows| => RowEdges(prows[i]))
  }

  /** path_definitions: the edges of every row of Paths.csv, row after row. */
  function PathDefinitions(prows: seq<Sim.CsvRow>): seq<Edge> {
    Concat(RowGroups(prows))
  }

  /** The nested loop over the rows of Paths.csv and over the consecutive pairs of steps. */
  method ExpandPaths(prows: seq<Sim.CsvRow>) returns (edges: seq<Edge>)
    ensures edges == PathDefinitions(prows)
  {
    ghost var groups := RowGroups(prows);
    edges := [];
    var r := 0;
    while r < |prows|
      invariant 0 <= r <= |prows|
      invariant edges == Concat(groups[..r])
    {
      edges := AppendRowEdges(edges, prows[r]);
      ConcatStep(groups, r);
      r := r + 1;
    }
    assert groups[..r] == groups;
  }

  /** The body of the loop over Paths.csv: a row without a path id or with fewer than two steps
      is skipped, otherwise its edges are appended. */
  method AppendRowEdges(edges: seq<Edge>, prow: Sim.CsvRow) returns (out: seq<Edge>)
    ensures out == edges + RowEdges(prow)
  {
    var pathId := Sim.Cell(prow, "PATHS");
    if pathId == "" {
      return edges;
    }
    var steps := Steps(prow);
    if |steps| < 2 {
      return edges;
    }
    out := AppendPairs(edges, pathId, Nodes(steps), Colour(steps[0]), Description(steps));
  }

  /** `for i in range(len(steps) - 1)`: append the edge from the node of step i to the node of
      step i + 1. */
  method AppendPairs(edges: seq<Edge>, pathId: string, nodes: seq<string>, color: string, description: string)
    returns (out: seq<Edge>)
    requires |nodes| >= 1
    ensures out == edges + PairEdges(pathId, nodes, color, description)
  {
    ghost var pairs := PairEdges(pathId, nodes, color, description);
    out := edges;
    var i := 0;
    while i < |nodes| - 1
      invariant 0 <= i <= |pairs|
      invariant out == edges + pairs[..i]
    {
      out := out + [Edge(pathId, nodes[i], nodes[i + 1], color, description)];
      assert pairs[..i + 1] == pairs[..i] + [pairs[i]];
      i := i + 1;
    }
    assert pairs[..i] == pairs;
  }

  /** The pairs walk the nodes in order: n nodes give n - 1 edges, edge i going from node i to
      node i + 1, so each starts where the previous one ended. */
  lemma PairEdgesWalk(pathId: string, nodes: seq<string>, color: string, description: string)
    requires |nodes| >= 2
    ensures var edges := PairEdges(pathId, nodes, color, description);
            |edges| == |nodes| - 1 &&
            edges[0].from == nodes[0] && edges[|edges| - 1].to == nodes[|nodes| - 1] &&
            (forall i :: 0 <= i < |edges| ==> edges[i].from == nodes[i] && edges[i].to == nodes[i + 1]) &&
            (forall i :: 0 <= i < |edges| - 1 ==> edges[i].to == edges[i + 1].from) &&
            (forall i :: 0 <= i < |edges| ==>
               edges[i].pathId == pathId && edges[i].color == color && edges[i].description == description)
  {
  }

  /** A row yields edges exactly when it has a path id and at least two steps; they join the
      node ids of its steps in order and carry the colour of the node the path leaves from. */
  lemma RowEdgesWalkSteps(prow: Sim.CsvRow)
    ensures var steps := Steps(prow);
            var edges := RowEdges(prow);
            (edges == [] <==> Sim.Cell(prow, "PATHS") == "" || |steps| < 2) &&
            (edges != [] ==>
              edges == PairEdges(Sim.Cell(prow, "PATHS"), Nodes(steps), NodeColour(MapNode(steps[0])), Description(steps)))
  {
    var steps := Steps(prow);
    if Sim.Cell(prow, "PATHS") != "" && |steps| >= 2 {
      ColourFollowsSource(steps[0]);
      PairEdgesWalk(Sim.Cell(prow, "PATHS"), Nodes(steps), Colour(steps[0]), Description(steps));
    }
  }
}
