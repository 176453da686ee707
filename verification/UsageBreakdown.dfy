/** The usage page's grouping of provider calls, and why its breakdowns agree. */
module UsageBreakdown {
  import opened Options
  import opened Sums

  /** Costs are exact; a cost of None is one that is not known. */
  datatype Call = Call(
    task: string,
    model: string,
    workflow: Option<nat>,
    created: string,
    succeeded: bool,
    tokens: nat,
    cost: Option<nat>)

  datatype Row = Row(calls: nat, tokens: nat, estimated: nat, unknown: bool)

  function Nothing(): Row { Row(0, 0, 0, false) }

  function Plus(a: Row, b: Row): Row {
    Row(a.calls + b.calls, a.tokens + b.tokens, a.estimated + b.estimated, a.unknown || b.unknown)
  }

  predicate CostUnknown(c: Call) { c.succeeded && c.cost.None? }

  function One(c: Call): Row {
    Row(1, c.tokens, match c.cost case Some(v) => v case None => 0, CostUnknown(c))
  }

  /** What a list of calls adds up to. */
  function Total(items: seq<Call>): Row {
    if items == [] then Nothing() else Plus(Total(items[..|items| - 1]), One(items[|items| - 1]))
  }

  /** The calls with one label, in order. */
  function Labelled(items: seq<Call>, key: Call -> string, tag: string): seq<Call> {
    if items == [] then []
    else
      var last := items[|items| - 1];
      Labelled(items[..|items| - 1], key, tag) + if key(last) == tag then [last] else []
  }

  function Labels(items: seq<Call>, key: Call -> string): set<string> {
    set k | 0 <= k < |items| :: key(items[k])
  }

  /** The loop of `aggregate`: one row a label, each the total of the calls with that label. */
  method Group(items: seq<Call>, key: Call -> string) returns (rows: map<string, Row>)
    ensures rows.Keys == Labels(items, key)
    ensures forall tag | tag in rows :: rows[tag] == Total(Labelled(items, key, tag))
  {
    hide Total, Labelled, Plus, One;
    rows := map[];
    NoItems(key);
    for i := 0 to |items|
      invariant rows.Keys == Labels(items[..i], key)
      invariant forall tag | tag in rows :: rows[tag] == Total(Labelled(items[..i], key, tag))
      invariant forall tag | tag !in rows :: Labelled(items[..i], key, tag) == []
    {
      var item := items[i];
      var tag := key(item);
      var row := if tag in rows then rows[tag] else Nothing();
      row := Counted(row, item);
      NextItem(items, key, i);
      rows := rows[tag := row];
    }
    assert items[..|items|] == items;
  }

  /** One item counted: a call, its tokens, its cost where there is one. */
  method Counted(before: Row, item: Call) returns (row: Row)
    ensures row == Plus(before, One(item))
  {
    row := before;
    row := row.(calls := row.calls + 1);
    row := row.(tokens := row.tokens + item.tokens);
    row := row.(unknown := row.unknown || (item.succeeded && item.cost.None?));
    row := row.(estimated := row.estimated + if item.cost.Some? then item.cost.value else 0);
  }

  lemma NoItems(key: Call -> string)
    ensures Labels([], key) == {} && Total([]) == Nothing()
    ensures forall tag :: Labelled([], key, tag) == []
  {}

  /** One more item changes the row of its own label only, and adds itself to that. */
  lemma NextItem(items: seq<Call>, key: Call -> string, i: nat)
    requires i < |items|
    ensures Labels(items[..i + 1], key) == Labels(items[..i], key) + {key(items[i])}
    ensures forall tag | tag != key(items[i]) :: Labelled(items[..i + 1], key, tag) == Labelled(items[..i], key, tag)
    ensures Total(Labelled(items[..i + 1], key, key(items[i])))
         == Plus(Total(Labelled(items[..i], key, key(items[i]))), One(items[i]))
  {
    assert items[..i + 1][..i] == items[..i];
    var own := Labelled(items[..i], key, key(items[i]));
    assert (own + [items[i]])[..|own|] == own;
  }

  // ------------------------------------------------------------------ the order

  /** A line of a breakdown. */
  datatype Line = Line(name: string, row: Row)

  /** What a comparison of labels must be for a sort by it to make sense. */
  ghost predicate Comparison(leq: (string, string) -> bool) {
    && (forall a, b :: leq(a, b) || leq(b, a))
    && (forall a, b, c :: leq(a, b) && leq(b, c) ==> leq(a, c))
  }

  ghost predicate Sorted(lines: seq<Line>, leq: (string, string) -> bool) {
    forall i, j | 0 <= i < j < |lines| :: leq(lines[i].name, lines[j].name)
  }

  predicate DistinctNames(lines: seq<Line>) {
    forall i, j | 0 <= i < j < |lines| :: lines[i].name != lines[j].name
  }

  predicate Lists(lines: seq<Line>, rows: map<string, Row>) {
    && (forall i | 0 <= i < |lines| :: lines[i].name in rows && lines[i].row == rows[lines[i].name])
    && (forall name | name in rows :: Named(lines, name))
  }

  predicate Named(lines: seq<Line>, name: string) {
    exists i | 0 <= i < |lines| :: lines[i].name == name
  }

  /** Sort the rows by label: every row once, in the order of the comparison. */
  method SortRows(rows: map<string, Row>, leq: (string, string) -> bool) returns (lines: seq<Line>)
    requires Comparison(leq)
    ensures Sorted(lines, leq) && DistinctNames(lines) && Lists(lines, rows)
  {
    lines := [];
    var rest := rows.Keys;
    while rest != {}
      invariant rest <= rows.Keys && Sorted(lines, leq) && DistinctNames(lines)
      invariant forall i | 0 <= i < |lines| ::
        lines[i].name in rows && lines[i].name !in rest && lines[i].row == rows[lines[i].name]
      invariant forall name | name in rows && name !in rest :: Named(lines, name)
      decreases |rest|
    {
      var name :| name in rest;
      ghost var was := lines;
      lines := Insert(lines, Line(name, rows[name]), leq);
      rest := rest - {name};
    }
  }

  /** Put a line behind all lines that may stand before it. */
  method Insert(lines: seq<Line>, line: Line, leq: (string, string) -> bool) returns (all: seq<Line>)
    requires Comparison(leq) && Sorted(lines, leq)
    requires DistinctNames(lines) && forall i | 0 <= i < |lines| :: lines[i].name != line.name
    ensures Sorted(all, leq) && DistinctNames(all)
    ensures forall i | 0 <= i < |all| :: all[i] == line || all[i] in lines
    ensures forall name :: Named(all, name) <==> Named(lines, name) || name == line.name
  {
    var k := |lines|;
    while k > 0 && !leq(lines[k - 1].name, line.name)
      invariant 0 <= k <= |lines|
      invariant forall i | k <= i < |lines| :: leq(line.name, lines[i].name)
    {
      k := k - 1;
    }
    all := lines[..k] + [line] + lines[k..];
    Placed(lines, line, k, leq);
  }

  lemma Placed(lines: seq<Line>, line: Line, k: nat, leq: (string, string) -> bool)
    requires Comparison(leq) && Sorted(lines, leq) && k <= |lines|
    requires DistinctNames(lines) && forall i | 0 <= i < |lines| :: lines[i].name != line.name
    requires k > 0 ==> leq(lines[k - 1].name, line.name)
    requires forall i | k <= i < |lines| :: leq(line.name, lines[i].name)
    ensures var all := lines[..k] + [line] + lines[k..];
      && Sorted(all, leq) && DistinctNames(all)
      && (forall i | 0 <= i < |all| :: all[i] == line || all[i] in lines)
      && (forall name :: Named(all, name) <==> Named(lines, name) || name == line.name)
  {
    PlacedInOrder(lines, line, k, leq);
    var all := lines[..k] + [line] + lines[k..];
    hide Sorted, Comparison;
    forall name ensures Named(all, name) <==> Named(lines, name) || name == line.name {
      assert all[k] == line;
      if i :| 0 <= i < |lines| && lines[i].name == name {
        assert all[if i < k then i else i + 1] == lines[i];
      }
    }
  }

  lemma PlacedInOrder(lines: seq<Line>, line: Line, k: nat, leq: (string, string) -> bool)
    requires Comparison(leq) && Sorted(lines, leq) && k <= |lines|
    requires k > 0 ==> leq(lines[k - 1].name, line.name)
    requires forall i | k <= i < |lines| :: leq(line.name, lines[i].name)
    ensures Sorted(lines[..k] + [line] + lines[k..], leq)
  {
    forall i | 0 <= i < k ensures leq(lines[i].name, line.name) {
      if i < k - 1 { assert leq(lines[i].name, lines[k - 1].name); }
    }
  }

  /** `aggregate`: group the calls, and list the rows by label. */
  method Aggregate(items: seq<Call>, key: Call -> string, leq: (string, string) -> bool) returns (lines: seq<Line>)
    requires Comparison(leq)
    ensures Sorted(lines, leq) && Breakdown(lines, items, key)
  {
    var rows := Group(items, key);
    lines := SortRows(rows, leq);
    Grouped(lines, rows, items, key);
  }

  /** One line a label that occurs, each the total of the calls with that label. */
  ghost predicate Breakdown(lines: seq<Line>, items: seq<Call>, key: Call -> string) {
    && DistinctNames(lines)
    && (forall i | 0 <= i < |lines| :: lines[i].row == Total(Labelled(items, key, lines[i].name)))
    && (forall name :: Named(lines, name) <==> name in Labels(items, key))
  }

  lemma Grouped(lines: seq<Line>, rows: map<string, Row>, items: seq<Call>, key: Call -> string)
    requires DistinctNames(lines) && Lists(lines, rows) && rows.Keys == Labels(items, key)
    requires forall tag | tag in rows :: rows[tag] == Total(Labelled(items, key, tag))
    ensures Breakdown(lines, items, key)
  {
    hide Total, Labelled, Labels;
    forall name ensures Named(lines, name) <==> name in rows.Keys {
      if i :| 0 <= i < |lines| && lines[i].name == name { assert lines[i].name in rows; }
    }
  }

  // -------------------------------------------------------------- conservation

  /** The sum of the totals of some labels. */
  function SumOver(lines: seq<Line>, items: seq<Call>, key: Call -> string): Row {
    if lines == [] then Nothing()
    else
      var init, last := lines[..|lines| - 1], lines[|lines| - 1];
      Plus(SumOver(init, items, key), Total(Labelled(items, key, last.name)))
  }

  /** What the lines of a breakdown add up to. */
  function SumLines(lines: seq<Line>): Row {
    if lines == [] then Nothing() else Plus(SumLines(lines[..|lines| - 1]), lines[|lines| - 1].row)
  }

  lemma {:induction false} SumOfNothing(lines: seq<Line>, key: Call -> string)
    ensures SumOver(lines, [], key) == Nothing()
  {
    hide Total, Labelled, Nothing, Plus;
    if lines != [] {
      TotalOfNone(key, lines[|lines| - 1].name);
      SumOfNothing(lines[..|lines| - 1], key);
    }
  }

  lemma TotalOfNone(key: Call -> string, l: string)
    ensures Total(Labelled([], key, l)) == Nothing() && Plus(Nothing(), Nothing()) == Nothing()
  {
    hide Total, Labelled;
    NoItems(key);
  }

  lemma NamedLast(lines: seq<Line>, name: string)
    requires lines != []
    ensures Named(lines, name) <==> Named(lines[..|lines| - 1], name) || lines[|lines| - 1].name == name
  {
    var init := lines[..|lines| - 1];
    if i :| 0 <= i < |lines| && lines[i].name == name {
      assert i < |init| ==> init[i].name == name;
    }
    if i :| 0 <= i < |init| && init[i].name == name { assert lines[i].name == name; }
  }

  /** One more item adds itself once to the sum, if its label is among those summed over. */
  lemma {:induction false} SumOfOneMore(lines: seq<Line>, items: seq<Call>, i: nat, key: Call -> string)
    requires i < |items| && DistinctNames(lines)
    ensures SumOver(lines, items[..i + 1], key)
         == if Named(lines, key(items[i])) then Plus(SumOver(lines, items[..i], key), One(items[i]))
            else SumOver(lines, items[..i], key)
    decreases |lines|
  {
    if lines != [] {
      hide Total, Labelled, One, Named;
      var init, last := lines[..|lines| - 1], lines[|lines| - 1];
      var name := key(items[i]);
      SumOfOneMore(init, items, i, key);
      NextItem(items, key, i);
      NamedLast(lines, name);
      NotNamedTwice(lines);
      PlusInAnyOrder(SumOver(init, items[..i], key), One(items[i]), Total(Labelled(items[..i], key, last.name)));
      PlusInAnyOrder(SumOver(init, items[..i], key), Total(Labelled(items[..i], key, last.name)), One(items[i]));
    }
  }

  lemma NotNamedTwice(lines: seq<Line>)
    requires lines != [] && DistinctNames(lines)
    ensures !Named(lines[..|lines| - 1], lines[|lines| - 1].name)
  {}

  lemma PlusInAnyOrder(a: Row, b: Row, c: Row)
    ensures Plus(Plus(a, b), c) == Plus(Plus(a, c), b) == Plus(a, Plus(b, c))
  {}

  /**
   Grouping conserves: over any distinct labels that cover the items, the totals add
   up to the totals of the input, each call counted once.
   */
  lemma {:induction false} GroupingConserves(items: seq<Call>, key: Call -> string, lines: seq<Line>)
    requires DistinctNames(lines) && forall name | name in Labels(items, key) :: Named(lines, name)
    ensures SumOver(lines, items, key) == Total(items)
    decreases |items|
  {
    if items == [] {
      SumOfNothing(lines, key);
    } else {
      var i := |items| - 1;
      FewerLabels(items, key);
      GroupingConserves(items[..i], key, lines);
      SumOfOneMore(lines, items, i, key);
      assert items[..i + 1] == items;
    }
  }

  lemma FewerLabels(items: seq<Call>, key: Call -> string)
    requires items != []
    ensures Labels(items[..|items| - 1], key) <= Labels(items, key) && key(items[|items| - 1]) in Labels(items, key)
  {
    var init := items[..|items| - 1];
    forall l | l in Labels(init, key) ensures l in Labels(items, key) {
      var k :| 0 <= k < |init| && key(init[k]) == l;
      assert items[k] == init[k] && key(items[k]) in Labels(items, key);
    }
  }

  lemma {:induction false} LinesSum(lines: seq<Line>, items: seq<Call>, key: Call -> string)
    requires forall i | 0 <= i < |lines| :: lines[i].row == Total(Labelled(items, key, lines[i].name))
    ensures SumLines(lines) == SumOver(lines, items, key)
    decreases |lines|
  {
    hide Total, Labelled;
    if lines != [] { LinesSum(lines[..|lines| - 1], items, key); }
  }

  /** The lines of any breakdown add up to the calls, tokens and cost of the input, and know what is unknown. */
  lemma BreakdownConserves(lines: seq<Line>, items: seq<Call>, key: Call -> string)
    requires Breakdown(lines, items, key)
    ensures SumLines(lines) == Total(items)
  {
    hide Total, Labelled, Labels, Named;
    LinesSum(lines, items, key);
    GroupingConserves(items, key, lines);
  }

  /** Item `k` carries the label, and its cost is not known. */
  predicate UnknownAt(items: seq<Call>, key: Call -> string, tag: string, k: nat) {
    k < |items| && key(items[k]) == tag && CostUnknown(items[k])
  }

  /** A row is unknown if and only if some succeeded call with its label has no cost. */
  lemma {:induction false} UnknownExactly(items: seq<Call>, key: Call -> string, tag: string)
    ensures Total(Labelled(items, key, tag)).unknown <==> exists k :: UnknownAt(items, key, tag, k)
    decreases |items|
  {
    if items != [] {
      var i := |items| - 1;
      UnknownExactly(items[..i], key, tag);
      NextItem(items, key, i);
      assert items[..i + 1] == items;
      hide Labelled, Total;
      assert One(items[i]).unknown && key(items[i]) == tag <==> UnknownAt(items, key, tag, i);
      assert forall k: nat | k < i :: UnknownAt(items[..i], key, tag, k) <==> UnknownAt(items, key, tag, k);
    }
  }

  // ------------------------------------------------------------ line by line

  function Tokens(items: seq<Call>): (amounts: seq<nat>)
    ensures |amounts| == |items| && forall k | 0 <= k < |items| :: amounts[k] == items[k].tokens
  {
    seq(|items|, k requires 0 <= k < |items| => items[k].tokens)
  }

  /** An unknown cost adds nothing. */
  function Costs(items: seq<Call>): (amounts: seq<nat>)
    ensures |amounts| == |items|
    ensures forall k | 0 <= k < |items| :: amounts[k] == if items[k].cost.Some? then items[k].cost.value else 0
  {
    seq(|items|, k requires 0 <= k < |items| => if items[k].cost.Some? then items[k].cost.value else 0)
  }

  /** The row sums up the calls at these positions. */
  ghost predicate SumsUp(row: Row, items: seq<Call>, at: set<nat>) {
    && row.calls == |at| && row.tokens == SumAt(Tokens(items), at) && row.estimated == SumAt(Costs(items), at)
    && (row.unknown <==> exists k :: k in at && 0 <= k < |items| && items[k].succeeded && items[k].cost.None?)
  }

  /** The positions that hold the value `x`. */
  function Holding(field: seq<string>, x: string): (at: set<nat>)
    ensures forall k :: k in at <==> 0 <= k < |field| && field[k] == x
  {
    set k | 0 <= k < |field| && field[k] == x
  }

  /**
   A table by a field, whose value for every call is given: the names of the lines are
   exactly the values that occur, each once, and a line sums up the calls with its value.
   */
  ghost predicate Tabulates(lines: seq<Line>, items: seq<Call>, field: seq<string>) {
    && DistinctNames(lines)
    && (forall name :: Named(lines, name) <==> name in field)
    && (forall i | 0 <= i < |lines| :: SumsUp(lines[i].row, items, Holding(field, lines[i].name)))
  }

  function FieldOf(items: seq<Call>, key: Call -> string): (field: seq<string>)
    ensures |field| == |items| && forall k | 0 <= k < |items| :: field[k] == key(items[k])
  {
    seq(|items|, k requires 0 <= k < |items| => key(items[k]))
  }

  lemma SumsUpNext(row: Row, items: seq<Call>, i: nat, at: set<nat>, all: set<nat>)
    requires i < |items| && SumsUp(row, items[..i], at)
    requires (forall k | k in at :: k < i) && (all == at || all == at + {i})
    ensures SumsUp(if i in all then Plus(row, One(items[i])) else row, items[..i + 1], all)
  {
    var now := items[..i + 1];
    assert Tokens(now)[..i] == Tokens(items[..i]) && Costs(now)[..i] == Costs(items[..i]);
    SumAtSame(Tokens(items[..i]), at, all);
    SumAtSame(Costs(items[..i]), at, all);
    if row.unknown {
      var k :| k in at && 0 <= k < |items[..i]| && items[..i][k].succeeded && items[..i][k].cost.None?;
      assert now[k] == items[k];
    }
    assert now[i] == items[i];
  }

  lemma HoldingNext(items: seq<Call>, key: Call -> string, i: nat, tag: string)
    requires i < |items|
    ensures var at, all := Holding(FieldOf(items[..i], key), tag), Holding(FieldOf(items[..i + 1], key), tag);
      all == if key(items[i]) == tag then at + {i} else at
  {}

  lemma NothingSumsUp()
    ensures SumsUp(Nothing(), [], {})
  {}

  /** The total of a label sums up the calls at the positions that carry it. */
  lemma {:induction false} TotalByPositions(items: seq<Call>, i: nat, key: Call -> string, tag: string)
    requires i <= |items|
    ensures SumsUp(Total(Labelled(items[..i], key, tag)), items[..i], Holding(FieldOf(items[..i], key), tag))
    decreases i
  {
    hide SumsUp, Labelled, Total, Plus, One, FieldOf;
    if i == 0 {
      NoItems(key);
      NothingSumsUp();
      assert items[..0] == [] && Holding(FieldOf(items[..0], key), tag) == {};
    } else {
      var at, all := Holding(FieldOf(items[..i - 1], key), tag), Holding(FieldOf(items[..i], key), tag);
      TotalByPositions(items, i - 1, key, tag);
      NextItem(items, key, i - 1);
      HoldingNext(items, key, i - 1, tag);
      SumsUpNext(Total(Labelled(items[..i - 1], key, tag)), items, i - 1, at, all);
    }
  }

  /** So a breakdown by a key is the table by the field that the key reads. */
  lemma BreakdownTabulates(lines: seq<Line>, items: seq<Call>, key: Call -> string, field: seq<string>)
    requires Breakdown(lines, items, key)
    requires |field| == |items| && forall k | 0 <= k < |items| :: field[k] == key(items[k])
    ensures Tabulates(lines, items, field)
  {
    hide SumsUp, Labelled, Total;
    assert field == FieldOf(items, key);
    assert items[..|items|] == items;
    forall i | 0 <= i < |lines| ensures SumsUp(lines[i].row, items, Holding(field, lines[i].name)) {
      TotalByPositions(items, |items|, key, lines[i].name);
    }
    forall name ensures Named(lines, name) <==> name in field {
      assert name in Labels(items, key) <==> name in field;
    }
  }

  /** What the page calls the workflow of a call. */
  function WorkflowLabel(c: Call, decimal: nat -> string): string {
    match c.workflow
    case None => "No workflow"
    case Some(w) => "Workflow " + decimal(w)
  }

  /** The label of calls without a workflow is no other call's, and different workflows have different labels. */
  lemma WorkflowLabels(a: Call, b: Call, decimal: nat -> string)
    requires forall v, w :: decimal(v) == decimal(w) ==> v == w
    ensures WorkflowLabel(a, decimal) == "No workflow" <==> a.workflow.None?
    ensures WorkflowLabel(a, decimal) == WorkflowLabel(b, decimal) <==> a.workflow == b.workflow
  {
    assert "No workflow"[0] == 'N' && "Workflow "[0] == 'W';
    if a.workflow.Some? { assert WorkflowLabel(a, decimal)[0] == 'W'; }
    if b.workflow.Some? { assert WorkflowLabel(b, decimal)[0] == 'W'; }
    if a.workflow.Some? && b.workflow.Some? {
      var x, y := WorkflowLabel(a, decimal), WorkflowLabel(b, decimal);
      assert x[9..] == decimal(a.workflow.value) && y[9..] == decimal(b.workflow.value);
    }
  }

  /** The first ten characters of a timestamp. */
  function Day(c: Call): string {
    if |c.created| <= 10 then c.created else c.created[..10]
  }

  /** The four breakdowns of the page: by task, by model, by workflow and by day. */
  method Breakdowns(items: seq<Call>, decimal: nat -> string, leq: (string, string) -> bool)
      returns (tasks: seq<Line>, models: seq<Line>, workflows: seq<Line>, days: seq<Line>)
    requires Comparison(leq)
    ensures Sorted(tasks, leq) && Sorted(models, leq) && Sorted(workflows, leq) && Sorted(days, leq)
    ensures Tabulates(tasks, items, seq(|items|, k requires 0 <= k < |items| => items[k].task))
    ensures Tabulates(models, items, seq(|items|, k requires 0 <= k < |items| => items[k].model))
    ensures Tabulates(workflows, items, seq(|items|, k requires 0 <= k < |items| =>
      if items[k].workflow.None? then "No workflow" else "Workflow " + decimal(items[k].workflow.value)))
    ensures Tabulates(days, items, seq(|items|, k requires 0 <= k < |items| =>
      if |items[k].created| <= 10 then items[k].created else items[k].created[..10]))
    ensures SumLines(tasks) == SumLines(models) == SumLines(workflows) == SumLines(days) == Total(items)
  {
    hide Sorted, Breakdown, Total, SumLines, Comparison, Tabulates;
    var byTask, byModel, byDay := (c: Call) => c.task, (c: Call) => c.model, (c: Call) => Day(c);
    var byWorkflow := (c: Call) => WorkflowLabel(c, decimal);
    tasks := Aggregate(items, byTask, leq);
    models := Aggregate(items, byModel, leq);
    workflows := Aggregate(items, byWorkflow, leq);
    days := Aggregate(items, byDay, leq);
    BreakdownConserves(tasks, items, byTask);
    BreakdownConserves(models, items, byModel);
    BreakdownConserves(workflows, items, byWorkflow);
    BreakdownConserves(days, items, byDay);
    BreakdownTabulates(tasks, items, byTask, seq(|items|, k requires 0 <= k < |items| => items[k].task));
    BreakdownTabulates(models, items, byModel, seq(|items|, k requires 0 <= k < |items| => items[k].model));
    BreakdownTabulates(workflows, items, byWorkflow, seq(|items|, k requires 0 <= k < |items| =>
      if items[k].workflow.None? then "No workflow" else "Workflow " + decimal(items[k].workflow.value)));
    BreakdownTabulates(days, items, byDay, seq(|items|, k requires 0 <= k < |items| =>
      if |items[k].created| <= 10 then items[k].created else items[k].created[..10]));
  }
}
