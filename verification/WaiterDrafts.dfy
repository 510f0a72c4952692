/**
 The waiter's drafts, one per table, in apps/waiter-app/src/store/waiter.store.ts: adding a line merges
 it with the line of the same selection.
 */
module DraftModel {
  import opened Grouping
  import opened Options
  import opened Selections
  import opened Sequences
  import Text

  type Drafts = map<string, seq<DraftLine>>

  function Draft(drafts: Drafts, tableId: string): seq<DraftLine> { if tableId in drafts then drafts[tableId] else [] }

  function SameAs(line: DraftLine): DraftLine -> bool { (l: DraftLine) => SameSelection(l, line) }

  /** `findIndex` with sameSelection. */
  function FindSame(lines: seq<DraftLine>, line: DraftLine): Option<nat> { FindFirst(lines, SameAs(line)) }

  function Add(lines: seq<DraftLine>, line: DraftLine): seq<DraftLine> {
    match FindSame(lines, line)
    case None => lines + [line]
    case Some(i) => lines[i := lines[i].(quantity := lines[i].quantity + line.quantity)]
  }

  /** What one line becomes when the buttons of line `id` are used. */
  function Increased(id: string): DraftLine -> seq<DraftLine> {
    (line: DraftLine) => if line.cartLineId == id then [line.(quantity := line.quantity + 1)] else [line]
  }

  function Decreased(id: string): DraftLine -> seq<DraftLine> {
    (line: DraftLine) =>
      if line.cartLineId != id then [line]
      else if line.quantity <= 1 then []
      else [line.(quantity := line.quantity - 1)]
  }

  function Kept(id: string): DraftLine -> seq<DraftLine> {
    (line: DraftLine) => if line.cartLineId == id then [] else [line]
  }

  function WithNotes(line: DraftLine, notes: string): DraftLine {
    line.(notes := if Text.Trim(notes) == "" then None else Some(Text.Trim(notes)))
  }

  function Renoted(id: string, notes: string): DraftLine -> seq<DraftLine> {
    (line: DraftLine) => if line.cartLineId == id then [WithNotes(line, notes)] else [line]
  }

  function Increment(lines: seq<DraftLine>, id: string): seq<DraftLine> { FlatMap(lines, Increased(id)) }

  function Decrement(lines: seq<DraftLine>, id: string): seq<DraftLine> { FlatMap(lines, Decreased(id)) }

  function RemoveLine(lines: seq<DraftLine>, id: string): seq<DraftLine> { FlatMap(lines, Kept(id)) }

  function UpdateNotes(lines: seq<DraftLine>, id: string, notes: string): seq<DraftLine> { FlatMap(lines, Renoted(id, notes)) }

  /** An item of an order, with the option id of each of its modifiers. */
  datatype OrderItem = OrderItem(id: string, menuItemId: string, quantity: int, notes: Option<string>,
                                 modifiers: Option<seq<Option<string>>>)

  const Chosen: Option<string> -> seq<string> := (id: Option<string>) =>
    if id.Some? && id.value != "" then [id.value] else []

  function LineOf(item: OrderItem): DraftLine {
    DraftLine(item.id, item.menuItemId, item.quantity, item.notes,
              if item.modifiers.Some? then Some(FlatMap(item.modifiers.value, Chosen)) else None)
  }

  /** `mapOrderToDraftLines` */
  function LinesOf(items: seq<OrderItem>): seq<DraftLine> {
    seq(|items|, i requires 0 <= i < |items| => LineOf(items[i]))
  }

  // ---------- Quantities by selection ----------

  function Counted(pattern: DraftLine): DraftLine -> int {
    (l: DraftLine) => if SameSelection(l, pattern) then l.quantity else 0
  }

  /** How many units of the pattern's selection a draft holds. */
  function Quantity(lines: seq<DraftLine>, pattern: DraftLine): int { Total(lines, Counted(pattern)) }

  /** Adding a line adds exactly its quantity to its selection and nothing to any other. */
  lemma AddCounts(lines: seq<DraftLine>, line: DraftLine, pattern: DraftLine)
    ensures Quantity(Add(lines, line), pattern) ==
            Quantity(lines, pattern) + (if SameSelection(line, pattern) then line.quantity else 0)
  {
    hide Join, SortIds, TrimmedNotes, Modifiers;
    var found := FindSame(lines, line);
    if found.None? {
      FrontLast(lines, line);
    } else {
      var i := found.value;
      TotalUpdate(lines, i, lines[i].(quantity := lines[i].quantity + line.quantity), Counted(pattern));
      assert SameSelection(lines[i].(quantity := lines[i].quantity + line.quantity), pattern) == SameSelection(lines[i], pattern) by {
        SelectionIgnoresQuantity(lines[i], lines[i].quantity + line.quantity);
      }
    }
  }

  lemma SelectionIgnoresQuantity(line: DraftLine, quantity: int)
    ensures Modifiers(line.(quantity := quantity)) == Modifiers(line)
    ensures TrimmedNotes(line.(quantity := quantity)) == TrimmedNotes(line)
  {
  }

  ghost predicate DistinctIds(lines: seq<DraftLine>) {
    forall i, j :: 0 <= i < j < |lines| ==> lines[i].cartLineId != lines[j].cartLineId
  }

  lemma SameAfterCount(line: DraftLine, quantity: int, pattern: DraftLine)
    ensures SameSelection(line.(quantity := quantity), pattern) == SameSelection(line, pattern)
  {
    hide Join, SortIds, TrimmedNotes, Modifiers;
    SelectionIgnoresQuantity(line, quantity);
  }

  lemma QuantityAround(lines: seq<DraftLine>, n: nat, replacement: seq<DraftLine>, pattern: DraftLine)
    requires n < |lines|
    ensures Quantity(lines[..n] + replacement + lines[n + 1..], pattern) ==
            Quantity(lines, pattern) - Counted(pattern)(lines[n]) + Quantity(replacement, pattern)
  {
    hide SameSelection;
    var f := Counted(pattern);
    TotalConcat(lines[..n] + replacement, lines[n + 1..], f);
    TotalConcat(lines[..n], replacement, f);
    assert lines == (lines[..n] + [lines[n]]) + lines[n + 1..];
    TotalConcat(lines[..n] + [lines[n]], lines[n + 1..], f);
    FrontLast(lines[..n], lines[n]);
  }

  lemma QuantityOne(line: DraftLine, pattern: DraftLine)
    ensures Quantity([], pattern) == 0 && Quantity([line], pattern) == Counted(pattern)(line)
  {
    assert Front([line]) == [] && Last([line]) == line;
  }

  /** The plus button adds one unit to its line's selection, the minus button takes one away, and removing
      takes the whole line away; other selections keep their quantities. */
  lemma ButtonsCount(lines: seq<DraftLine>, n: nat, pattern: DraftLine)
    requires n < |lines| && DistinctIds(lines) && lines[n].quantity > 0
    ensures var (id, same) := (lines[n].cartLineId, SameSelection(lines[n], pattern));
            && Quantity(Increment(lines, id), pattern) == Quantity(lines, pattern) + (if same then 1 else 0)
            && Quantity(Decrement(lines, id), pattern) == Quantity(lines, pattern) - (if same then 1 else 0)
            && Quantity(RemoveLine(lines, id), pattern) == Quantity(lines, pattern) - (if same then lines[n].quantity else 0)
  {
    hide SameSelection, Total, FlatMap;
    var line, id := lines[n], lines[n].cartLineId;
    FlatMapAt(lines, n, Increased(id));
    FlatMapAt(lines, n, Decreased(id));
    FlatMapAt(lines, n, Kept(id));
    QuantityAround(lines, n, Increased(id)(line), pattern);
    QuantityAround(lines, n, Decreased(id)(line), pattern);
    QuantityAround(lines, n, [], pattern);
    QuantityOne(line.(quantity := line.quantity + 1), pattern);
    QuantityOne(line.(quantity := line.quantity - 1), pattern);
    SameAfterCount(line, line.quantity + 1, pattern);
    SameAfterCount(line, line.quantity - 1, pattern);
  }

  ghost predicate Positive(lines: seq<DraftLine>) {
    forall i :: 0 <= i < |lines| ==> lines[i].quantity > 0
  }

  /** Minus undoes plus. */
  lemma DecrementUndoesIncrement(lines: seq<DraftLine>, id: string)
    requires Positive(lines)
    ensures Decrement(Increment(lines, id), id) == lines
  {
    forall i | 0 <= i < |lines|
      ensures FlatMap(Increased(id)(lines[i]), Decreased(id)) == [lines[i]]
    {
      var up := Increased(id)(lines[i]);
      assert Front(up) == [] && Last(up) == up[0];
      assert FlatMap(up, Decreased(id)) == [] + Decreased(id)(up[0]);
    }
    FlatMapUndo(lines, Increased(id), Decreased(id));
  }

  // ---------- One line per selection ----------

  /** No two lines of the draft have the same selection. */
  ghost predicate Merged(lines: seq<DraftLine>) {
    forall i, j :: 0 <= i < j < |lines| ==> !SameSelection(lines[i], lines[j])
  }

  lemma AddKeepsMerged(lines: seq<DraftLine>, line: DraftLine)
    requires Merged(lines)
    ensures Merged(Add(lines, line))
  {
    hide SameSelection;
    var found := FindSame(lines, line);
    if found.Some? {
      var i := found.value;
      var bumped := lines[i].(quantity := lines[i].quantity + line.quantity);
      forall j | 0 <= j < |lines|
        ensures SameSelection(bumped, lines[j]) == SameSelection(lines[i], lines[j])
        ensures SameSelection(lines[j], bumped) == SameSelection(lines[j], lines[i])
      {
        SameAfterCount(lines[i], bumped.quantity, lines[j]);
        SameIsSymmetric(lines[j], bumped);
        SameIsSymmetric(lines[j], lines[i]);
      }
    }
  }

  lemma SameIsSymmetric(a: DraftLine, b: DraftLine)
    ensures SameSelection(a, b) == SameSelection(b, a)
  {
  }

  /** `b` is `a` with another quantity, or the same. */
  predicate Recounts(a: DraftLine, b: DraftLine) { b == a.(quantity := b.quantity) }

  lemma RecountsSame(a: DraftLine, b: DraftLine, pattern: DraftLine)
    requires Recounts(a, b)
    ensures SameSelection(b, pattern) == SameSelection(a, pattern)
  {
    SameAfterCount(a, b.quantity, pattern);
  }

  /** Every line of `after` continues a line of `before`, in the same order and with the same selection. */
  ghost predicate Continues(after: seq<DraftLine>, before: seq<DraftLine>, from: seq<nat>) {
    && |from| == |after|
    && (forall i :: 0 <= i < |from| ==> from[i] < |before| && Recounts(before[from[i]], after[i]))
    && (forall i, j :: 0 <= i < j < |from| ==> from[i] < from[j])
  }

  lemma ContinuesKeepsMerged(after: seq<DraftLine>, before: seq<DraftLine>, from: seq<nat>)
    requires Continues(after, before, from) && Merged(before)
    ensures Merged(after)
  {
    hide SameSelection;
    forall i, j | 0 <= i < j < |after|
      ensures !SameSelection(after[i], after[j])
    {
      var a, b := before[from[i]], before[from[j]];
      RecountsSame(a, after[i], after[j]);
      SameIsSymmetric(a, after[j]);
      RecountsSame(b, after[j], a);
      SameIsSymmetric(b, a);
    }
  }

  /** A step that gives at most one line for each line, changing only its quantity. */
  lemma ContinuesSnoc(after: seq<DraftLine>, before: seq<DraftLine>, from: seq<nat>, line: DraftLine, result: seq<DraftLine>)
      returns (from': seq<nat>)
    requires Continues(after, before, from)
    requires |result| <= 1 && (result != [] ==> Recounts(line, result[0]))
    ensures Continues(after + result, before + [line], from')
  {
    from' := if result == [] then from else from + [|before|];
    assert forall i :: 0 <= i < |before| ==> (before + [line])[i] == before[i];
    if result == [] {
      assert after + result == after;
    } else {
      assert (before + [line])[|before|] == line;
    }
  }

  /** `f` gives at most one line for each, and changes only its quantity. */
  ghost predicate CountsOnly(f: DraftLine -> seq<DraftLine>) {
    forall l: DraftLine :: |f(l)| <= 1 && (f(l) != [] ==> Recounts(l, f(l)[0]))
  }

  lemma ButtonsCountOnly(id: string)
    ensures CountsOnly(Increased(id)) && CountsOnly(Decreased(id)) && CountsOnly(Kept(id))
  {
  }

  lemma ButtonsKeepQuantities(id: string, l: DraftLine)
    requires l.quantity > 0
    ensures Positive(Increased(id)(l)) && Positive(Decreased(id)(l)) && Positive(Kept(id)(l))
  {
  }

  lemma {:induction false} ButtonContinues(lines: seq<DraftLine>, f: DraftLine -> seq<DraftLine>) returns (from: seq<nat>)
    requires CountsOnly(f)
    ensures Continues(FlatMap(lines, f), lines, from)
  {
    if lines == [] {
      from := [];
    } else {
      var front, last := Front(lines), Last(lines);
      assert lines == front + [last];
      from := ButtonContinues(front, f);
      from := ContinuesSnoc(FlatMap(front, f), front, from, last, f(last));
    }
  }

  lemma ButtonKeepsMerged(lines: seq<DraftLine>, f: DraftLine -> seq<DraftLine>)
    requires CountsOnly(f) && Merged(lines)
    ensures Merged(FlatMap(lines, f))
  {
    var from := ButtonContinues(lines, f);
    ContinuesKeepsMerged(FlatMap(lines, f), lines, from);
  }

  lemma {:induction false} ButtonKeepsPositive(lines: seq<DraftLine>, f: DraftLine -> seq<DraftLine>)
    requires Positive(lines) && forall l: DraftLine :: l.quantity > 0 ==> Positive(f(l))
    ensures Positive(FlatMap(lines, f))
  {
    if lines != [] {
      assert forall i :: 0 <= i < |Front(lines)| ==> Front(lines)[i] == lines[i];
      assert Last(lines) == lines[|lines| - 1];
      ButtonKeepsPositive(Front(lines), f);
    }
  }

  /** Changing the notes of a line keeps one line per selection exactly when no other line already has the
      selection it gets. */
  lemma UpdateNotesKeepsMergedIff(lines: seq<DraftLine>, n: nat, notes: string)
    requires n < |lines| && DistinctIds(lines) && Merged(lines)
    ensures Merged(UpdateNotes(lines, lines[n].cartLineId, notes)) <==>
              forall i :: 0 <= i < |lines| && i != n ==> !SameSelection(lines[i], WithNotes(lines[n], notes))
  {
    hide SameSelection;
    var id, line := lines[n].cartLineId, WithNotes(lines[n], notes);
    FlatMapAt(lines, n, Renoted(id, notes));
    var after := lines[n := line];
    assert UpdateNotes(lines, id, notes) == after;
    forall i | 0 <= i < |lines|
      ensures SameSelection(lines[i], line) == SameSelection(line, lines[i])
    {
      SameIsSymmetric(lines[i], line);
    }
    if Merged(after) {
      forall i | 0 <= i < |lines| && i != n
        ensures !SameSelection(lines[i], line)
      {
        assert after[i] == lines[i] && after[n] == line;
      }
    }
  }

  lemma ContinuesKeepsIds(after: seq<DraftLine>, before: seq<DraftLine>, from: seq<nat>)
    requires Continues(after, before, from) && DistinctIds(before)
    ensures DistinctIds(after)
  {
    forall i, j | 0 <= i < j < |after|
      ensures after[i].cartLineId != after[j].cartLineId
    {
      assert Recounts(before[from[i]], after[i]) && Recounts(before[from[j]], after[j]);
    }
  }

  lemma ButtonKeepsIds(lines: seq<DraftLine>, f: DraftLine -> seq<DraftLine>)
    requires CountsOnly(f) && DistinctIds(lines)
    ensures DistinctIds(FlatMap(lines, f))
  {
    var from := ButtonContinues(lines, f);
    ContinuesKeepsIds(FlatMap(lines, f), lines, from);
  }

  /** Positive quantities, one line per selection, one line per id. */
  ghost predicate TidyLines(lines: seq<DraftLine>) {
    Positive(lines) && Merged(lines) && DistinctIds(lines)
  }

  /** Another line already has the selection that new notes would give to the line with the id. */
  predicate NotesClash(lines: seq<DraftLine>, id: string, notes: string) {
    exists n, i :: 0 <= n < |lines| && 0 <= i < |lines| && i != n && lines[n].cartLineId == id
                   && SameSelection(lines[i], WithNotes(lines[n], notes))
  }

  lemma NotesTidyIff(lines: seq<DraftLine>, id: string, notes: string)
    requires TidyLines(lines)
    ensures TidyLines(UpdateNotes(lines, id, notes)) <==> !NotesClash(lines, id, notes)
  {
    hide SameSelection, FlatMap;
    if n :| 0 <= n < |lines| && lines[n].cartLineId == id {
      UpdateNotesKeepsMergedIff(lines, n, notes);
      FlatMapAt(lines, n, Renoted(id, notes));
      var after := lines[n := WithNotes(lines[n], notes)];
      assert UpdateNotes(lines, id, notes) == after;
      assert Positive(after) && DistinctIds(after);
    } else {
      FlatMapIdentity(lines, Renoted(id, notes));
    }
  }

  /** New notes move the line's quantity from its old selection to its new one. */
  lemma NotesCount(lines: seq<DraftLine>, n: nat, notes: string, pattern: DraftLine)
    requires n < |lines| && DistinctIds(lines)
    ensures Quantity(UpdateNotes(lines, lines[n].cartLineId, notes), pattern) ==
            Quantity(lines, pattern)
            - (if SameSelection(lines[n], pattern) then lines[n].quantity else 0)
            + (if SameSelection(WithNotes(lines[n], notes), pattern) then lines[n].quantity else 0)
  {
    hide SameSelection, Total, FlatMap;
    var id, renoted := lines[n].cartLineId, WithNotes(lines[n], notes);
    FlatMapAt(lines, n, Renoted(id, notes));
    QuantityAround(lines, n, [renoted], pattern);
    QuantityOne(renoted, pattern);
  }

  // ---------- Runs ----------

  datatype Op =
    | AddOp(line: DraftLine)
    | IncrementOp(id: string)
    | DecrementOp(id: string)
    | NotesOp(id: string, notes: string)
    | RemoveOp(id: string)
    | ClearOp
    | LoadOp(items: seq<OrderItem>)

  datatype Call = Call(tableId: string, op: Op)

  function Step(drafts: Drafts, c: Call): Drafts {
    var lines := Draft(drafts, c.tableId);
    drafts[c.tableId :=
      match c.op
      case AddOp(line) => Add(lines, line)
      case IncrementOp(id) => Increment(lines, id)
      case DecrementOp(id) => Decrement(lines, id)
      case NotesOp(id, notes) => UpdateNotes(lines, id, notes)
      case RemoveOp(id) => RemoveLine(lines, id)
      case ClearOp => []
      case LoadOp(items) => LinesOf(items)]
  }

  function Run(drafts: Drafts, calls: seq<Call>): Drafts {
    if calls == [] then drafts else Step(Run(drafts, Front(calls)), Last(calls))
  }

  /** A call changes the draft of its table only. */
  lemma CallKeepsOthers(drafts: Drafts, c: Call, tableId: string)
    requires tableId != c.tableId
    ensures Draft(Step(drafts, c), tableId) == Draft(drafts, tableId)
  {
    hide Add, FlatMap, LinesOf;
  }

  /** Adding a line gives its quantity to its selection at its table and nothing to any other; clearing leaves
      nothing. */
  lemma AddCallCounts(drafts: Drafts, tableId: string, line: DraftLine, pattern: DraftLine)
    ensures UnitsAfter(drafts, tableId, AddOp(line), pattern) ==
            Quantity(Draft(drafts, tableId), pattern) + (if SameSelection(line, pattern) then line.quantity else 0)
    ensures UnitsAfter(drafts, tableId, ClearOp, pattern) == 0
  {
    hide SameSelection, Add;
    AddCounts(Draft(drafts, tableId), line, pattern);
  }

  /** Line `i` is the first of the selection. */
  ghost predicate FirstOf(lines: seq<DraftLine>, line: DraftLine, i: nat) {
    i < |lines| && SameSelection(lines[i], line) && forall k :: 0 <= k < i ==> !SameSelection(lines[k], line)
  }

  lemma FindsFirst(lines: seq<DraftLine>, line: DraftLine)
    ensures var found := FindSame(lines, line);
            if found.Some? then FirstOf(lines, line, found.value) else forall i :: 0 <= i < |lines| ==> !SameSelection(lines[i], line)
  {
    hide SameSelection;
  }

  /** A line is added to the first line of its selection, which keeps all but its quantity, or else at the end. */
  lemma AddCallMerges(drafts: Drafts, tableId: string, line: DraftLine)
    ensures var (lines, after) := (Draft(drafts, tableId), Draft(Step(drafts, Call(tableId, AddOp(line))), tableId));
            if exists i :: 0 <= i < |lines| && SameSelection(lines[i], line)
            then exists i: nat :: FirstOf(lines, line, i) && after == lines[i := lines[i].(quantity := lines[i].quantity + line.quantity)]
            else after == lines + [line]
  {
    hide SameSelection, FindSame;
    FindsFirst(Draft(drafts, tableId), line);
  }

  /** With distinct ids plus and minus give and take one of the named line's selection, remove its quantity, and new
      notes move its quantity to the selection with those notes, trimmed; no other selection is affected. */
  lemma ButtonCallsCount(drafts: Drafts, tableId: string, n: nat, notes: string, pattern: DraftLine)
    requires n < |Draft(drafts, tableId)| && DistinctIds(Draft(drafts, tableId)) && Draft(drafts, tableId)[n].quantity > 0
    ensures var (lines, was) := (Draft(drafts, tableId), Draft(drafts, tableId)[n]);
            var (units, id, same) := (Quantity(lines, pattern), was.cartLineId, SameSelection(was, pattern));
            var noted := was.(notes := if Text.Trim(notes) == "" then None else Some(Text.Trim(notes)));
            && UnitsAfter(drafts, tableId, IncrementOp(id), pattern) == units + (if same then 1 else 0)
            && UnitsAfter(drafts, tableId, DecrementOp(id), pattern) == units - (if same then 1 else 0)
            && UnitsAfter(drafts, tableId, RemoveOp(id), pattern) == units - (if same then was.quantity else 0)
            && UnitsAfter(drafts, tableId, NotesOp(id, notes), pattern) ==
                 units - (if same then was.quantity else 0) + (if SameSelection(noted, pattern) then was.quantity else 0)
  {
    hide SameSelection, FlatMap, Text.Trim, DistinctIds, Quantity, Increment, Decrement, RemoveLine, UpdateNotes;
    ButtonsCount(Draft(drafts, tableId), n, pattern);
    NotesCount(Draft(drafts, tableId), n, notes, pattern);
  }

  function UnitsAfter(drafts: Drafts, tableId: string, op: Op, pattern: DraftLine): int {
    Quantity(Draft(Step(drafts, Call(tableId, op)), tableId), pattern)
  }

  /** The lines that an order is loaded as: item by item its id, dish, quantity and notes, and of its modifiers the
      option ids that are not empty, in their order. */
  lemma LoadedLines(drafts: Drafts, tableId: string, items: seq<OrderItem>, i: nat)
    requires i < |items|
    ensures var lines := Draft(Step(drafts, Call(tableId, LoadOp(items))), tableId);
            && |lines| == |items|
            && lines[i].cartLineId == items[i].id && lines[i].menuItemId == items[i].menuItemId
            && lines[i].quantity == items[i].quantity && lines[i].notes == items[i].notes
            && (lines[i].modifierOptionIds.Some? <==> items[i].modifiers.Some?)
            && (items[i].modifiers.Some? ==> lines[i].modifierOptionIds.value == FlatMap(items[i].modifiers.value, Chosen))
  {
    hide FlatMap;
  }

  lemma ChosenIs(modifiers: seq<Option<string>>, id: Option<string>)
    ensures FlatMap([], Chosen) == []
    ensures FlatMap(modifiers + [id], Chosen) == FlatMap(modifiers, Chosen) + (if id.None? || id == Some("") then [] else [id.value])
  {
    FlatMapSnoc(modifiers, id, Chosen);
  }

  ghost predicate Tidy(drafts: Drafts) {
    forall t :: t in drafts ==> TidyLines(drafts[t])
  }

  /** Items with positive quantities and ids of their own, no two of one dish, notes and options. */
  ghost predicate TidyItems(items: seq<OrderItem>) {
    && (forall i :: 0 <= i < |items| ==> items[i].quantity > 0)
    && (forall i, j :: 0 <= i < j < |items| ==>
          items[i].id != items[j].id && !SameSelection(LineOf(items[i]), LineOf(items[j])))
  }

  /** What it takes for a line to be added tidily: merged into a line of its selection it leaves a positive
      quantity there; otherwise it has one itself, and a new id. */
  ghost predicate AddsTidily(lines: seq<DraftLine>, line: DraftLine) {
    match FindSame(lines, line)
    case Some(i) => lines[i].quantity + line.quantity > 0
    case None => line.quantity > 0 && forall l :: l in lines ==> l.cartLineId != line.cartLineId
  }

  /** The condition on a call, in terms of what it finds. */
  ghost predicate ActsTidily(drafts: Drafts, c: Call) {
    var lines := Draft(drafts, c.tableId);
    match c.op
    case AddOp(line) => AddsTidily(lines, line)
    case NotesOp(id, notes) => !NotesClash(lines, id, notes)
    case LoadOp(items) => TidyItems(items)
    case _ => true
  }

  /** A call keeps all drafts tidy exactly when it acts tidily; the drafts of the other tables stay as they
      are in any case. */
  lemma StepTidyIff(drafts: Drafts, c: Call)
    requires Tidy(drafts)
    ensures Tidy(Step(drafts, c)) <==> ActsTidily(drafts, c)
    ensures forall t :: t != c.tableId ==> Draft(Step(drafts, c), t) == Draft(drafts, t)
  {
    hide TidyLines, Add, FlatMap, NotesClash, AddsTidily, TidyItems, LinesOf;
    var lines := Draft(drafts, c.tableId);
    NothingTidy();
    match c.op
    case AddOp(line) =>
      AddTidyIff(lines, line);
      assert Step(drafts, c)[c.tableId] == Add(lines, line);
    case IncrementOp(id) => ButtonsTidy(lines, id);
    case DecrementOp(id) => ButtonsTidy(lines, id);
    case NotesOp(id, notes) =>
      NotesTidyIff(lines, id, notes);
      assert Step(drafts, c)[c.tableId] == UpdateNotes(lines, id, notes);
    case RemoveOp(id) => ButtonsTidy(lines, id);
    case ClearOp =>
    case LoadOp(items) =>
      LoadTidyIff(items);
      assert Step(drafts, c)[c.tableId] == LinesOf(items);
  }

  lemma LoadTidyIff(items: seq<OrderItem>)
    ensures TidyLines(LinesOf(items)) <==> TidyItems(items)
  {
    hide SameSelection, LineOf;
    var lines := LinesOf(items);
    forall i | 0 <= i < |items|
      ensures lines[i] == LineOf(items[i]) && lines[i].quantity == items[i].quantity && lines[i].cartLineId == items[i].id
    {
      LineKeeps(items[i]);
    }
    if TidyLines(lines) {
      forall i, j | 0 <= i < j < |items|
        ensures items[i].id != items[j].id && !SameSelection(LineOf(items[i]), LineOf(items[j]))
      {
        assert lines[i].cartLineId != lines[j].cartLineId && !SameSelection(lines[i], lines[j]);
      }
      assert forall i :: 0 <= i < |items| ==> lines[i].quantity > 0;
    }
  }

  lemma LineKeeps(item: OrderItem)
    ensures LineOf(item).quantity == item.quantity && LineOf(item).cartLineId == item.id
  {
  }

  /** An order that lists one dish twice, with the same notes and options, is loaded as two lines of one
      selection. */
  lemma RepeatedDishLoads(drafts: Drafts, tableId: string, item: OrderItem, otherId: string)
    requires Tidy(drafts)
    ensures !Tidy(Step(drafts, Call(tableId, LoadOp([item, item.(id := otherId)]))))
  {
    var items := [item, item.(id := otherId)];
    assert SameSelection(LineOf(items[0]), LineOf(items[1]));
    StepTidyIff(drafts, Call(tableId, LoadOp(items)));
  }

  lemma ButtonsTidy(lines: seq<DraftLine>, id: string)
    requires TidyLines(lines)
    ensures TidyLines(Increment(lines, id)) && TidyLines(Decrement(lines, id)) && TidyLines(RemoveLine(lines, id))
  {
    hide Merged, FlatMap, Positive, CountsOnly, DistinctIds;
    ButtonsCountOnly(id);
    forall l: DraftLine | l.quantity > 0
      ensures Positive(Increased(id)(l)) && Positive(Decreased(id)(l)) && Positive(Kept(id)(l))
    {
      ButtonsKeepQuantities(id, l);
    }
    ButtonTidy(lines, Increased(id));
    ButtonTidy(lines, Decreased(id));
    ButtonTidy(lines, Kept(id));
  }

  lemma ButtonTidy(lines: seq<DraftLine>, f: DraftLine -> seq<DraftLine>)
    requires TidyLines(lines) && CountsOnly(f)
    requires forall l: DraftLine :: l.quantity > 0 ==> Positive(f(l))
    ensures TidyLines(FlatMap(lines, f))
  {
    hide Merged, FlatMap, Positive, CountsOnly, DistinctIds;
    ButtonKeepsMerged(lines, f);
    ButtonKeepsPositive(lines, f);
    ButtonKeepsIds(lines, f);
  }

  lemma NothingTidy()
    ensures TidyLines([])
  {
  }

  lemma AddTidyIff(lines: seq<DraftLine>, line: DraftLine)
    requires TidyLines(lines)
    ensures TidyLines(Add(lines, line)) <==> AddsTidily(lines, line)
  {
    hide SameSelection, Merged;
    AddKeepsMerged(lines, line);
    var after, found := Add(lines, line), FindSame(lines, line);
    if found.Some? {
      assert after[found.value].quantity == lines[found.value].quantity + line.quantity;
    } else {
      assert after[|lines|] == line;
      assert forall i :: 0 <= i < |lines| ==> after[i] == lines[i] && lines[i] in lines;
    }
  }

  /** Every call of the run acts tidily on what it finds. */
  ghost predicate AllActTidily(drafts: Drafts, calls: seq<Call>) {
    calls == [] || (AllActTidily(drafts, Front(calls)) && ActsTidily(Run(drafts, Front(calls)), Last(calls)))
  }

  /** Over every such run, at any tables: all quantities stay positive and every draft keeps one line per
      selection and per id. */
  lemma {:induction false} RunKeepsTidy(drafts: Drafts, calls: seq<Call>)
    requires Tidy(drafts) && AllActTidily(drafts, calls)
    ensures Tidy(Run(drafts, calls))
  {
    if calls != [] {
      RunKeepsTidy(drafts, Front(calls));
      StepTidyIff(Run(drafts, Front(calls)), Last(calls));
    }
  }
}

/** The draft part of the waiter store. */
module DraftObjects {
  import opened Options
  import opened Selections
  import opened Sequences
  import opened Spec = DraftModel

  class WaiterDrafts {
    var draftByTable: Drafts

    constructor ()
      ensures draftByTable == map[]
    {
      draftByTable := map[];
    }

    method AddDraftLine(tableId: string, line: DraftLine)
      modifies this
      ensures draftByTable == Spec.Step(old(draftByTable), Call(tableId, AddOp(line)))
      ensures old(Tidy(draftByTable)) ==> (Tidy(draftByTable) <==> ActsTidily(old(draftByTable), Call(tableId, AddOp(line))))
    {
      if Tidy(draftByTable) {
        StepTidyIff(draftByTable, Call(tableId, AddOp(line)));
      }
      var current := Draft(draftByTable, tableId);
      var index := FindSame(current, line);
      if index.None? {
        draftByTable := draftByTable[tableId := current + [line]];
        return;
      }
      var next := current;
      next := next[index.value := next[index.value].(quantity := next[index.value].quantity + line.quantity)];
      draftByTable := draftByTable[tableId := next];
    }

    method IncrementDraftLine(tableId: string, cartLineId: string)
      modifies this
      ensures draftByTable == Spec.Step(old(draftByTable), Call(tableId, IncrementOp(cartLineId)))
      ensures old(Tidy(draftByTable)) ==> Tidy(draftByTable)
    {
      if Tidy(draftByTable) {
        StepTidyIff(draftByTable, Call(tableId, IncrementOp(cartLineId)));
      }
      draftByTable := draftByTable[tableId := Increment(Draft(draftByTable, tableId), cartLineId)];
    }

    method DecrementDraftLine(tableId: string, cartLineId: string)
      modifies this
      ensures draftByTable == Spec.Step(old(draftByTable), Call(tableId, DecrementOp(cartLineId)))
      ensures old(Tidy(draftByTable)) ==> Tidy(draftByTable)
    {
      if Tidy(draftByTable) {
        StepTidyIff(draftByTable, Call(tableId, DecrementOp(cartLineId)));
      }
      draftByTable := draftByTable[tableId := Decrement(Draft(draftByTable, tableId), cartLineId)];
    }

    method UpdateDraftLineNotes(tableId: string, cartLineId: string, notes: string)
      modifies this
      ensures draftByTable == Spec.Step(old(draftByTable), Call(tableId, NotesOp(cartLineId, notes)))
      ensures old(Tidy(draftByTable)) ==> (Tidy(draftByTable) <==> ActsTidily(old(draftByTable), Call(tableId, NotesOp(cartLineId, notes))))
    {
      if Tidy(draftByTable) {
        StepTidyIff(draftByTable, Call(tableId, NotesOp(cartLineId, notes)));
      }
      draftByTable := draftByTable[tableId := UpdateNotes(Draft(draftByTable, tableId), cartLineId, notes)];
    }

    method RemoveDraftLine(tableId: string, cartLineId: string)
      modifies this
      ensures draftByTable == Spec.Step(old(draftByTable), Call(tableId, RemoveOp(cartLineId)))
      ensures old(Tidy(draftByTable)) ==> Tidy(draftByTable)
    {
      if Tidy(draftByTable) {
        StepTidyIff(draftByTable, Call(tableId, RemoveOp(cartLineId)));
      }
      draftByTable := draftByTable[tableId := RemoveLine(Draft(draftByTable, tableId), cartLineId)];
    }

    method ClearDraft(tableId: string)
      modifies this
      ensures draftByTable == Spec.Step(old(draftByTable), Call(tableId, ClearOp))
      ensures old(Tidy(draftByTable)) ==> Tidy(draftByTable)
    {
      if Tidy(draftByTable) {
        StepTidyIff(draftByTable, Call(tableId, ClearOp));
      }
      draftByTable := draftByTable[tableId := []];
    }

    method LoadDraftFromOrder(tableId: string, items: seq<OrderItem>)
      modifies this
      ensures draftByTable == Spec.Step(old(draftByTable), Call(tableId, LoadOp(items)))
      ensures old(Tidy(draftByTable)) ==> (Tidy(draftByTable) <==> ActsTidily(old(draftByTable), Call(tableId, LoadOp(items))))
    {
      if Tidy(draftByTable) {
        StepTidyIff(draftByTable, Call(tableId, LoadOp(items)));
      }
      draftByTable := draftByTable[tableId := LinesOf(items)];
    }
  }
}
