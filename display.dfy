/** What the set screen renders from its state: the header, the pluralised
    heading, the list or its empty state, the progress bar and the
    "Remaining" and "Total" figures. */
module Display {
  import opened Wrappers
  import opened Expenses
  import opened Records

  /** The progress bar is rendered only for a non-zero total, a non-zero
      remainder and a total that differs from the remainder. */
  predicate ShowProgress(total: int, remaining: int) {
    total != 0 && remaining != 0 && total != remaining
  }

  /** The "Remaining" figure is rendered only when it differs from the total
      and is not zero. */
  predicate ShowRemaining(total: int, remaining: int) {
    remaining != total && remaining != 0
  }

  /** The width of the settled part of the bar, in viewport percent:
      `100 - (100 / total) * remaining`. It is the settled share of the
      total. */
  function ProgressWidth(total: int, remaining: int): (w: real)
    requires total != 0
    ensures w == 100.0 * (total - remaining) as real / total as real
  {
    100.0 - (100.0 / total as real) * remaining as real
  }

  /** The noun after the count in the list heading. */
  function HeadingNoun(count: nat): (noun: string)
    ensures noun == "expense" <==> count == 1
    ensures noun == "expense" || noun == "expenses"
  {
    if count == 1 then "expense" else "expenses"
  }

  /** The top of the screen: the greeting with the set's name once it is
      loaded, or the delete confirmation prompt. */
  datatype Header = Greeting(setName: Option<string>) | DeletePrompt

  /** Everything the screen shows that depends on its state. */
  datatype View = View(
    header: Header,
    count: nat,
    noun: string,
    tiles: seq<Expense>,
    emptyState: bool,
    progressWidth: Option<real>,
    remainingShown: Option<int>,
    totalShown: int)

  /** The rendering of the screen from its expenses, its cached set and its
      confirmation flag. */
  function Render(expenses: seq<Expense>, cached: Option<SetRecord>, confirming: bool): View {
    var total := Total(expenses);
    var remaining := Remaining(expenses);
    View(
      if confirming then DeletePrompt
      else Greeting(if cached.Some? then Some(cached.value.name) else None),
      |expenses|,
      HeadingNoun(|expenses|),
      expenses,
      |expenses| == 0,
      if ShowProgress(total, remaining) then Some(ProgressWidth(total, remaining)) else None,
      if ShowRemaining(total, remaining) then Some(remaining) else None,
      total)
  }

  // ---------------------------------------------------------------------
  // Properties of the rendering

  /** Between a zero and a full remainder, the bar is strictly between empty
      and full width. */
  lemma WidthInRange(total: int, remaining: int)
    requires 0 < remaining < total
    ensures 0.0 < ProgressWidth(total, remaining) < 100.0
  {
  }

  /** The worked example: a total of 100 with 25 remaining is 75% settled. */
  lemma WidthExample()
    ensures ProgressWidth(100, 25) == 75.0
  {
  }

  /** Whenever the bar is rendered, the "Remaining" figure is rendered too;
      the two differ only for a zero total. */
  lemma ProgressNeedsRemaining(total: int, remaining: int)
    ensures ShowProgress(total, remaining) <==> ShowRemaining(total, remaining) && total != 0
  {
  }

  /** With non-negative amounts the bar is rendered exactly when some expense
      still open and some expense done have a truthy amount. */
  lemma ProgressShownIff(es: seq<Expense>)
    requires NonNegative(es)
    ensures ShowProgress(Total(es), Remaining(es)) <==>
      (exists e :: e in es && !e.done && Contribution(e) > 0) &&
      (exists e :: e in es && e.done && Contribution(e) > 0)
  {
    Partition(es);
    PendingPositive(es);
    SettledPositive(es);
  }

  /** With non-negative amounts the remainder is positive exactly when some
      open expense has a positive amount. */
  lemma PendingPositive(es: seq<Expense>)
    requires NonNegative(es)
    ensures Remaining(es) >= 0
    ensures Remaining(es) > 0 <==> exists e :: e in es && !e.done && Contribution(e) > 0
  {
    var p := Pending(es);
    FilterMembers(es);
    assert NonNegative(p);
    SumPositive(p);
    if exists e :: e in es && !e.done && Contribution(e) > 0 {
      var e :| e in es && !e.done && Contribution(e) > 0;
      assert e in p;
    }
  }

  /** With non-negative amounts the settled sum is positive exactly when
      some done expense has a positive amount. */
  lemma SettledPositive(es: seq<Expense>)
    requires NonNegative(es)
    ensures Sum(Settled(es)) >= 0
    ensures Sum(Settled(es)) > 0 <==> exists e :: e in es && e.done && Contribution(e) > 0
  {
    var d := Settled(es);
    FilterMembers(es);
    assert NonNegative(d);
    SumPositive(d);
    if exists e :: e in es && e.done && Contribution(e) > 0 {
      var e :| e in es && e.done && Contribution(e) > 0;
      assert e in d;
    }
  }

  /** With non-negative amounts the bar and the "Remaining" figure are
      rendered together, and the bar is strictly between empty and full. */
  lemma ProgressConsistent(es: seq<Expense>)
    requires NonNegative(es)
    ensures ShowRemaining(Total(es), Remaining(es)) <==> ShowProgress(Total(es), Remaining(es))
    ensures ShowProgress(Total(es), Remaining(es)) ==>
      0.0 < ProgressWidth(Total(es), Remaining(es)) < 100.0
  {
    RemainingAtMostTotal(es);
    if ShowProgress(Total(es), Remaining(es)) {
      WidthInRange(Total(es), Remaining(es));
    }
  }

  /** The rendering gives the count, the noun, the tiles in list order, and
      shows the empty state exactly for an empty list. */
  lemma RenderList(expenses: seq<Expense>, cached: Option<SetRecord>, confirming: bool)
    ensures var v := Render(expenses, cached, confirming);
      && v.count == |expenses| && v.tiles == expenses
      && (v.noun == "expense" <==> |expenses| == 1)
      && (v.emptyState <==> expenses == [])
      && (v.header == DeletePrompt <==> confirming)
  {
  }

  /** Scenario: 10 open, 5 done and 0 open: total 15, remaining 10, bar
      shown. */
  lemma ScenarioMixed()
    ensures var v := Render([Expense("a", Some(10), false), Expense("b", Some(5), true),
                             Expense("c", Some(0), false)], None, false);
      && v.totalShown == 15
      && v.remainingShown == Some(10)
      && v.progressWidth.Some?
      && v.noun == "expenses"
  {
    var a, b, c := Expense("a", Some(10), false), Expense("b", Some(5), true), Expense("c", Some(0), false);
    var es := [a, b, c];
    assert es[..2] == [a, b] && [a, b][..1] == [a] && [a][..0] == [];
    assert Sum([a]) == 10;
    assert Sum([a, b]) == 15;
    assert Total(es) == 15;
    assert Pending([a]) == [a];
    assert Pending([a, b]) == [a];
    assert Pending(es) == [a, c];
    assert [a, c][..1] == [a];
    assert Remaining(es) == 10;
  }

  /** Scenario: an empty list shows zero totals, no bar, no "Remaining"
      figure and the empty state. */
  lemma ScenarioEmpty(cached: Option<SetRecord>, confirming: bool)
    ensures var v := Render([], cached, confirming);
      && v.totalShown == 0 && v.progressWidth == None && v.remainingShown == None
      && v.emptyState && v.noun == "expenses"
  {
  }
}
