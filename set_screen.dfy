/** The set-detail screen: its state (the loaded expenses, the cached set
    record and the delete confirmation flag) and the handlers that replace
    it. Remote calls and navigations are appended to a log; what the store
    answers is given to each handler as a parameter, `None` standing for a
    failed call. */
module SetScreen {
  import opened Wrappers
  import opened Expenses
  import opened Records
  import opened Query
  import opened Protocol
  import opened Display

  class Screen {
    /** The route parameter of the screen. */
    const id: Option<string>
    var expenses: seq<Expense>
    var cached: Option<SetRecord>
    var confirming: bool
    /** Every call issued so far, oldest first. */
    var log: seq<Call>

    /** The list is at most one page, and every logged call targets this
        screen's set or one of its routes. Expense deletes are not tied to
        the current list here, since the list may be replaced after them;
        `Protocol.DeleteCallsForThisSet` ties them to the list they came from. */
    ghost predicate Valid()
      reads this
    {
      |expenses| <= PerPage &&
      forall i :: 0 <= i < |log| ==> ForThisSet(log[i], id)
    }

    /** What the screen currently shows. */
    function View(): View
      reads this
    {
      Render(expenses, cached, confirming)
    }

    constructor (id: Option<string>)
      ensures Valid()
      ensures this.id == id && expenses == [] && cached == None && !confirming && log == []
    {
      this.id := id;
      expenses := [];
      cached := None;
      confirming := false;
      log := [];
    }

    /** The home button. */
    method GoToHome()
      requires Valid()
      modifies this
      ensures Valid()
      ensures log == old(log) + [Navigate(HomePath)]
      ensures expenses == old(expenses) && cached == old(cached) && confirming == old(confirming)
    {
      log := log + [Navigate(HomePath)];
    }

    /** The "Add" button: navigates to the add-expense route of this set. */
    method AddAnExpense()
      requires Valid()
      modifies this
      ensures Valid()
      ensures log == old(log) + [Navigate(AddPath(id))]
      ensures expenses == old(expenses) && cached == old(cached) && confirming == old(confirming)
    {
      log := log + [Navigate(AddPath(id))];
    }

    /** The delete-intent button: shows the confirmation prompt. */
    method RequestDelete()
      requires Valid()
      modifies this
      ensures Valid()
      ensures confirming
      ensures log == old(log) && expenses == old(expenses) && cached == old(cached)
    {
      confirming := true;
    }

    /** The cancel button of the prompt: back to the greeting. */
    method CancelDelete()
      requires Valid()
      modifies this
      ensures Valid()
      ensures !confirming
      ensures log == old(log) && expenses == old(expenses) && cached == old(cached)
    {
      confirming := false;
    }

    /** `deleteSet`: deletes the set, then, only if that succeeded, issues one
        delete per loaded expense without waiting and navigates home. */
    method DeleteSet(setDeleted: bool)
      requires Valid()
      modifies this
      ensures Valid()
      ensures log == old(log) + DeleteSetCalls(id, expenses, setDeleted)
      ensures expenses == old(expenses) && cached == old(cached) && confirming == old(confirming)
    {
      ghost var before := log;
      if HasId(id) {
        log := log + [Protocol.DeleteSet(id.value)];
        if setDeleted {
          DeleteLoadedExpenses();
          log := log + [Navigate(HomePath)];
        }
      }
      DeleteCallsForThisSet(id, expenses, setDeleted);
      ExtendForThisSet(before, DeleteSetCalls(id, expenses, setDeleted), id);
    }

    /** The `forEach` of `deleteSet`: one delete per loaded expense, in list
        order, none of them awaited. */
    method DeleteLoadedExpenses()
      modifies this
      ensures log == old(log) + CascadeCalls(expenses)
      ensures expenses == old(expenses) && cached == old(cached) && confirming == old(confirming)
    {
      var i := 0;
      while i < |expenses|
        invariant 0 <= i <= |expenses|
        invariant expenses == old(expenses) && cached == old(cached) && confirming == old(confirming)
        invariant log == old(log) + CascadeCalls(expenses[..i])
      {
        assert expenses[..i + 1][..i] == expenses[..i];
        log := log + [DeleteExpense(expenses[i].id)];
        i := i + 1;
      }
      assert expenses[..i] == expenses;
    }

    /** `updateSet(total)`: sends the cached record with the new total and,
        if the store answers, caches the record it returns. */
    method UpdateSet(total: int, response: Option<SetRecord>)
      requires Valid()
      modifies this
      ensures Valid()
      ensures log == old(log) + UpdateSetCalls(id, old(cached), total)
      ensures cached == if HasId(id) && response.Some? then response else old(cached)
      ensures expenses == old(expenses) && confirming == old(confirming)
    {
      if !HasId(id) {
        return;
      }
      var data := Merge(cached, total);
      log := log + [Protocol.UpdateSet(id.value, data)];
      if response.Some? {
        cached := response;
      }
    }

    /** `getSet`: fetches the set record by id and caches it. */
    method GetSet(response: Option<SetRecord>)
      requires Valid()
      modifies this
      ensures Valid()
      ensures log == old(log) + (if HasId(id) then [Protocol.GetSet(id.value)] else [])
      ensures cached == if HasId(id) && response.Some? then response else old(cached)
      ensures expenses == old(expenses) && confirming == old(confirming)
    {
      if !HasId(id) {
        return;
      }
      log := log + [Protocol.GetSet(id.value)];
      if response.Some? {
        cached := response;
      }
    }

    /** `getExpenses`: asks for the first page of expenses matching the
        filter and replaces the whole list with it. `matching` holds every
        matching record in the store's order. */
    method GetExpenses(matching: Option<seq<Expense>>)
      requires Valid()
      modifies this
      ensures Valid()
      ensures log == old(log) + [ListExpenses(FirstPageNumber, PerPage, FilterQuery(id))]
      ensures expenses == if matching.Some? then FirstPage(matching.value) else old(expenses)
      ensures cached == old(cached) && confirming == old(confirming)
    {
      log := log + [ListExpenses(FirstPageNumber, PerPage, FilterQuery(id))];
      if matching.Some? {
        expenses := FirstPage(matching.value);
      }
    }

    /** The effect that loads the expenses when the route id is present. */
    method LoadExpensesForId(matching: Option<seq<Expense>>)
      requires Valid()
      modifies this
      ensures Valid()
      ensures !HasId(id) ==> log == old(log) && expenses == old(expenses)
      ensures HasId(id) ==> log == old(log) + [ListExpenses(FirstPageNumber, PerPage, FilterQuery(id))]
      ensures HasId(id) ==> expenses == if matching.Some? then FirstPage(matching.value) else old(expenses)
      ensures cached == old(cached) && confirming == old(confirming)
    {
      if HasId(id) {
        GetExpenses(matching);
      }
    }

    /** The recomputation after the list is replaced: `totalExpense`, which
        also persists the new total through `updateSet`, then
        `totalRemaining`. */
    method Totals(updateResponse: Option<SetRecord>) returns (total: int, remaining: int)
      requires Valid()
      modifies this
      ensures Valid()
      ensures total == Total(expenses) && remaining == Remaining(expenses)
      ensures log == old(log) + UpdateSetCalls(id, old(cached), total)
      ensures cached == if HasId(id) && updateResponse.Some? then updateResponse else old(cached)
      ensures expenses == old(expenses) && confirming == old(confirming)
    {
      total := TotalExpense(expenses);
      UpdateSet(total, updateResponse);
      remaining := TotalRemaining(expenses);
    }
  }

  /** The confirm flow with two loaded expenses: intent, cancel, intent
      again, then a successful delete. Cancelling issues nothing; the
      delete issues the set delete, one delete per expense, then the
      navigation home. */
  method DeleteFlow(id: string, a: Expense, b: Expense) returns (calls: seq<Call>, prompt: bool)
    requires id != ""
    ensures calls == [Protocol.DeleteSet(id), DeleteExpense(a.id), DeleteExpense(b.id), Navigate(HomePath)]
    ensures prompt
  {
    var screen := new Screen(Some(id));
    screen.GetExpenses(Some([a, b]));
    var before := screen.log;
    screen.RequestDelete();
    screen.CancelDelete();
    assert screen.log == before && screen.View().header.Greeting?;
    screen.RequestDelete();
    screen.DeleteSet(true);
    calls := screen.log[|before|..];
    prompt := screen.confirming;
  }

  /** The failed delete: the set delete is issued, nothing follows it and
      the confirmation prompt stays. */
  method DeleteFailsFlow(id: string, a: Expense) returns (calls: seq<Call>, prompt: bool)
    requires id != ""
    ensures calls == [Protocol.DeleteSet(id)]
    ensures prompt
  {
    var screen := new Screen(Some(id));
    screen.GetExpenses(Some([a]));
    var before := screen.log;
    screen.RequestDelete();
    screen.DeleteSet(false);
    calls := screen.log[|before|..];
    prompt := screen.View().header == DeletePrompt;
  }
}
