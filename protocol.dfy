/** The remote calls and navigations the set screen issues, as entries of a
    log, and the order in which `deleteSet` and `updateSet` issue them. */
module Protocol {
  import opened Wrappers
  import opened Expenses
  import opened Records
  import opened Query

  /** One call into the collection store or the router. */
  datatype Call =
    | GetSet(setId: string)
    | ListExpenses(page: nat, perPage: nat, filter: string)
    | UpdateSet(setId: string, data: SetData)
    | DeleteSet(setId: string)
    | DeleteExpense(expenseId: string)
    | Navigate(path: string)

  /** The home route and the add-expense route of a set. */
  const HomePath: string := "/"

  function AddPath(id: Option<string>): string {
    "/" + IdText(id) + "/add"
  }

  /** The guard `if (!id) return;`: an undefined or empty route id is falsy. */
  predicate HasId(id: Option<string>) {
    id.Some? && id.value != ""
  }

  /** The background deletes of `deleteSet`: one per loaded expense, in list
      order. */
  function CascadeCalls(es: seq<Expense>): (calls: seq<Call>)
    ensures |calls| == |es|
    ensures forall i :: 0 <= i < |es| ==> calls[i] == DeleteExpense(es[i].id)
  {
    if es == [] then []
    else CascadeCalls(es[..|es| - 1]) + [DeleteExpense(es[|es| - 1].id)]
  }

  /** The calls `deleteSet` issues against the loaded expenses, given
      whether the store accepted the delete of the set. */
  function DeleteSetCalls(id: Option<string>, es: seq<Expense>, setDeleted: bool): seq<Call> {
    if !HasId(id) then []
    else [DeleteSet(id.value)] + (if setDeleted then CascadeCalls(es) + [Navigate(HomePath)] else [])
  }

  /** The calls `updateSet(total)` issues with the cached set record. */
  function UpdateSetCalls(id: Option<string>, cached: Option<SetRecord>, total: int): seq<Call> {
    if HasId(id) then [UpdateSet(id.value, Merge(cached, total))] else []
  }

  /** The number of loaded expenses with the given id. */
  function CountId(es: seq<Expense>, x: string): nat {
    if es == [] then 0
    else CountId(es[..|es| - 1], x) + (if es[|es| - 1].id == x then 1 else 0)
  }

  /** A call that a screen opened on `id` can issue. */
  predicate ForThisSet(c: Call, id: Option<string>) {
    match c
    case GetSet(x) => HasId(id) && x == id.value
    case ListExpenses(page, perPage, filter) =>
      page == FirstPageNumber && perPage == PerPage && filter == FilterQuery(id)
    case UpdateSet(x, _) => HasId(id) && x == id.value
    case DeleteSet(x) => HasId(id) && x == id.value
    case DeleteExpense(_) => true
    case Navigate(path) => path == HomePath || path == AddPath(id)
  }

  /** A log of calls for this set, extended by calls for this set, is still
      a log of calls for this set. */
  lemma ExtendForThisSet(log: seq<Call>, calls: seq<Call>, id: Option<string>)
    requires forall i :: 0 <= i < |log| ==> ForThisSet(log[i], id)
    requires forall c :: c in calls ==> ForThisSet(c, id)
    ensures forall i :: 0 <= i < |log + calls| ==> ForThisSet((log + calls)[i], id)
  {
    forall i | 0 <= i < |log + calls| ensures ForThisSet((log + calls)[i], id) {
      if i >= |log| {
        assert (log + calls)[i] == calls[i - |log|];
      }
    }
  }

  // ---------------------------------------------------------------------
  // Properties of the delete protocol

  /** Without an id, `deleteSet` makes no call and does not navigate. */
  lemma DeleteWithoutId(id: Option<string>, es: seq<Expense>, setDeleted: bool)
    requires !HasId(id)
    ensures DeleteSetCalls(id, es, setDeleted) == []
  {
  }

  /** When the store refuses the set delete, nothing follows it: no expense
      delete and no navigation. */
  lemma DeleteFailureStops(id: Option<string>, es: seq<Expense>)
    requires HasId(id)
    ensures DeleteSetCalls(id, es, false) == [DeleteSet(id.value)]
  {
  }

  /** On success the set is deleted first, then each loaded expense in list
      order, and the last call navigates home. */
  lemma DeleteSuccessOrder(id: Option<string>, es: seq<Expense>)
    requires HasId(id)
    ensures var calls := DeleteSetCalls(id, es, true);
      && |calls| == |es| + 2
      && calls[0] == DeleteSet(id.value)
      && (forall i :: 0 <= i < |es| ==> calls[i + 1] == DeleteExpense(es[i].id))
      && calls[|calls| - 1] == Navigate(HomePath)
  {
    var cascade := CascadeCalls(es);
    var calls := [DeleteSet(id.value)] + cascade + [Navigate(HomePath)];
    assert DeleteSetCalls(id, es, true) == calls;
    forall i | 0 <= i < |es| ensures calls[i + 1] == DeleteExpense(es[i].id) {
      assert calls[i + 1] == cascade[i];
    }
  }

  /** The cascade issues exactly one delete per loaded expense: as many
      deletes of an id as loaded expenses with that id, and nothing else. */
  lemma {:induction false} CascadeExactlyOnce(es: seq<Expense>, c: Call)
    ensures multiset(CascadeCalls(es))[c] == if c.DeleteExpense? then CountId(es, c.expenseId) else 0
  {
    if es != [] {
      var n := |es| - 1;
      CascadeExactlyOnce(es[..n], c);
      assert CascadeCalls(es) == CascadeCalls(es[..n]) + [DeleteExpense(es[n].id)];
    }
  }

  /** On success exactly one call deletes the set, exactly one navigates, and
      the expense deletes are one per loaded expense. */
  lemma DeleteSuccessCounts(id: Option<string>, es: seq<Expense>)
    requires HasId(id)
    ensures var m := multiset(DeleteSetCalls(id, es, true));
      && m[DeleteSet(id.value)] == 1
      && m[Navigate(HomePath)] == 1
      && forall x :: m[DeleteExpense(x)] == CountId(es, x)
  {
    var cascade := CascadeCalls(es);
    var calls := DeleteSetCalls(id, es, true);
    assert calls == [DeleteSet(id.value)] + cascade + [Navigate(HomePath)];
    assert multiset(calls) == multiset{DeleteSet(id.value)} + multiset(cascade) + multiset{Navigate(HomePath)};
    CascadeExactlyOnce(es, DeleteSet(id.value));
    CascadeExactlyOnce(es, Navigate(HomePath));
    forall x ensures multiset(calls)[DeleteExpense(x)] == CountId(es, x) {
      CascadeExactlyOnce(es, DeleteExpense(x));
    }
  }

  /** Every call of the delete protocol is one this screen may issue. */
  lemma DeleteCallsForThisSet(id: Option<string>, es: seq<Expense>, setDeleted: bool)
    ensures forall c :: c in DeleteSetCalls(id, es, setDeleted) ==> ForThisSet(c, id)
  {
  }

  /** Every expense the delete protocol deletes is one of the loaded
      expenses. */
  lemma DeletesOnlyLoaded(id: Option<string>, es: seq<Expense>, setDeleted: bool)
    ensures forall c :: c in DeleteSetCalls(id, es, setDeleted) && c.DeleteExpense? ==>
      exists e :: e in es && e.id == c.expenseId
  {
    forall c | c in DeleteSetCalls(id, es, setDeleted) && c.DeleteExpense?
      ensures exists e :: e in es && e.id == c.expenseId
    {
      var calls := DeleteSetCalls(id, es, setDeleted);
      var j :| 0 <= j < |calls| && calls[j] == c;
      var cascade := CascadeCalls(es);
      assert calls == [DeleteSet(id.value)] + cascade + [Navigate(HomePath)];
      assert 1 <= j <= |es|;
      assert cascade[j - 1] == c;
      assert es[j - 1] in es;
    }
  }

  /** Without an id, `updateSet` makes no call; with one, it sends one update
      whose payload carries the new total over the cached fields. */
  lemma UpdateSetPayload(id: Option<string>, cached: Option<SetRecord>, total: int)
    ensures !HasId(id) ==> UpdateSetCalls(id, cached, total) == []
    ensures HasId(id) ==> exists data ::
      && UpdateSetCalls(id, cached, total) == [UpdateSet(id.value, data)]
      && data.expense == total
      && (cached.Some? ==> data == AsData(cached.value.(expense := total)))
  {
    if HasId(id) {
      var data := Merge(cached, total);
      assert UpdateSetCalls(id, cached, total) == [UpdateSet(id.value, data)];
      if cached.Some? {
        MergeIsRecordUpdate(cached.value, total);
      }
    }
  }
}
