/** The query `getExpenses` sends to the "expenses" collection: the literal
    filter `set = "<id>"` and the fixed first page of 50 records. */
module Query {
  import opened Wrappers

  /** The page `getExpenses` asks for and its size. */
  const FirstPageNumber: nat := 1
  const PerPage: nat := 50

  const FilterPrefix: string := "set = \""
  const FilterSuffix: string := "\""

  /** How a template literal renders the route parameter: an undefined id
      becomes the text "undefined". */
  function IdText(id: Option<string>): string {
    match id
    case Some(s) => s
    case None => "undefined"
  }

  /** True when s holds no double quote, so the filter stays one equality. */
  predicate NoQuote(s: string) {
    forall i :: 0 <= i < |s| ==> s[i] != '"'
  }

  /** The filter string built by `getExpenses`; nothing in the id is escaped. */
  function FilterQuery(id: Option<string>): (q: string)
    ensures |q| == |FilterPrefix| + |IdText(id)| + |FilterSuffix|
    ensures q[..|FilterPrefix|] == FilterPrefix && q[|q| - 1] == '"'
    ensures q[|FilterPrefix|..|q| - 1] == IdText(id)
  {
    FilterPrefix + IdText(id) + FilterSuffix
  }

  /** Reads an equality filter on `set` back: the literal between the
      quotes, provided it holds no further quote. */
  function ParseFilter(q: string): (r: Option<string>)
    ensures r.Some? ==> NoQuote(r.value) && |q| == |r.value| + 8
  {
    if |q| >= |FilterPrefix| + |FilterSuffix| && q[..|FilterPrefix|] == FilterPrefix
       && q[|q| - 1] == '"' && NoQuote(q[|FilterPrefix|..|q| - 1])
    then Some(q[|FilterPrefix|..|q| - 1])
    else None
  }

  /** For an id without a double quote, the filter reads back as that id. */
  lemma FilterRoundTrip(id: string)
    requires NoQuote(id)
    ensures ParseFilter(FilterQuery(Some(id))) == Some(id)
  {
  }

  /** Whatever reads back as an id is exactly the filter built from it. */
  lemma ParseFilterSound(q: string, id: string)
    requires ParseFilter(q) == Some(id)
    ensures q == FilterQuery(Some(id))
  {
  }

  /** An id holding a double quote does not read back: the filter is no
      longer a single equality on that id. */
  lemma QuotedIdBreaksFilter(id: string, i: nat)
    requires i < |id| && id[i] == '"'
    ensures ParseFilter(FilterQuery(Some(id))) == None
  {
  }

  /** Distinct ids give distinct filters. */
  lemma FilterInjective(a: Option<string>, b: Option<string>)
    requires FilterQuery(a) == FilterQuery(b)
    ensures IdText(a) == IdText(b)
  {
  }

  /** The example id "abc123" gives the filter `set = "abc123"`. */
  lemma FilterExample()
    ensures FilterQuery(Some("abc123")) == "set = \"abc123\""
  {
  }

  /** The records the screen keeps from a query: the first page of at most
      `PerPage` records; later matches are not shown. */
  function FirstPage<T>(matching: seq<T>): (page: seq<T>)
    ensures |page| == if |matching| <= PerPage then |matching| else PerPage
    ensures page == matching[..|page|]
  {
    if |matching| <= PerPage then matching else matching[..PerPage]
  }
}
