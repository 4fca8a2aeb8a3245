/**
 * The blog list's filter slice: search text, category, tag, sort order and page.
 * Each reducer assigns one field of the draft state in place.
 */
module FiltersSlice {

  datatype Filters = Filters(search: string, category: string, tag: string, sort: string, page: int)

  const InitialFilters: Filters := Filters("", "All", "All", "latest", 1)

  datatype Action =
    | SetSearch(text: string)
    | SetCategory(category: string)
    | SetTag(tag: string)
    | SetSort(sort: string)
    | SetPage(page: int)

  /** The slice's reducer: the action's own field takes the payload, the others stay. */
  function Reduce(st: Filters, a: Action): (r: Filters)
    ensures r.search == (if a.SetSearch? then a.text else st.search)
    ensures r.category == (if a.SetCategory? then a.category else st.category)
    ensures r.tag == (if a.SetTag? then a.tag else st.tag)
    ensures r.sort == (if a.SetSort? then a.sort else st.sort)
    ensures r.page == (if a.SetPage? then a.page else st.page)
  {
    match a
    case SetSearch(text) => st.(search := text)
    case SetCategory(category) => st.(category := category)
    case SetTag(tag) => st.(tag := tag)
    case SetSort(sort) => st.(sort := sort)
    case SetPage(page) => st.(page := page)
  }

  /** Dispatching the same action twice is dispatching it once. */
  lemma ReduceIdempotent(st: Filters, a: Action)
    ensures Reduce(Reduce(st, a), a) == Reduce(st, a)
  {
  }

  /** Changing search, category, tag or sort leaves the page where it was. */
  lemma FilterChangesKeepPage(st: Filters, a: Action)
    requires !a.SetPage?
    ensures Reduce(st, a).page == st.page
  {
  }

  /** Two actions of the same kind: the second one wins. */
  lemma LastWriteWins(st: Filters, a: Action, b: Action)
    requires (a.SetSearch? && b.SetSearch?) || (a.SetCategory? && b.SetCategory?) ||
             (a.SetTag? && b.SetTag?) || (a.SetSort? && b.SetSort?) || (a.SetPage? && b.SetPage?)
    ensures Reduce(Reduce(st, a), b) == Reduce(st, b)
  {
  }

  /** The store's slice state, updated in place by the reducers. */
  class FiltersState {
    var search: string
    var category: string
    var tag: string
    var sort: string
    var page: int

    function Value(): Filters
      reads this
    {
      Filters(search, category, tag, sort, page)
    }

    constructor ()
      ensures Value() == InitialFilters
    {
      search, category, tag, sort, page := "", "All", "All", "latest", 1;
    }

    method SetSearch(payload: string)
      modifies this
      ensures Value() == Reduce(old(Value()), Action.SetSearch(payload))
    {
      search := payload;
    }

    method SetCategory(payload: string)
      modifies this
      ensures Value() == Reduce(old(Value()), Action.SetCategory(payload))
    {
      category := payload;
    }

    method SetTag(payload: string)
      modifies this
      ensures Value() == Reduce(old(Value()), Action.SetTag(payload))
    {
      tag := payload;
    }

    method SetSort(payload: string)
      modifies this
      ensures Value() == Reduce(old(Value()), Action.SetSort(payload))
    {
      sort := payload;
    }

    method SetPage(payload: int)
      modifies this
      ensures Value() == Reduce(old(Value()), Action.SetPage(payload))
    {
      page := payload;
    }

    /** The reducer as the store calls it, by action. */
    method Dispatch(a: Action)
      modifies this
      ensures Value() == Reduce(old(Value()), a)
    {
      match a
      case SetSearch(text) => SetSearch(text);
      case SetCategory(c) => SetCategory(c);
      case SetTag(t) => SetTag(t);
      case SetSort(s) => SetSort(s);
      case SetPage(p) => SetPage(p);
    }
  }
}
