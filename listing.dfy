/** The options of the four list queries (`customers`, `orders`, `requests`
    and `products`), which each build them with the same statements from
    the arguments of src/resolvers/common.ts. */
module Listing {
  import opened Wrappers

  /** `PaginationArgs`: both fields are nullable GraphQL integers. */
  datatype PaginationArgs = PaginationArgs(perPage: Option<int>, page: Option<int>)

  /** `SortArgs`: the field to sort on and "ASC" or "DESC", both nullable. */
  datatype SortArgs = SortArgs(field: Option<string>, order: Option<string>)

  /** `ParamsArgs` */
  datatype ParamsArgs = ParamsArgs(pagination: Option<PaginationArgs>, sort: Option<SortArgs>)

  /** The Mongoose query options handed to `find`; the value with no option
      set stands for `undefined`. */
  datatype QueryOptions = QueryOptions(limit: Option<int>, skip: Option<int>, sort: Option<(string, int)>)

  const NO_OPTIONS := QueryOptions(None, None, None)

  /** JavaScript truthiness of a nullable integer and of a nullable string. */
  predicate TruthyInt(n: Option<int>) { n.Some? && n.value != 0 }
  predicate TruthyText(s: Option<string>) { s.Some? && s.value != "" }

  /** Both page and page size are given and non-zero. */
  predicate Paginated(args: Option<ParamsArgs>) {
    args.Some? && args.value.pagination.Some? &&
    TruthyInt(args.value.pagination.value.page) && TruthyInt(args.value.pagination.value.perPage)
  }

  /** Both sort field and sort order are given and non-empty. */
  predicate Sorted(args: Option<ParamsArgs>) {
    args.Some? && args.value.sort.Some? &&
    TruthyText(args.value.sort.value.field) && TruthyText(args.value.sort.value.order)
  }

  /** The options the list queries build. `args` is None only for
      `products`, whose `params` argument is nullable. */
  function QueryOptionsFor(args: Option<ParamsArgs>): (q: QueryOptions)
    ensures args.None? ==> q == NO_OPTIONS
    ensures q.limit.Some? <==> Paginated(args)
    ensures q.skip.Some? <==> Paginated(args)
    ensures Paginated(args) ==> q.limit.value == args.value.pagination.value.perPage.value
    ensures Paginated(args) ==>
      var p := args.value.pagination.value;
      q.skip.value == (p.page.value - 1) * p.perPage.value
    ensures q.sort.Some? <==> Sorted(args)
    ensures Sorted(args) ==> q.sort.value.0 == args.value.sort.value.field.value
    ensures Sorted(args) ==> (q.sort.value.1 == 1 <==> args.value.sort.value.order.value == "ASC")
    ensures Sorted(args) ==> (q.sort.value.1 == -1 <==> args.value.sort.value.order.value != "ASC")
  {
    var paged :=
      if Paginated(args) then
        var p := args.value.pagination.value;
        QueryOptions(p.perPage, Some((p.page.value - 1) * p.perPage.value), None)
      else NO_OPTIONS;
    if Sorted(args) then
      var s := args.value.sort.value;
      paged.(sort := Some((s.field.value, if s.order.value == "ASC" then 1 else -1)))
    else paged
  }

  /** The statements of each list query: pagination first, then the sort
      spread over whatever pagination produced. */
  method BuildQueryOptions(args: Option<ParamsArgs>) returns (queryOptions: QueryOptions)
    ensures queryOptions == QueryOptionsFor(args)
  {
    queryOptions := NO_OPTIONS;
    if args.Some? && args.value.pagination.Some? {
      var page, perPage := args.value.pagination.value.page, args.value.pagination.value.perPage;
      if TruthyInt(page) && TruthyInt(perPage) {
        queryOptions := QueryOptions(perPage, Some((page.value - 1) * perPage.value), None);
      }
    }
    if args.Some? && args.value.sort.Some? {
      var field, order := args.value.sort.value.field, args.value.sort.value.order;
      if TruthyText(field) && TruthyText(order) {
        queryOptions := queryOptions.(sort := Some((field.value, if order.value == "ASC" then 1 else -1)));
      }
    }
  }

  /** Consecutive pages of the same size tile the collection: page 1 starts
      at the first document and each page starts where the previous ended. */
  lemma {:induction false} PagesTile(perPage: int, page: int)
    requires perPage != 0 && page >= 1
    ensures
      var q := QueryOptionsFor(Some(ParamsArgs(Some(PaginationArgs(Some(perPage), Some(page))), None)));
      var q' := QueryOptionsFor(Some(ParamsArgs(Some(PaginationArgs(Some(perPage), Some(page + 1))), None)));
      q'.skip.value == q.skip.value + q.limit.value &&
      (page == 1 ==> q.skip.value == 0)
  {
    var q := QueryOptionsFor(Some(ParamsArgs(Some(PaginationArgs(Some(perPage), Some(page))), None)));
    var q' := QueryOptionsFor(Some(ParamsArgs(Some(PaginationArgs(Some(perPage), Some(page + 1))), None)));
    assert q.skip.value == (page - 1) * perPage;
    assert q'.skip.value == page * perPage;
  }

  /** Pagination and sorting are independent: dropping the sort arguments
      keeps the page window, and dropping the pagination keeps the sort. */
  lemma PaginationIndependentOfSort(pagination: Option<PaginationArgs>, sort: Option<SortArgs>)
    ensures
      var both := QueryOptionsFor(Some(ParamsArgs(pagination, sort)));
      var paged := QueryOptionsFor(Some(ParamsArgs(pagination, None)));
      var sorted := QueryOptionsFor(Some(ParamsArgs(None, sort)));
      both == QueryOptions(paged.limit, paged.skip, sorted.sort)
  {
  }
}
