/** `HomePage`: the product table with its name/description search and status
    filter, shown only to a browser that has a token stored. */
module HomePage {
  import opened Js
  import opened Browser
  import opened Http
  import ProtectedRoute

  /** A row of `GET /api/v1/products` (`created_at` is only formatted for display). */
  datatype Product = Product(code: string, name: string, description: string, price: real, status: bool)

  /** The `Status` column and the expanded row: `status ? 'Active' : 'Inactive'`. */
  function StatusLabel(status: bool): (text: string)
    ensures text == "Active" <==> status
    ensures text == "Inactive" <==> !status
  {
    if status then "Active" else "Inactive"
  }

  /** The search test: the lower-cased search text occurs in the lower-cased name or description. */
  function MatchesSearch(p: Product, search: string): (b: bool)
    ensures b <==> ((exists i :: OccursAt(Lower(p.name), Lower(search), i))
                    || (exists i :: OccursAt(Lower(p.description), Lower(search), i)))
    ensures search == "" ==> b
  {
    IncludesEmpty(Lower(p.name));
    Includes(Lower(p.name), Lower(search)) || Includes(Lower(p.description), Lower(search))
  }

  /** The status test: `''` keeps everything, `'active'` keeps active products,
      and every other value (`'inactive'` among them) keeps inactive ones. */
  function MatchesStatus(p: Product, statusFilter: string): (b: bool)
    ensures statusFilter == "" ==> b
    ensures statusFilter == "active" ==> (b <==> p.status)
    ensures statusFilter != "" && statusFilter != "active" ==> (b <==> !p.status)
  {
    statusFilter == "" || (if statusFilter == "active" then p.status else !p.status)
  }

  /** A product is shown when it passes both tests; with both inputs empty every product is. */
  function Kept(p: Product, search: string, statusFilter: string): (b: bool)
    ensures b <==> && ((exists i :: OccursAt(Lower(p.name), Lower(search), i))
                       || (exists i :: OccursAt(Lower(p.description), Lower(search), i)))
                   && (statusFilter == "" || ((statusFilter == "active") == p.status))
    ensures search == "" && statusFilter == "" ==> b
  {
    MatchesSearch(p, search) && MatchesStatus(p, statusFilter)
  }

  /** `xs` is `ys` with some elements left out, the rest in their original order. */
  predicate IsSubsequence<T(==)>(xs: seq<T>, ys: seq<T>)
    decreases |ys|
  {
    if xs == [] then true
    else if ys == [] then false
    else if xs[0] == ys[0] then IsSubsequence(xs[1..], ys[1..])
    else IsSubsequence(xs, ys[1..])
  }

  /** `filteredData`: `data.filter(...)` with the search and status tests. */
  function FilteredData(data: seq<Product>, search: string, statusFilter: string): (r: seq<Product>)
    ensures IsSubsequence(r, data)
    ensures forall i :: 0 <= i < |r| ==> Kept(r[i], search, statusFilter)
    ensures forall p :: p in data && Kept(p, search, statusFilter) ==> p in r
    ensures forall p :: multiset(r)[p] == if Kept(p, search, statusFilter) then multiset(data)[p] else 0
    decreases |data|
  {
    if data == [] then []
    else
      var rest := FilteredData(data[1..], search, statusFilter);
      assert data == [data[0]] + data[1..];
      if Kept(data[0], search, statusFilter) then
        assert ([data[0]] + rest)[1..] == rest;
        [data[0]] + rest
      else
        assert rest == [] || rest[0] != data[0];
        rest
  }

  /** Filtering keeps a list whose every product already passes the tests. */
  lemma {:induction false} FilterKeepsPassingList(data: seq<Product>, search: string, statusFilter: string)
    requires forall i :: 0 <= i < |data| ==> Kept(data[i], search, statusFilter)
    ensures FilteredData(data, search, statusFilter) == data
    decreases |data|
  {
    if data != [] {
      FilterKeepsPassingList(data[1..], search, statusFilter);
      assert [data[0]] + data[1..] == data;
    }
  }

  /** Filtering twice with the same inputs is filtering once. */
  lemma FilterIdempotent(data: seq<Product>, search: string, statusFilter: string)
    ensures FilteredData(FilteredData(data, search, statusFilter), search, statusFilter)
         == FilteredData(data, search, statusFilter)
  {
    FilterKeepsPassingList(FilteredData(data, search, statusFilter), search, statusFilter);
  }

  /** With an empty search and no status filter every product is shown. */
  lemma EmptyFiltersKeepAll(data: seq<Product>)
    ensures FilteredData(data, "", "") == data
  {
    FilterKeepsPassingList(data, "", "");
  }

  /** The status filter `'active'` shows only active products; any other
      non-empty value shows only inactive ones. */
  lemma StatusFilterSelects(data: seq<Product>, search: string, statusFilter: string)
    ensures statusFilter == "active" ==>
      forall p :: p in FilteredData(data, search, statusFilter) ==> p.status
    ensures statusFilter != "" && statusFilter != "active" ==>
      forall p :: p in FilteredData(data, search, statusFilter) ==> !p.status
  {
  }

  /** `isLoggedIn` on this page is the guard's own test. */
  function ShouldFetchProducts(st: Storage): (fetch: bool)
    ensures fetch <==> ProtectedRoute.IsLoggedIn(st)
    ensures fetch <==> "token" in st && st["token"] != ""
  {
    Truthy(GetItem(st, "token"))
  }

  /** The state the page keeps with `useState`. */
  class Page {
    var data: seq<Product>
    var search: string
    var statusFilter: string
    var selectedRows: seq<Product>
    var alerted: bool

    constructor ()
      ensures data == [] && search == "" && statusFilter == "" && selectedRows == [] && !alerted
    {
      data, search, statusFilter, selectedRows, alerted := [], "", "", [], false;
    }

    /** `displayProducts`: on success `data` becomes `response.data.products`;
        on failure the data is kept and an alert is raised. */
    method DisplayProducts(response: Outcome<seq<Product>>)
      modifies this
      ensures response.Ok? ==> data == response.data && alerted == old(alerted)
      ensures response.Fail? ==> data == old(data) && alerted
      ensures search == old(search) && statusFilter == old(statusFilter) && selectedRows == old(selectedRows)
    {
      match response {
        case Ok(products) => data := products;
        case Fail(_) => alerted := true;
      }
    }

    /** The mount effect: products are fetched only when a token is stored. */
    method OnMount(st: Storage, response: Outcome<seq<Product>>)
      modifies this
      ensures ShouldFetchProducts(st) && response.Ok? ==> data == response.data && alerted == old(alerted)
      ensures ShouldFetchProducts(st) && response.Fail? ==> data == old(data) && alerted
      ensures !ShouldFetchProducts(st) ==> data == old(data) && alerted == old(alerted)
      ensures search == old(search) && statusFilter == old(statusFilter) && selectedRows == old(selectedRows)
    {
      if ShouldFetchProducts(st) {
        DisplayProducts(response);
      }
    }

    method HandleSearch(value: string)
      modifies this
      ensures search == value
      ensures data == old(data) && statusFilter == old(statusFilter) && selectedRows == old(selectedRows)
      ensures alerted == old(alerted)
    {
      search := value;
    }

    method HandleStatusFilterChange(value: string)
      modifies this
      ensures statusFilter == value
      ensures data == old(data) && search == old(search) && selectedRows == old(selectedRows)
      ensures alerted == old(alerted)
    {
      statusFilter := value;
    }

    method HandleRowSelected(rows: seq<Product>)
      modifies this
      ensures selectedRows == rows
      ensures data == old(data) && search == old(search) && statusFilter == old(statusFilter)
      ensures alerted == old(alerted)
    {
      selectedRows := rows;
    }
  }

  /** `viewProductDetails(id)`: on success the router goes to `/ShowProducts/{id}`; on failure nothing changes. */
  method ViewProductDetails(w: Window, productId: string, found: bool)
    modifies w
    ensures found ==> w.location == "/ShowProducts/" + productId
    ensures !found ==> w.location == old(w.location)
    ensures w.storage == old(w.storage)
  {
    if found {
      w.Navigate("/ShowProducts/" + productId);
    }
  }

  /** `handleLogout` (the same in the admin and product pages): the token is
      removed and the browser goes to `/login`; `userId` stays. */
  method HandleLogout(w: Window)
    modifies w
    ensures w.storage == old(w.storage) - {"token"}
    ensures w.location == "/login"
    ensures !ProtectedRoute.IsLoggedIn(w.storage)
  {
    w.RemoveItem("token");
    w.Navigate("/login");
  }
}
