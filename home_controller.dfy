/**
 * HomeController: the storefront's product queries. The search on the home page,
 * the three lowest-stock products still available, the products in stock, and
 * the products of one category. Each query takes `table`, the rows of the
 * Products table in the order the database returns them, and changes nothing.
 */
module HomeController {
  import opened Entities
  import opened Sorting

  /** What the views show of a product (`ProductListViewModel`). */
  datatype ProductView = ProductView(
    productId: int,
    productName: string,
    productPrice: Money,
    productDetails: string,
    productPictureUrl: string,
    productQuantity: int,
    categoryId: int,
    category: Option<Category>)

  /** The product's `Category` navigation property: the category with its key, if any. */
  function CategoryOf(categories: seq<Category>, id: int): (r: Option<Category>)
    ensures r.Some? ==> r.value in categories && r.value.id == id
    ensures r.None? <==> forall i :: 0 <= i < |categories| ==> categories[i].id != id
  {
    if categories == [] then None
    else if categories[0].id == id then Some(categories[0])
    else CategoryOf(categories[1..], id)
  }

  /** The `Select` of every query: each view carries its own product's values, unchanged. */
  function Views(products: seq<Product>, categories: seq<Category>): (views: seq<ProductView>)
    ensures |views| == |products|
    ensures forall i :: 0 <= i < |products| ==>
              var p := products[i];
              && views[i].productId == p.id && views[i].productName == p.name
              && views[i].productPrice == p.price && views[i].productDetails == p.details
              && views[i].productPictureUrl == p.pictureUrl && views[i].productQuantity == p.quantity
              && views[i].categoryId == p.categoryId && views[i].category == CategoryOf(categories, p.categoryId)
  {
    if products == [] then []
    else
      var p := products[0];
      [ProductView(p.id, p.name, p.price, p.details, p.pictureUrl, p.quantity, p.categoryId,
                   CategoryOf(categories, p.categoryId))]
      + Views(products[1..], categories)
  }

  // ---------------------------------------------------------------------------
  // Index

  /** `OrderBy(r => r.ProductName)`. */
  predicate NameFirst(a: Product, b: Product)
  {
    StringLe(a.name, b.name)
  }

  lemma NameOrder()
    ensures TotalPreorder(NameFirst)
  {
    forall a: Product, b: Product ensures NameFirst(a, b) || NameFirst(b, a) {
      StringLeTotal(a.name, b.name);
    }
    forall a: Product, b: Product, c: Product | NameFirst(a, b) && NameFirst(b, c) ensures NameFirst(a, c) {
      StringLeTransitive(a.name, b.name, c.name);
    }
  }

  /** The search of `Index`: no term, or the name starts with it, or the category is named by it. */
  predicate Matches(p: Product, categories: seq<Category>, searchTerm: Option<string>)
  {
    || searchTerm.None?
    || StartsWith(p.name, searchTerm.value)
    || (CategoryOf(categories, p.categoryId).Some? && CategoryOf(categories, p.categoryId).value.name == searchTerm.value)
  }

  /**
   * `Index`: exactly the products that match the search term, each as often as in
   * the table, in order of name; every product when there is no term.
   */
  function Index(table: seq<Product>, categories: seq<Category>, searchTerm: Option<string>): (model: seq<Product>)
    ensures forall p :: p in model <==> p in table && Matches(p, categories, searchTerm)
    ensures forall p :: multiset(model)[p] == if Matches(p, categories, searchTerm) then multiset(table)[p] else 0
    ensures searchTerm.None? ==> multiset(model) == multiset(table)
    ensures Sorted(model, NameFirst)
  {
    NameOrder();
    var keep := (p: Product) => Matches(p, categories, searchTerm);
    var sorted := Sort(table, NameFirst);
    FilterSorted(sorted, keep, NameFirst);
    assert forall p :: p in sorted <==> p in multiset(table);
    Filter(sorted, keep)
  }

  // ---------------------------------------------------------------------------
  // PopularProducts and HideUnavailableProducts

  /** `OrderBy(r => r.ProductQuantity)`. */
  predicate FewerFirst(a: Product, b: Product)
  {
    a.quantity <= b.quantity
  }

  predicate InStock(p: Product)
  {
    p.quantity > 0
  }

  lemma QuantityOrder()
    ensures TotalPreorder(FewerFirst)
  {
  }

  /** The first `n` of a sorted sequence: nothing left behind has fewer units than anything taken. */
  lemma TakeLeast(s: seq<Product>, n: nat)
    requires Sorted(s, FewerFirst) && n <= |s|
    ensures multiset(s[..n]) <= multiset(s)
    ensures forall p :: multiset(s[..n])[p] < multiset(s)[p] ==>
              forall i :: 0 <= i < n ==> s[i].quantity <= p.quantity
  {
    var taken := s[..n];
    var left := s[n..];
    assert s == taken + left;
    assert multiset(s) == multiset(taken) + multiset(left);
    forall p | multiset(taken)[p] < multiset(s)[p]
      ensures forall i :: 0 <= i < n ==> s[i].quantity <= p.quantity
    {
      assert p in multiset(left);
      var k :| 0 <= k < |left| && left[k] == p;
      assert s[n + k] == p;
      forall i | 0 <= i < n ensures s[i].quantity <= p.quantity {
        assert FewerFirst(s[i], s[n + k]);
      }
    }
  }

  /**
   * `PopularProducts`: at most three products, all in stock, fewest units first,
   * taken from the table; any in-stock product left out has at least as many
   * units as every product shown, and is only left out when three are shown.
   */
  function PopularProducts(table: seq<Product>): (popular: seq<Product>)
    ensures |popular| <= 3
    ensures forall i :: 0 <= i < |popular| ==> popular[i].quantity > 0
    ensures Sorted(popular, FewerFirst)
    ensures multiset(popular) <= multiset(table)
    ensures forall p: Product :: p.quantity > 0 && multiset(popular)[p] < multiset(table)[p] ==>
              |popular| == 3 && forall i :: 0 <= i < |popular| ==> popular[i].quantity <= p.quantity
  {
    var inStock := InStockByQuantity(table);
    var n := if |inStock| < 3 then |inStock| else 3;
    TakeInStock(table, inStock, n, inStock[..n]);
    inStock[..n]
  }

  /** `OrderBy(r => r.ProductQuantity).Where(r => r.ProductQuantity > 0)`. */
  function InStockByQuantity(table: seq<Product>): (inStock: seq<Product>)
    ensures Sorted(inStock, FewerFirst)
    ensures forall p :: multiset(inStock)[p] == if p.quantity > 0 then multiset(table)[p] else 0
  {
    QuantityOrder();
    var sorted := Sort(table, FewerFirst);
    FilterSorted(sorted, InStock, FewerFirst);
    Filter(sorted, InStock)
  }

  /** What `PopularProducts` promises, for the first `n` of the in-stock products sorted by stock. */
  lemma TakeInStock(table: seq<Product>, inStock: seq<Product>, n: nat, popular: seq<Product>)
    requires Sorted(inStock, FewerFirst)
    requires forall p :: multiset(inStock)[p] == if p.quantity > 0 then multiset(table)[p] else 0
    requires n == (if |inStock| < 3 then |inStock| else 3) && popular == inStock[..n]
    ensures |popular| <= 3
    ensures forall i :: 0 <= i < |popular| ==> popular[i].quantity > 0
    ensures Sorted(popular, FewerFirst)
    ensures multiset(popular) <= multiset(table)
    ensures forall p: Product :: p.quantity > 0 && multiset(popular)[p] < multiset(table)[p] ==>
              |popular| == 3 && forall i :: 0 <= i < |popular| ==> popular[i].quantity <= p.quantity
  {
    InStockOnly(table, inStock);
    TakeLeast(inStock, n);
    assert forall i :: 0 <= i < n ==> popular[i] == inStock[i];
    if n < 3 {
      assert popular == inStock;
    }
  }

  /** The in-stock products: each in stock, and as often as in the table. */
  lemma InStockOnly(table: seq<Product>, inStock: seq<Product>)
    requires forall p :: multiset(inStock)[p] == if p.quantity > 0 then multiset(table)[p] else 0
    ensures forall i :: 0 <= i < |inStock| ==> inStock[i].quantity > 0
    ensures multiset(inStock) <= multiset(table)
  {
    forall i | 0 <= i < |inStock| ensures inStock[i].quantity > 0 {
      assert inStock[i] in multiset(inStock);
    }
  }

  /** `HideUnavailableProducts`: exactly the products in stock, each as often as in the table. */
  function HideUnavailableProducts(table: seq<Product>): (products: seq<Product>)
    ensures forall p :: p in products <==> p in table && p.quantity > 0
    ensures forall p :: multiset(products)[p] == if p.quantity > 0 then multiset(table)[p] else 0
  {
    Filter(table, InStock)
  }

  // ---------------------------------------------------------------------------
  // Browse

  /** The positions of the categories named `name`, in increasing order. */
  function Named(categories: seq<Category>, name: string): (ix: seq<int>)
    ensures forall k :: k in ix <==> 0 <= k < |categories| && categories[k].name == name
    ensures forall a, b :: 0 <= a < b < |ix| ==> ix[a] < ix[b]
    ensures |ix| >= 2 ==> ix[0] < ix[1]
  {
    if categories == [] then []
    else
      var init := categories[..|categories| - 1];
      var rest := Named(init, name);
      assert forall a :: 0 <= a < |rest| ==> rest[a] in rest;
      if categories[|categories| - 1].name == name then rest + [|categories| - 1] else rest
  }

  /** Exactly one category is named `name`. */
  predicate UniqueName(categories: seq<Category>, name: string)
  {
    exists i :: 0 <= i < |categories| && categories[i].name == name
                && forall j :: 0 <= j < |categories| && categories[j].name == name ==> j == i
  }

  lemma NamedOnce(categories: seq<Category>, name: string)
    ensures |Named(categories, name)| == 1 <==> UniqueName(categories, name)
  {
    var ix := Named(categories, name);
    if |ix| == 1 {
      forall j | 0 <= j < |categories| && categories[j].name == name ensures j == ix[0] {
        assert j in ix;
      }
    }
    if UniqueName(categories, name) {
      var i :| 0 <= i < |categories| && categories[i].name == name
               && forall j :: 0 <= j < |categories| && categories[j].name == name ==> j == i;
      assert i in ix;
      forall a | 0 <= a < |ix| ensures ix[a] == i {
        assert ix[a] in ix;
      }
      if |ix| >= 2 {
        // both ix[0] and ix[1] are `i`, yet ix[0] < ix[1]
        assert false;
      }
    }
  }

  datatype BrowsePage =
    | BrowseView(category: Category, products: seq<Product>)
    | BrowseCrash   // `Single` throws

  /**
   * `Browse`: the category named `category` and exactly its products, each as
   * often as in the table. `Single` throws unless exactly one category has that
   * name; no category has a null name.
   */
  function Browse(table: seq<Product>, categories: seq<Category>, category: Option<string>): (page: BrowsePage)
    ensures page.BrowseView? <==> category.Some? && UniqueName(categories, category.value)
    ensures page.BrowseView? ==>
              && page.category in categories && Some(page.category.name) == category
              && (forall p :: p in page.products <==> p in table && p.categoryId == page.category.id)
              && (forall p :: multiset(page.products)[p] ==
                               if p.categoryId == page.category.id then multiset(table)[p] else 0)
  {
    if category.None? then BrowseCrash
    else
      var ix := Named(categories, category.value);
      NamedOnce(categories, category.value);
      if |ix| != 1 then BrowseCrash
      else
        assert ix[0] in ix;
        var c := categories[ix[0]];
        BrowseView(c, Filter(table, (p: Product) => p.categoryId == c.id))
  }

  // ---------------------------------------------------------------------------
  // What the views receive

  /** A view shows a product of the table that `keep` accepts, with its id and name. */
  ghost predicate ShowsOneOf(v: ProductView, table: seq<Product>, keep: Product -> bool)
  {
    exists p :: p in table && keep(p) && v.productId == p.id && v.productName == p.name && v.productQuantity == p.quantity
  }

  /** A view carries all seven columns of `p`. */
  predicate Shows(v: ProductView, p: Product)
  {
    && v.productId == p.id && v.productName == p.name && v.productPrice == p.price
    && v.productDetails == p.details && v.productPictureUrl == p.pictureUrl
    && v.productQuantity == p.quantity && v.categoryId == p.categoryId
  }

  /** Each view of `Views(products)` shows the product at its position. */
  lemma ViewsShow(products: seq<Product>, categories: seq<Category>, table: seq<Product>, keep: Product -> bool)
    requires forall p :: p in products ==> p in table && keep(p)
    ensures forall v :: v in Views(products, categories) ==> ShowsOneOf(v, table, keep)
  {
    var views := Views(products, categories);
    forall v | v in views ensures ShowsOneOf(v, table, keep) {
      var i :| 0 <= i < |views| && views[i] == v;
      assert products[i] in products;
    }
  }

  /** The model `Index` hands its view: one view per matching product, in order of name. */
  function IndexModel(table: seq<Product>, categories: seq<Category>, searchTerm: Option<string>): (views: seq<ProductView>)
    ensures |views| == |Index(table, categories, searchTerm)|
    ensures forall i, j :: 0 <= i < j < |views| ==> StringLe(views[i].productName, views[j].productName)
    ensures forall v :: v in views ==> ShowsOneOf(v, table, (p: Product) => Matches(p, categories, searchTerm))
    ensures forall v :: v in views ==> v.category == CategoryOf(categories, v.categoryId)
    ensures forall i :: 0 <= i < |views| ==> Shows(views[i], Index(table, categories, searchTerm)[i])
  {
    var model := Index(table, categories, searchTerm);
    ViewsShow(model, categories, table, (p: Product) => Matches(p, categories, searchTerm));
    Views(model, categories)
  }

  /** The model `PopularProducts` hands its view: at most three, in stock, fewest units first. */
  function PopularModel(table: seq<Product>, categories: seq<Category>): (views: seq<ProductView>)
    ensures |views| <= 3
    ensures forall i, j :: 0 <= i < j < |views| ==> views[i].productQuantity <= views[j].productQuantity
    ensures forall v :: v in views ==> v.productQuantity > 0 && ShowsOneOf(v, table, InStock)
    ensures |views| == |PopularProducts(table)|
    ensures forall i :: 0 <= i < |views| ==> Shows(views[i], PopularProducts(table)[i])
  {
    var popular := PopularProducts(table);
    PopularViews(table, categories, popular);
    Views(popular, categories)
  }

  lemma PopularViews(table: seq<Product>, categories: seq<Category>, popular: seq<Product>)
    requires popular == PopularProducts(table)
    ensures var views := Views(popular, categories);
      && (forall i, j :: 0 <= i < j < |views| ==> views[i].productQuantity <= views[j].productQuantity)
      && (forall v :: v in views ==> v.productQuantity > 0 && ShowsOneOf(v, table, InStock))
      && forall i :: 0 <= i < |views| ==> Shows(views[i], popular[i])
  {
    forall p | p in popular ensures p in table && InStock(p) {
      assert p in multiset(popular);
    }
    ViewsShow(popular, categories, table, InStock);
  }

  /** The model `HideUnavailableProducts` hands its view: one view per product in stock. */
  function HideUnavailableModel(table: seq<Product>, categories: seq<Category>): (views: seq<ProductView>)
    ensures |views| == |HideUnavailableProducts(table)|
    ensures forall v :: v in views ==> v.productQuantity > 0 && ShowsOneOf(v, table, InStock)
    ensures forall i :: 0 <= i < |views| ==> Shows(views[i], HideUnavailableProducts(table)[i])
  {
    var products := HideUnavailableProducts(table);
    ViewsShow(products, categories, table, InStock);
    Views(products, categories)
  }

  /** The products of the model `Browse` hands its view: one view per product of the browsed category. */
  function BrowseModel(table: seq<Product>, categories: seq<Category>, category: Option<string>): (views: Option<seq<ProductView>>)
    ensures views.Some? <==> Browse(table, categories, category).BrowseView?
    ensures views.Some? ==>
              var c := Browse(table, categories, category).category;
              && |views.value| == |Browse(table, categories, category).products|
              && forall v :: v in views.value ==> v.categoryId == c.id && ShowsOneOf(v, table, (p: Product) => p.categoryId == c.id)
    ensures views.Some? ==>
              forall i :: 0 <= i < |views.value| ==> Shows(views.value[i], Browse(table, categories, category).products[i])
  {
    var page := Browse(table, categories, category);
    if page.BrowseCrash? then None
    else
      ViewsShow(page.products, categories, table, (p: Product) => p.categoryId == page.category.id);
      Some(Views(page.products, categories))
  }
}
