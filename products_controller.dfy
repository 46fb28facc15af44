/**
 * ProductsController: the administrator's product list and search, a product's
 * page, and adding, editing and deleting products in the Products table.
 */
module ProductsController {
  import opened Entities
  import opened Sorting
  import opened Database

  /**
   * `Index`: every product when no name is given; otherwise exactly the products
   * whose name contains `name`, each as often as in the table. The query's
   * `StartsWith(name) || Contains(name)` keeps the same products as `Contains`
   * alone, since a prefix is an occurrence.
   */
  function Index(table: seq<Product>, name: Option<string>): (products: seq<Product>)
    ensures name.None? ==> products == table
    ensures name.Some? ==> forall p :: p in products <==> p in table && Contains(p.name, name.value)
    ensures name.Some? ==>
              forall p :: multiset(products)[p] == if Contains(p.name, name.value) then multiset(table)[p] else 0
  {
    if name.None? then table
    else Filter(table, (r: Product) => StartsWith(r.name, name.value) || Contains(r.name, name.value))
  }

  datatype DetailsPage = DetailsBadRequest | DetailsView(model: seq<Product>)

  /**
   * `Details`: BadRequest without an id; otherwise the products with that key,
   * which is the one product or none. The query never yields null, so an unknown
   * id shows an empty page rather than NotFound.
   */
  function Details(products: map<int, Product>, id: Option<int>): (page: DetailsPage)
    ensures page.DetailsBadRequest? <==> id.None?
    ensures page.DetailsView? ==> |page.model| <= 1
    ensures page.DetailsView? ==> (page.model == [] <==> id.value !in products)
    ensures page.DetailsView? && page.model != [] ==> page.model[0] == products[id.value]
  {
    if id.None? then DetailsBadRequest
    else if id.value in products then DetailsView([products[id.value]])
    else DetailsView([])
  }

  datatype FindPage = FindBadRequest | FindNotFound | FindView(product: Product)

  /**
   * `Edit` (GET) and `Delete` (GET), which share their code: BadRequest without
   * an id, NotFound for an unknown one, otherwise the stored product.
   */
  function Find(products: map<int, Product>, id: Option<int>): (page: FindPage)
    ensures page.FindBadRequest? <==> id.None?
    ensures page.FindNotFound? <==> id.Some? && id.value !in products
    ensures page.FindView? ==> id.value in products && page.product == products[id.value]
  {
    if id.None? then FindBadRequest
    else if id.value !in products then FindNotFound
    else FindView(products[id.value])
  }

  datatype SaveOutcome =
    | RedirectToIndex(notification: string)
    | Redisplay(product: Product)   // the form again, with the model's errors
    | SaveCrash                     // an exception escapes the action

  /**
   * `Create` (POST): when the bound product is valid (`modelValid`), it is added
   * under the next value of the identity column, whatever id the form held;
   * otherwise the form again and the table unchanged.
   */
  method Create(db: Store, product: Product, modelValid: bool) returns (outcome: SaveOutcome)
    requires db.Valid()
    modifies db`products, db`nextProductId
    ensures db.Valid()
    ensures !modelValid ==>
              outcome == Redisplay(product) && db.products == old(db.products) && db.nextProductId == old(db.nextProductId)
    ensures modelValid ==>
              var id := old(db.nextProductId);
              && id !in old(db.products)
              && db.products == old(db.products)[id := product.(id := id)]
              && db.nextProductId == id + 1
              && outcome == RedirectToIndex("Product " + IntToString(id) + " has been successfully created")
  {
    if !modelValid {
      return Redisplay(product);
    }
    var id := db.nextProductId;
    var added := product.(id := id);
    db.products := db.products[id := added];
    db.nextProductId := id + 1;
    outcome := RedirectToIndex("Product " + IntToString(added.id) + " has been successfully created");
  }

  /**
   * `Edit` (POST): when valid, the stored product with the submitted id is
   * replaced by the submitted values. Marking an unknown key modified makes the
   * save affect no row, which throws, and nothing changes.
   */
  method Edit(db: Store, product: Product, modelValid: bool) returns (outcome: SaveOutcome)
    requires db.Valid()
    modifies db`products
    ensures db.Valid()
    ensures !modelValid ==> outcome == Redisplay(product) && db.products == old(db.products)
    ensures modelValid && product.id !in old(db.products) ==> outcome == SaveCrash && db.products == old(db.products)
    ensures modelValid && product.id in old(db.products) ==>
              && db.products == old(db.products)[product.id := product]
              && db.products.Keys == old(db.products).Keys
              && outcome == RedirectToIndex("Product " + IntToString(product.id) + " has been successfully edited")
  {
    if !modelValid {
      return Redisplay(product);
    }
    if product.id !in db.products {
      return SaveCrash;
    }
    db.products := db.products[product.id := product];
    outcome := RedirectToIndex("Product " + IntToString(product.id) + " has been successfully edited");
  }

  datatype DeleteOutcome = Deleted(notification: string) | DeleteCrash

  /**
   * `DeleteConfirmed`: removes exactly the product `id`; the others are
   * unchanged. An unknown id throws (`Remove(null)`) and nothing changes.
   */
  method DeleteConfirmed(db: Store, id: int) returns (outcome: DeleteOutcome)
    requires db.Valid()
    modifies db`products
    ensures db.Valid()
    ensures outcome.Deleted? <==> id in old(db.products)
    ensures outcome.Deleted? ==> outcome.notification == "Product " + IntToString(id) + " has been successfully deleted"
    ensures db.products == old(db.products) - {id}
    ensures forall k :: k in db.products ==> k != id && db.products[k] == old(db.products[k])
  {
    if id !in db.products {
      return DeleteCrash;
    }
    var product := db.products[id];
    db.products := db.products - {id};
    outcome := Deleted("Product " + IntToString(product.id) + " has been successfully deleted");
  }
}
