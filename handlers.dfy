/**
 * The request handlers of the inventory service over an in-memory store of
 * two tables, suppliers and products, each keyed by an integer id that the
 * store hands out from its own counter. Each handler is one sequential
 * transaction: it looks a record up, changes it field by field and saves it,
 * or fails with the error the source raises and leaves the store as it was.
 */
module Handlers {
  import opened Wrappers
  import opened Models
  import opened Updates

  const SupplierTable := "Supplier"
  const ProductTable := "Product"

  /** The errors the handlers raise. */
  datatype Error =
    | HttpError(status: int, detail: string)  // raised by a handler itself, with a status code
    | DoesNotExist(table: string)             // lookup of an absent id, not translated by the handler
    | KeyError(key: string)                   // subscript of a key the request did not set
    | DuplicateKeyword(keyword: string)       // the same keyword passed twice to the record constructor
    | NotNull(field: string)                  // a record created without a column that has no default

  /** The 404 that the supplier lookup raises for an absent id. */
  const SupplierNotFound := HttpError(404, "Supplier not found")

  const SupplierDeleted := "Supplier deleted successfully!"
  const ProductDeleted := "Product deleted successfully!"

  /** The column of a supplier input named `field` is unset. */
  predicate SupplierFieldUnset(u: SupplierIn, field: string) {
    || (field == "name" && u.name.None?)
    || (field == "company" && u.company.None?)
    || (field == "email" && u.email.None?)
    || (field == "phone" && u.phone.None?)
  }

  /** The revenue of a product sold `quantitySold` times at `unitPrice`, exact in cents. */
  function Revenue(quantitySold: int, unitPrice: Cents): Cents {
    quantitySold * unitPrice
  }

  /**
   * The recipients of a notification about product `productId`: the product,
   * then the supplier it references, then that supplier's address alone.
   */
  function Recipients(suppliers: map<int, Supplier>, products: map<int, Product>, productId: int): (r: Result<seq<string>, Error>)
    ensures r.Success? <==> productId in products && products[productId].suppliedBy in suppliers
    ensures r.Success? ==> r.value == [suppliers[products[productId].suppliedBy].email]
    ensures productId !in products ==> r == Failure(DoesNotExist(ProductTable))
    ensures productId in products && products[productId].suppliedBy !in suppliers ==> r == Failure(DoesNotExist(SupplierTable))
  {
    if productId !in products then Failure(DoesNotExist(ProductTable))
    else
      var supplierId := products[productId].suppliedBy;
      if supplierId !in suppliers then Failure(DoesNotExist(SupplierTable))
      else Success([suppliers[supplierId].email])
  }

  /** The ids of `ids` in [lo, hi), ascending: the order in which a table lists its rows. */
  function IdsInRange(ids: set<int>, lo: int, hi: int): (r: seq<int>)
    decreases hi - lo
    ensures forall i, j :: 0 <= i < j < |r| ==> r[i] < r[j]
    ensures forall i :: 0 <= i < |r| ==> r[i] in ids && lo <= r[i] < hi
    ensures forall k :: k in ids && lo <= k < hi ==> k in r
  {
    if hi <= lo then []
    else if lo in ids then [lo] + IdsInRange(ids, lo + 1, hi)
    else IdsInRange(ids, lo + 1, hi)
  }

  class Inventory {
    var suppliers: map<int, Supplier>
    var products: map<int, Product>
    var nextSupplierId: int
    var nextProductId: int

    /** Every row is stored under its own id, and every id is below its table's counter. */
    ghost predicate Valid()
      reads this
    {
      && 1 <= nextSupplierId && 1 <= nextProductId
      && (forall id :: id in suppliers ==> suppliers[id].id == id && 1 <= id < nextSupplierId)
      && (forall id :: id in products ==> products[id].id == id && 1 <= id < nextProductId)
    }

    /** An empty store whose first id in each table is 1. */
    constructor ()
      ensures Valid()
      ensures suppliers == map[] && products == map[]
    {
      suppliers := map[];
      products := map[];
      nextSupplierId := 1;
      nextProductId := 1;
    }

    /** Create a supplier from the request's columns under a fresh id. */
    method AddSupplier(info: SupplierIn) returns (r: Result<Supplier, Error>)
      requires Valid()
      modifies this
      ensures Valid()
      ensures r.Success? <==> info.name.Some? && info.company.Some? && info.email.Some? && info.phone.Some?
      ensures r.Success? ==>
        && r.value == Supplier(old(nextSupplierId), info.name.value, info.company.value, info.email.value, info.phone.value)
        && r.value.id !in old(suppliers)
        && suppliers == old(suppliers)[r.value.id := r.value]
        && nextSupplierId == old(nextSupplierId) + 1
      ensures r.Failure? ==> r.error.NotNull? && SupplierFieldUnset(info, r.error.field) && unchanged(this)
      ensures products == old(products) && nextProductId == old(nextProductId)
    {
      if info.name.None? { return Failure(NotNull("name")); }
      if info.company.None? { return Failure(NotNull("company")); }
      if info.email.None? { return Failure(NotNull("email")); }
      if info.phone.None? { return Failure(NotNull("phone")); }
      var supplier := Supplier(nextSupplierId, info.name.value, info.company.value, info.email.value, info.phone.value);
      suppliers := suppliers[supplier.id := supplier];
      nextSupplierId := nextSupplierId + 1;
      r := Success(supplier);
    }

    /** Every supplier, each once, in ascending id order. */
    method GetAllSuppliers() returns (r: seq<Supplier>)
      requires Valid()
      ensures forall s :: s in r <==> s in suppliers.Values
      ensures forall i :: 0 <= i < |r| ==> r[i].id in suppliers && suppliers[r[i].id] == r[i]
      ensures forall i, j :: 0 <= i < j < |r| ==> r[i].id < r[j].id
    {
      var table := suppliers;
      var ids := IdsInRange(table.Keys, 1, nextSupplierId);
      r := seq(|ids|, i requires 0 <= i < |ids| => table[ids[i]]);
      forall s | s in suppliers.Values
        ensures s in r
      {
        var id :| id in suppliers && suppliers[id] == s;
        var i :| 0 <= i < |ids| && ids[i] == id;
        assert r[i] == s;
      }
    }

    /** The supplier stored under `id`, or the 404 "Supplier not found". */
    method GetSupplier(id: int) returns (r: Result<Supplier, Error>)
      requires Valid()
      ensures r.Success? <==> id in suppliers
      ensures r.Success? ==> r.value == suppliers[id] && r.value.id == id
      ensures r.Failure? ==> r.error == SupplierNotFound
    {
      if id !in suppliers {
        return Failure(SupplierNotFound);
      }
      r := Success(suppliers[id]);
    }

    /** Overwrite the supplier's columns that the request set, and save it. */
    method UpdateSupplier(id: int, info: SupplierIn) returns (r: Result<Supplier, Error>)
      requires Valid()
      modifies this
      ensures Valid()
      ensures r.Success? <==> id in old(suppliers)
      ensures r.Success? ==>
        && r.value == MergeSupplier(old(suppliers)[id], info)
        && suppliers == old(suppliers)[id := r.value]
      ensures r.Failure? ==> r.error == DoesNotExist(SupplierTable) && suppliers == old(suppliers)
      ensures products == old(products)
      ensures nextSupplierId == old(nextSupplierId) && nextProductId == old(nextProductId)
    {
      if id !in suppliers {
        return Failure(DoesNotExist(SupplierTable));
      }
      var supplier := suppliers[id];
      if info.name.Some? { supplier := supplier.(name := info.name.value); }
      if info.company.Some? { supplier := supplier.(company := info.company.value); }
      if info.email.Some? { supplier := supplier.(email := info.email.value); }
      if info.phone.Some? { supplier := supplier.(phone := info.phone.value); }
      suppliers := suppliers[id := supplier];
      r := Success(supplier);
    }

    /**
     * Remove the supplier stored under `id`. What becomes of the products
     * that reference it is the store's foreign-key rule: the contract only
     * says that every product that remains is unchanged and that only those
     * products may go.
     */
    method DeleteSupplier(id: int) returns (r: Result<string, Error>)
      requires Valid()
      modifies this
      ensures Valid()
      ensures r.Success? <==> id in old(suppliers)
      ensures r.Success? ==> r.value == SupplierDeleted && suppliers == old(suppliers) - {id}
      ensures r.Failure? ==> r.error == DoesNotExist(SupplierTable) && unchanged(this)
      ensures forall pid :: pid in products ==> pid in old(products) && products[pid] == old(products)[pid]
      ensures forall pid :: pid in old(products) && pid !in products ==> old(products)[pid].suppliedBy == id
      ensures nextSupplierId == old(nextSupplierId) && nextProductId == old(nextProductId)
    {
      if id !in suppliers {
        return Failure(DoesNotExist(SupplierTable));
      }
      suppliers := suppliers - {id};
      r := Success(SupplierDeleted);
    }

    /**
     * Create a product of supplier `supplierId` under a fresh id. The request
     * must set `quantitySold` and `unitPrice`; the stored revenue is their
     * product, whatever revenue the request carries.
     */
    method AddProduct(supplierId: int, details: ProductIn) returns (r: Result<Product, Error>)
      requires Valid()
      modifies this
      ensures Valid()
      ensures r.Success? <==>
        && supplierId in old(suppliers)
        && details.quantitySold.Some? && details.unitPrice.Some?
        && details.suppliedBy.None? && details.name.Some?
      ensures supplierId !in old(suppliers) ==> r == Failure(DoesNotExist(SupplierTable))
      ensures supplierId in old(suppliers) && details.quantitySold.None? ==> r == Failure(KeyError("quantity_sold"))
      ensures supplierId in old(suppliers) && details.quantitySold.Some? && details.unitPrice.None? ==>
        r == Failure(KeyError("unit_price"))
      ensures supplierId in old(suppliers) && details.quantitySold.Some? && details.unitPrice.Some? && details.suppliedBy.Some? ==>
        r == Failure(DuplicateKeyword("supplied_by"))
      ensures r.Failure? ==> unchanged(this)
      ensures r.Success? ==>
        && r.value.id == old(nextProductId) && r.value.id !in old(products)
        && r.value.suppliedBy == supplierId
        && r.value.name == details.name.value
        && r.value.quantityInStock == details.quantityInStock.GetOr(DefaultQuantityInStock)
        && r.value.unitPrice == details.unitPrice.value
        && r.value.quantitySold == details.quantitySold.value
        && r.value.revenue == details.quantitySold.value * details.unitPrice.value
        && products == old(products)[r.value.id := r.value]
        && nextProductId == old(nextProductId) + 1
      ensures suppliers == old(suppliers) && nextSupplierId == old(nextSupplierId)
    {
      if supplierId !in suppliers {
        return Failure(DoesNotExist(SupplierTable));
      }
      if details.quantitySold.None? {
        return Failure(KeyError("quantity_sold"));
      }
      if details.unitPrice.None? {
        return Failure(KeyError("unit_price"));
      }
      var revenue := Revenue(details.quantitySold.value, details.unitPrice.value);
      if details.suppliedBy.Some? {
        return Failure(DuplicateKeyword("supplied_by"));
      }
      if details.name.None? {
        return Failure(NotNull("name"));
      }
      var product := NewProduct(nextProductId, details.name.value, supplierId);
      if details.quantityInStock.Some? { product := product.(quantityInStock := details.quantityInStock.value); }
      product := product.(unitPrice := details.unitPrice.value);
      product := product.(quantitySold := details.quantitySold.value);
      product := product.(revenue := revenue);
      products := products[product.id := product];
      nextProductId := nextProductId + 1;
      r := Success(product);
    }

    /** Every product, each once, in ascending id order. */
    method GetAllProducts() returns (r: seq<Product>)
      requires Valid()
      ensures forall p :: p in r <==> p in products.Values
      ensures forall i :: 0 <= i < |r| ==> r[i].id in products && products[r[i].id] == r[i]
      ensures forall i, j :: 0 <= i < j < |r| ==> r[i].id < r[j].id
    {
      var table := products;
      var ids := IdsInRange(table.Keys, 1, nextProductId);
      r := seq(|ids|, i requires 0 <= i < |ids| => table[ids[i]]);
      forall p | p in products.Values
        ensures p in r
      {
        var id :| id in products && products[id] == p;
        var i :| 0 <= i < |ids| && ids[i] == id;
        assert r[i] == p;
      }
    }

    /** The product stored under `id`; an absent id fails with the untranslated lookup error. */
    method GetProduct(id: int) returns (r: Result<Product, Error>)
      requires Valid()
      ensures r.Success? <==> id in products
      ensures r.Success? ==> r.value == products[id] && r.value.id == id
      ensures r.Failure? ==> r.error == DoesNotExist(ProductTable) && r.error != SupplierNotFound
    {
      if id !in products {
        return Failure(DoesNotExist(ProductTable));
      }
      r := Success(products[id]);
    }

    /**
     * Overwrite the product's columns that the request set, add a set
     * `quantitySold` to the stored one, and save it.
     */
    method UpdateProduct(id: int, info: ProductIn) returns (r: Result<Product, Error>)
      requires Valid()
      modifies this
      ensures Valid()
      ensures r.Success? <==> id in old(products)
      ensures r.Success? ==>
        && r.value == MergeProduct(old(products)[id], info)
        && products == old(products)[id := r.value]
      ensures r.Failure? ==> r.error == DoesNotExist(ProductTable) && products == old(products)
      ensures suppliers == old(suppliers)
      ensures nextSupplierId == old(nextSupplierId) && nextProductId == old(nextProductId)
    {
      if id !in products {
        return Failure(DoesNotExist(ProductTable));
      }
      var product := products[id];
      if info.name.Some? { product := product.(name := info.name.value); }
      if info.quantityInStock.Some? { product := product.(quantityInStock := info.quantityInStock.value); }
      if info.unitPrice.Some? { product := product.(unitPrice := info.unitPrice.value); }
      if info.suppliedBy.Some? { product := product.(suppliedBy := info.suppliedBy.value); }
      if info.revenue.Some? { product := product.(revenue := info.revenue.value); }
      if info.quantitySold.Some? { product := product.(quantitySold := product.quantitySold + info.quantitySold.value); }
      products := products[id := product];
      r := Success(product);
    }

    /** Remove the product stored under `id`. */
    method DeleteProduct(id: int) returns (r: Result<string, Error>)
      requires Valid()
      modifies this
      ensures Valid()
      ensures r.Success? <==> id in old(products)
      ensures r.Success? ==> r.value == ProductDeleted && products == old(products) - {id}
      ensures r.Failure? ==> r.error == DoesNotExist(ProductTable) && products == old(products)
      ensures suppliers == old(suppliers)
      ensures nextSupplierId == old(nextSupplierId) && nextProductId == old(nextProductId)
    {
      if id !in products {
        return Failure(DoesNotExist(ProductTable));
      }
      products := products - {id};
      r := Success(ProductDeleted);
    }
  }
}
