/**
 * Request sequences against the store, proved from the handlers' contracts
 * alone, and what the recipient lookup does across updates.
 */
module Scenarios {
  import opened Wrappers
  import opened Models
  import opened Updates
  import opened Handlers

  /**
   * Create a supplier and a product sold 5 times at 2.00, then report 3 more
   * sales: the product starts with revenue 10.00, ends with 8 sold and still
   * 10.00 of revenue, references its supplier, and notifications about it go
   * to that supplier alone.
   */
  method SaleScenario(inv: Inventory) returns (createdRevenue: Cents, sold: int, revenue: Cents, sameSupplier: bool, recipients: Result<seq<string>, Error>)
    requires inv.Valid()
    modifies inv
    ensures createdRevenue == 1000 && sold == 8 && revenue == 1000 && sameSupplier
    ensures recipients == Success(["ann@example.com"])
  {
    var s := inv.AddSupplier(SupplierIn(Some("Ann"), Some("Acme"), Some("ann@example.com"), Some("555-0000")));
    var p := inv.AddProduct(s.value.id, ProductIn(Some("Bolt"), None, Some(200), None, None, Some(5)));
    createdRevenue := p.value.revenue;
    var u := inv.UpdateProduct(p.value.id, NoProductFields.(quantitySold := Some(3)));
    var g := inv.GetProduct(p.value.id);
    sold, revenue := g.value.quantitySold, g.value.revenue;
    sameSupplier := g.value.suppliedBy == s.value.id;
    recipients := Recipients(inv.suppliers, inv.products, p.value.id);
  }

  /** Setting only the phone leaves a supplier's name, company and email as they were. */
  method PhoneUpdateScenario(inv: Inventory, id: int) returns (before: Supplier, after: Supplier)
    requires inv.Valid() && id in inv.suppliers
    modifies inv
    ensures after == before.(phone := "555-1234")
  {
    before := inv.suppliers[id];
    var u := inv.UpdateSupplier(id, NoSupplierFields.(phone := Some("555-1234")));
    var g := inv.GetSupplier(id);
    after := g.value;
  }

  /** After a supplier is deleted, looking it up gives the 404. */
  method DeleteThenGetScenario(inv: Inventory, id: int) returns (deleted: Result<string, Error>, lookup: Result<Supplier, Error>)
    requires inv.Valid()
    modifies inv
    ensures lookup == Failure(SupplierNotFound)
    ensures deleted.Success? <==> id in old(inv.suppliers)
  {
    deleted := inv.DeleteSupplier(id);
    lookup := inv.GetSupplier(id);
  }

  /** Creating a product through an absent supplier, or without a price, changes nothing. */
  method RejectedProductScenario(inv: Inventory, supplierId: int, details: ProductIn) returns (r: Result<Product, Error>)
    requires inv.Valid()
    requires supplierId !in inv.suppliers || details.unitPrice.None? || details.quantitySold.None?
    modifies inv
    ensures r.Failure?
    ensures inv.suppliers == old(inv.suppliers) && inv.products == old(inv.products)
  {
    r := inv.AddProduct(supplierId, details);
  }

  /**
   * A notification about a product goes to the address its supplier holds
   * after the latest supplier update.
   */
  lemma RecipientsFollowSupplierUpdate(suppliers: map<int, Supplier>, products: map<int, Product>, productId: int, u: SupplierIn)
    requires productId in products && products[productId].suppliedBy in suppliers
    ensures var supplierId := products[productId].suppliedBy;
      Recipients(suppliers[supplierId := MergeSupplier(suppliers[supplierId], u)], products, productId)
        == Success([u.email.GetOr(suppliers[supplierId].email)])
  {
  }
}
