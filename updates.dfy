/**
 * What a partial update does to a stored record, as reference definitions
 * the update handlers are proved against, and what follows from them.
 *
 * A supplier update overwrites each field the request set. A product update
 * overwrites `name`, `quantityInStock`, `unitPrice`, `suppliedBy` and
 * `revenue` when set, but ADDS a set `quantitySold` to the stored count, and
 * never recomputes `revenue`.
 */
module Updates {
  import opened Wrappers
  import opened Models

  /** The supplier after applying the sparse update `u`. */
  function MergeSupplier(s: Supplier, u: SupplierIn): Supplier {
    Supplier(s.id, u.name.GetOr(s.name), u.company.GetOr(s.company), u.email.GetOr(s.email), u.phone.GetOr(s.phone))
  }

  /** The product after applying the sparse update `u`. */
  function MergeProduct(p: Product, u: ProductIn): Product {
    Product(
      p.id,
      u.name.GetOr(p.name),
      u.quantityInStock.GetOr(p.quantityInStock),
      u.unitPrice.GetOr(p.unitPrice),
      u.suppliedBy.GetOr(p.suppliedBy),
      u.revenue.GetOr(p.revenue),
      p.quantitySold + u.quantitySold.GetOr(0))
  }

  /** A field changes only when the update sets it, and a set field takes the given value. */
  lemma SupplierUpdateExact(s: Supplier, u: SupplierIn)
    ensures MergeSupplier(s, u).id == s.id
    ensures u.name.Some? ==> MergeSupplier(s, u).name == u.name.value
    ensures u.company.Some? ==> MergeSupplier(s, u).company == u.company.value
    ensures u.email.Some? ==> MergeSupplier(s, u).email == u.email.value
    ensures u.phone.Some? ==> MergeSupplier(s, u).phone == u.phone.value
    ensures MergeSupplier(s, u).name != s.name ==> u.name.Some?
    ensures MergeSupplier(s, u).company != s.company ==> u.company.Some?
    ensures MergeSupplier(s, u).email != s.email ==> u.email.Some?
    ensures MergeSupplier(s, u).phone != s.phone ==> u.phone.Some?
  {
  }

  /** Applying the same supplier update twice gives the record applying it once gives. */
  lemma SupplierUpdateIdempotent(s: Supplier, u: SupplierIn)
    ensures MergeSupplier(MergeSupplier(s, u), u) == MergeSupplier(s, u)
  {
  }

  /** An update that sets no field leaves the supplier as it was. */
  lemma SupplierUpdateEmpty(s: Supplier)
    ensures MergeSupplier(s, NoSupplierFields) == s
  {
  }

  /** A supplier within its column widths stays within them after an update whose values fit. */
  lemma SupplierUpdateFits(s: Supplier, u: SupplierIn)
    requires SupplierFits(s) && SupplierInFits(u)
    ensures SupplierFits(MergeSupplier(s, u))
  {
  }

  /**
   * The overwritten product fields take the given value when set and keep the
   * stored one otherwise; `quantitySold` grows by the given amount.
   */
  lemma ProductUpdateExact(p: Product, u: ProductIn)
    ensures MergeProduct(p, u).id == p.id
    ensures MergeProduct(p, u).name == (if u.name.Some? then u.name.value else p.name)
    ensures MergeProduct(p, u).quantityInStock == (if u.quantityInStock.Some? then u.quantityInStock.value else p.quantityInStock)
    ensures MergeProduct(p, u).unitPrice == (if u.unitPrice.Some? then u.unitPrice.value else p.unitPrice)
    ensures MergeProduct(p, u).suppliedBy == (if u.suppliedBy.Some? then u.suppliedBy.value else p.suppliedBy)
    ensures MergeProduct(p, u).revenue == (if u.revenue.Some? then u.revenue.value else p.revenue)
    ensures MergeProduct(p, u).quantitySold == (if u.quantitySold.Some? then p.quantitySold + u.quantitySold.value else p.quantitySold)
  {
  }

  /**
   * Revenue is never derived on update: unless the update sets it, it keeps
   * its stored value whatever happens to the price or the sold count.
   */
  lemma RevenueNotRecomputed(p: Product, u: ProductIn)
    requires u.revenue.None?
    ensures MergeProduct(p, u).revenue == p.revenue
  {
  }

  /** A product update that sets a non-zero `quantitySold` is not idempotent. */
  lemma ProductUpdateNotIdempotent(p: Product, u: ProductIn)
    requires u.quantitySold.Some? && u.quantitySold.value != 0
    ensures MergeProduct(MergeProduct(p, u), u) != MergeProduct(p, u)
  {
  }

  /** An update that sets no field leaves the product as it was. */
  lemma ProductUpdateEmpty(p: Product)
    ensures MergeProduct(p, NoProductFields) == p
  {
  }

  /** The product after `n` identical updates. */
  function UpdatedTimes(p: Product, u: ProductIn, n: nat): Product
    decreases n
  {
    if n == 0 then p else MergeProduct(UpdatedTimes(p, u, n - 1), u)
  }

  /**
   * Repeating an update `n` times overwrites the same fields as doing it once,
   * but adds its `quantitySold` `n` times.
   */
  lemma {:induction false} RepeatedProductUpdate(p: Product, u: ProductIn, n: nat)
    requires n >= 1
    ensures UpdatedTimes(p, u, n) == MergeProduct(p, u).(quantitySold := p.quantitySold + n * u.quantitySold.GetOr(0))
  {
    if n > 1 {
      RepeatedProductUpdate(p, u, n - 1);
      var k := u.quantitySold.GetOr(0);
      assert UpdatedTimes(p, u, n).quantitySold == p.quantitySold + (n - 1) * k + k;
      assert (n - 1) * k + k == n * k;
    }
  }
}
