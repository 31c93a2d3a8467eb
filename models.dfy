/**
 * The two record shapes of the inventory store and the input shapes that
 * create and update requests carry.
 *
 * Money columns are decimals with exactly two fractional digits, so every
 * amount is held here as a whole number of cents: 2.00 is 200.
 */
module Models {
  import opened Wrappers

  /** An amount of money with two decimal places, in cents. */
  type Cents = int

  // Declared column widths. The store and its validation layer enforce them;
  // the handlers never look at them.
  const NameMaxLength := 255
  const CompanyMaxLength := 255
  const EmailMaxLength := 255
  const PhoneMaxLength := 20

  // Column defaults of a product.
  const DefaultQuantityInStock := 0
  const DefaultUnitPrice: Cents := 0
  const DefaultRevenue: Cents := 0
  const DefaultQuantitySold := 0

  /** A supplier row; `id` is the primary key the store generates. */
  datatype Supplier = Supplier(id: int, name: string, company: string, email: string, phone: string)

  /** A product row; `suppliedBy` is the id of the supplier it references. */
  datatype Product = Product(
    id: int,
    name: string,
    quantityInStock: int,
    unitPrice: Cents,
    suppliedBy: int,
    revenue: Cents,
    quantitySold: int)

  /**
   * The supplier input shape: every column except the read-only `id`. A field
   * is `Some` exactly when the request set it.
   */
  datatype SupplierIn = SupplierIn(
    name: Option<string>,
    company: Option<string>,
    email: Option<string>,
    phone: Option<string>)

  /** The product input shape: every column except the read-only `id`. */
  datatype ProductIn = ProductIn(
    name: Option<string>,
    quantityInStock: Option<int>,
    unitPrice: Option<Cents>,
    suppliedBy: Option<int>,
    revenue: Option<Cents>,
    quantitySold: Option<int>)

  const NoSupplierFields := SupplierIn(None, None, None, None)
  const NoProductFields := ProductIn(None, None, None, None, None, None)

  /**
   * The product the store creates when given only the columns without a
   * default (its name and its supplier): every other column takes its default.
   */
  function NewProduct(id: int, name: string, suppliedBy: int): (p: Product)
    ensures p.id == id && p.name == name && p.suppliedBy == suppliedBy
    ensures p.quantityInStock == 0 && p.quantitySold == 0
    ensures p.unitPrice == 0 && p.revenue == 0
  {
    Product(id, name, DefaultQuantityInStock, DefaultUnitPrice, suppliedBy, DefaultRevenue, DefaultQuantitySold)
  }

  /** The supplier fits its declared column widths. */
  predicate SupplierFits(s: Supplier) {
    |s.name| <= NameMaxLength && |s.company| <= CompanyMaxLength &&
    |s.email| <= EmailMaxLength && |s.phone| <= PhoneMaxLength
  }

  /** Every field the supplier input sets fits its declared column width. */
  predicate SupplierInFits(u: SupplierIn) {
    (u.name.Some? ==> |u.name.value| <= NameMaxLength) &&
    (u.company.Some? ==> |u.company.value| <= CompanyMaxLength) &&
    (u.email.Some? ==> |u.email.value| <= EmailMaxLength) &&
    (u.phone.Some? ==> |u.phone.value| <= PhoneMaxLength)
  }

  /** The product name fits its declared column width. */
  predicate ProductFits(p: Product) {
    |p.name| <= NameMaxLength
  }
}
