# Inventory store: suppliers, products and their partial updates

This project models the core of a small inventory service. It keeps two tables,
suppliers and products, each keyed by an integer id that the store generates.
Every product references the id of the supplier that supplies it. The service
exposes create, list, get, update and delete handlers for both tables, plus the
lookup of the address a product notification is sent to.

The model has five modules:

- `Wrappers` (`wrappers.dfy`): `Option` for a key a request may leave unset, and `Result` for a handler's outcome.
- `Models` (`models.dfy`): the `Supplier` and `Product` rows and the `SupplierIn` / `ProductIn` input shapes.
  The input shapes carry no `id`, so no request can set or change one.
  Money columns have two decimal places and are held exactly as integer cents (`Cents`).
  This module also holds the column defaults and the declared column widths.
- `Updates` (`updates.dfy`): reference definitions of the two partial updates, `MergeSupplier` and `MergeProduct`, with the lemmas about them.
  A supplier update overwrites the fields the request set.
  A product update overwrites `name`, `quantityInStock`, `unitPrice`, `suppliedBy` and `revenue` when set.
  It adds a set `quantitySold` to the stored count, and never recomputes `revenue`.
- `Handlers` (`handlers.dfy`): the class `Inventory`, holding two id→record maps and one id counter per table.
  It has one method per request handler. Each method is one sequential transaction.
  A handler fetches the record, assigns its fields one by one and saves it. Otherwise it fails with the error the source raises and leaves the store unchanged.
  The errors stay distinct, as in the source:
  - the supplier lookup gives `HttpError(404, "Supplier not found")`;
  - every other lookup of an absent id gives the untranslated `DoesNotExist(table)`;
  - reading a key the request did not set gives `KeyError(key)`.
- `Scenarios` (`scenarios.dfy`): request sequences proved from the handlers' contracts alone.

## Model

| member | source | states |
|---|---|---|
| `Models.NewProduct` | models.py:5-12 | a product created with only its required columns (name, supplier) has 0 in stock, 0 sold, unit price 0.00 and revenue 0.00 |
| `Updates.SupplierUpdateExact` | app.py:66-77 | a supplier update keeps the id; every field the mapping sets takes the given value; a field that changed was set by the mapping |
| `Updates.SupplierUpdateIdempotent` | app.py:69-76 | applying the same supplier mapping twice gives the same record as applying it once |
| `Updates.SupplierUpdateEmpty` | app.py:69-78 | an empty supplier mapping leaves the record unchanged |
| `Updates.SupplierUpdateFits` | models.py:16-19 | a supplier within the declared widths (255/255/255/20) stays within them after an update whose values fit |
| `Updates.ProductUpdateExact` | app.py:110-123 | name, stock, price, supplier and revenue are overwritten when set and kept otherwise; a set `quantity_sold` is added to the stored count; the id never changes |
| `Updates.RevenueNotRecomputed` | app.py:116-123 | unless the mapping sets revenue, stored revenue keeps its old value even when price or sold count change |
| `Updates.ProductUpdateNotIdempotent` | app.py:122-123 | a product mapping with a non-zero `quantity_sold` gives a different record when applied twice |
| `Updates.ProductUpdateEmpty` | app.py:110-124 | an empty product mapping leaves the record unchanged |
| `Updates.RepeatedProductUpdate` | app.py:112-123 | n identical product updates overwrite the same fields as one, but add `quantity_sold` n times |
| `Handlers.Recipients` | app.py:160-162 | the recipient list is exactly `[email]` of the supplier the product references; an absent product, or an absent referenced supplier, fails with a not-found error |
| `Handlers.Inventory.constructor` | models.py:6 | the store starts with both tables empty and a valid id counter for each |
| `Handlers.Inventory.AddSupplier` | app.py:44-48 | the supplier is stored under a fresh id and holds the four given columns; a missing column fails, names an unset column and changes nothing |
| `Handlers.Inventory.GetAllSuppliers` | app.py:50-53 | lists every stored supplier exactly once, in ascending id (= insertion) order |
| `Handlers.Inventory.GetSupplier` | app.py:55-61 | a present id gives its record; an absent id gives the 404 "Supplier not found" |
| `Handlers.Inventory.UpdateSupplier` | app.py:63-80 | the stored supplier becomes `MergeSupplier` of the old one; other suppliers and all products are unchanged; an absent id fails with DoesNotExist and changes nothing |
| `Handlers.Inventory.DeleteSupplier` | app.py:82-86 | the id is gone and the other suppliers are unchanged; surviving products are unchanged; an absent id fails and changes nothing |
| `Handlers.Inventory.AddProduct` | app.py:88-95 | fails, changing nothing, on an absent supplier (DoesNotExist), unset `quantity_sold` or `unit_price` (KeyError, in that order), a `supplied_by` key (duplicate keyword) or no name; otherwise stores a fresh id with revenue = sold × price in cents, linked to the given supplier, stock defaulting to 0 |
| `Handlers.Inventory.GetAllProducts` | app.py:97-100 | lists every stored product exactly once, in ascending id order |
| `Handlers.Inventory.GetProduct` | app.py:102-105 | a present id gives its record; an absent id gives DoesNotExist("Product"), which differs from the supplier 404 |
| `Handlers.Inventory.UpdateProduct` | app.py:107-126 | the stored product becomes `MergeProduct` of the old one; other products and all suppliers are unchanged; an absent id fails and changes nothing |
| `Handlers.Inventory.DeleteProduct` | app.py:128-132 | the id is gone and every other record is unchanged; an absent id fails and changes nothing |
| `Scenarios.SaleScenario` | app.py:88-126 | product created with 5 sold at 2.00 has revenue 10.00; adding 3 sales gives 8 sold and still 10.00 revenue; it references its supplier, whose email is the only recipient |
| `Scenarios.PhoneUpdateScenario` | app.py:63-80 | setting only the phone leaves name, company and email unchanged |
| `Scenarios.DeleteThenGetScenario` | app.py:55-86 | after deleting a supplier, looking it up gives the 404 |
| `Scenarios.RejectedProductScenario` | app.py:88-93 | creating a product through an absent supplier, or without price or sold count, fails and leaves both tables unchanged |
| `Scenarios.RecipientsFollowSupplierUpdate` | app.py:157-162 | after a supplier update, a notification about its product goes to the supplier's updated address |

## Left out

- `Handlers.Inventory.DeleteSupplier`: the contract does not decide whether products that reference the deleted supplier are removed.
  It only says that surviving products are unchanged and that only products of that supplier may go.
  The store's foreign-key rule decides this, and it is not part of this model.
  The body itself removes no product.
- `Handlers.Inventory.AddSupplier`: when several columns are missing, which one the error names is up to the store.
  The body reports the first in declaration order; the contract promises only that the named column is unset.
- `Handlers.Inventory.AddProduct`: a product created without a name fails with `NotNull("name")`.
  The store reports that itself, so its exact form is an assumption.
- Request-body validation by the input shapes (which keys must be present, type coercion, decimal places) is not modelled.
  The handlers are modelled for any sparse mapping that reaches them.
- The declared column widths (255 for names, company and email, 20 for phone) are not enforced by the handlers.
  They are stated as predicates only (`SupplierFits`, `ProductFits`).
- Quantities are unbounded integers. The 32-bit range of the integer columns, and the precision of the decimal columns (10 and 20 digits), are not modelled.
  Negative quantities are accepted, as the handlers accept them.
- Assigning `supplied_by` on product update is not checked against the supplier table. This can leave a product referencing an absent supplier.
  The recipient lookup then fails with `DoesNotExist("Supplier")`.
- The email send itself is not modelled: HTML rendering, SMTP configuration, the mail transport, address validation and the catch-all that turns any failure into a 500.
  Only the product → supplier → recipient lookup is modelled.
- HTTP routing, the response envelope `{status, data}`, CORS, the greeting route, environment loading and the start-up check on mail credentials are not modelled.
- Persistence, schema generation and serialisation of records are not modelled. The store is two in-memory maps.
- Concurrent requests and lost updates are not modelled: each handler runs as one sequential step.
