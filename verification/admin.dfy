/**
 * Admin-panel logic without the network: the checks `saveProduct` makes on the
 * product form (app.js:536-569) and the badge class of an order status (app.js:709-717).
 */
module Admin {
  import opened Results
  import opened Text
  import opened Escape

  /**
   * The product form as read: price and stock are the parsed numbers, `None` where
   * `parseFloat`/`parseInt` give NaN. Prices are integer cents.
   */
  datatype ProductForm = ProductForm(
    name: string,
    category: string,
    price: Option<int>,
    stock: Option<int>,
    description: string)

  datatype FormError =
    | NameMissing     // app.js:543-546
    | CategoryMissing // app.js:548-551
    | PriceInvalid    // app.js:553-556
    | StockInvalid    // app.js:558-561

  /** The record sent to the product service (app.js:563-569). */
  datatype ProductData = ProductData(
    name: string,
    category: string,
    price: int,
    stock: int,
    description: string)

  /**
   * The first failing check of `saveProduct`, or the record it would send: trimmed and
   * escaped name and description, the category as chosen, a non-negative price and stock.
   */
  function ValidateProductForm(f: ProductForm): (r: Result<ProductData, FormError>)
    ensures r.Ok? <==>
              && !Blank(f.name)
              && f.category != ""
              && f.price.Some? && f.price.value >= 0
              && f.stock.Some? && f.stock.value >= 0
    ensures Blank(f.name) ==> r == Err(NameMissing)
    ensures !Blank(f.name) && f.category == "" ==> r == Err(CategoryMissing)
    ensures !Blank(f.name) && f.category != "" && (f.price.None? || f.price.value < 0) ==>
              r == Err(PriceInvalid)
    ensures !Blank(f.name) && f.category != "" && f.price.Some? && f.price.value >= 0
            && (f.stock.None? || f.stock.value < 0) ==>
              r == Err(StockInvalid)
    ensures r.Ok? ==>
              && r.value.category == f.category
              && r.value.price == f.price.value
              && r.value.stock == f.stock.value
              && r.value.name == EscapeHtml(Trim(f.name))
              && r.value.description == EscapeHtml(Trim(f.description))
              && Unescape(r.value.name) == Trim(f.name)
              && Unescape(r.value.description) == Trim(f.description)
  {
    var name := Trim(f.name);
    var description := Trim(f.description);
    if name == [] then Err(NameMissing)
    else if f.category == "" then Err(CategoryMissing)
    else if f.price.None? || f.price.value < 0 then Err(PriceInvalid)
    else if f.stock.None? || f.stock.value < 0 then Err(StockInvalid)
    else
      UnescapeEscapeHtml(name);
      UnescapeEscapeHtml(description);
      Ok(ProductData(EscapeHtml(name), f.category, f.price.value, f.stock.value, EscapeHtml(description)))
  }

  /** The four statuses an order can be given from the admin panel. */
  const OrderStatuses: set<string> := {"pending", "processing", "completed", "cancelled"}

  const UnknownStatusClass := "bg-secondary"

  /** `getStatusBadgeClass`: one colour per known status, a neutral one for anything else. */
  function StatusBadgeClass(status: string): (r: string)
    ensures status in OrderStatuses <==> r != UnknownStatusClass
  {
    match status
    case "pending" => "bg-warning"
    case "processing" => "bg-info"
    case "completed" => "bg-success"
    case "cancelled" => "bg-danger"
    case _ => UnknownStatusClass
  }

  /** Different known statuses never share a badge. */
  lemma StatusBadgeClassInjective(a: string, b: string)
    requires a in OrderStatuses && b in OrderStatuses && a != b
    ensures StatusBadgeClass(a) != StatusBadgeClass(b)
  {
  }
}
