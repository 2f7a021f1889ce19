/** The data behind `updateProductsTable`: an empty-state row for no products, or one
    row per product in the order given. The HTML markup itself is not modelled. */
module Render {
  import opened Wrappers
  import opened Catalog
  import opened Text
  import opened Stock

  /** What one table row shows and carries. The name, type, quantity, price and
      location cells show `product`'s fields as they are; `escapedName` is the name as
      it is written into the edit and delete handlers. */
  datatype Row = Row(
    product: Product,
    stockClass: string,
    idPrefix: string,
    typeClass: string,
    badgeClass: string,
    escapedName: string)

  datatype TableBody = EmptyState | Rows(rows: seq<Row>)

  /** The row built for one product in the body of the `forEach`: it carries the
      product, an ID prefix of at most eight characters, a well-formed type class, the
      two quantity classes and an escaped name that reads back as the product's name. */
  function RowFor(p: Product): (row: Row)
    ensures row.product == p
    ensures |row.idPrefix| == (if |p.rowKey| < 8 then |p.rowKey| else 8)
    ensures row.idPrefix <= p.rowKey
    ensures |row.typeClass| >= 6 && row.typeClass[..6] == "badge-"
    ensures forall i :: 6 <= i < |row.typeClass| ==> IsLowerLetter(row.typeClass[i])
    ensures row.stockClass == LowStock <==> p.cantidad < 5
    ensures row.stockClass == MediumStock <==> 5 <= p.cantidad < 10
    ensures row.stockClass == HighStock <==> 10 <= p.cantidad
    ensures row.badgeClass == BadgeDanger <==> p.cantidad == 0
    ensures row.badgeClass == BadgeWarning <==> p.cantidad < 5 && p.cantidad != 0
    ensures row.badgeClass == BadgeInfo <==> 5 <= p.cantidad < 10
    ensures row.badgeClass == BadgeSuccess <==> 10 <= p.cantidad
    ensures UnescapeQuotes(row.escapedName) == p.nombre
  {
    EscapeRoundTrip(p.nombre);
    Row(p, StockClass(p.cantidad), IdPrefix(p.rowKey), TypeClass(p.tipo),
        QuantityBadgeClass(p.cantidad), EscapeQuotes(p.nombre))
  }

  /** `t` is what the renderer shows for `products`: the empty state when there are no
      products (or none were given), otherwise the row of each product, in order. */
  ghost predicate Renders(products: Option<seq<Product>>, t: TableBody)
  {
    if products.None? || |products.value| == 0 then t == EmptyState
    else
      t.Rows? && |t.rows| == |products.value| &&
      forall i :: 0 <= i < |t.rows| ==> t.rows[i] == RowFor(products.value[i])
  }

  /** `updateProductsTable`: the empty-state check, then a loop that appends one row
      per product to an accumulator. */
  method RenderTable(products: Option<seq<Product>>) returns (t: TableBody)
    ensures Renders(products, t)
  {
    if products.None? || |products.value| == 0 {
      return EmptyState;
    }
    var ps := products.value;
    var html: seq<Row> := [];
    var i := 0;
    while i < |ps|
      invariant 0 <= i <= |ps|
      invariant |html| == i
      invariant forall k :: 0 <= k < i ==> html[k] == RowFor(ps[k])
    {
      html := html + [RowFor(ps[i])];
      i := i + 1;
    }
    return Rows(html);
  }

  /** Rendering depends on the products alone, not on what was shown before; in
      particular repeated empty renders all give the empty state. */
  lemma RendersDeterministic(products: Option<seq<Product>>, t1: TableBody, t2: TableBody)
    requires Renders(products, t1) && Renders(products, t2)
    ensures t1 == t2
  {
    if t1.Rows? {
      assert t1.rows == t2.rows;
    }
  }

  /** The empty state appears exactly when there is nothing to show. */
  lemma EmptyStateIff(products: Option<seq<Product>>, t: TableBody)
    requires Renders(products, t)
    ensures t == EmptyState <==> products.None? || products.value == []
  {
  }
}
