/**
 * The tables the handlers render: each is specified by a function on the
 * gateway records and built, as the source does, by a loop that appends one
 * row per record (and, for the catalog, one cell per field).
 */
module Tables {
  import opened Commerce
  import opened Transcript

  /** A search hit's row: name, price, and stock with a missing stock shown as 0. */
  function SearchRow(p: Product): seq<Field> {
    [Str(p.name), p.unitPrice, OrElse(p.stock, Num(0.0))]
  }

  /** The search-result table: three header cells and one three-cell row per hit. */
  function SearchTable(hits: seq<Product>): (t: Table)
    ensures t.header == [Str("Name"), Str("Price"), Str("Stock")] && |t.rows| == |hits| && t.footer == []
    ensures forall i :: 0 <= i < |hits| ==>
      |t.rows[i]| == 3 && t.rows[i][0] == Str(hits[i].name) && t.rows[i][1] == hits[i].unitPrice
    ensures forall i :: 0 <= i < |hits| ==>
      t.rows[i][2] == (if hits[i].stock.Null? || hits[i].stock.Undefined? then Num(0.0) else hits[i].stock)
  {
    Table([Str("Name"), Str("Price"), Str("Stock")],
          seq(|hits|, i requires 0 <= i < |hits| => SearchRow(hits[i])),
          [])
  }

  /** The `products.forEach` loop that renders the search table. */
  method BuildSearchTable(hits: seq<Product>) returns (t: Table)
    ensures t == SearchTable(hits)
  {
    var rows: seq<seq<Field>> := [];
    for i := 0 to |hits|
      invariant |rows| == i
      invariant forall k :: 0 <= k < i ==> rows[k] == SearchRow(hits[k])
    {
      rows := rows + [SearchRow(hits[i])];
    }
    t := Table([Str("Name"), Str("Price"), Str("Stock")], rows, []);
  }

  /** A cart line's row: item, unit price, quantity, line total. */
  function CartRow(line: CartLine): seq<Field> {
    [Str(line.productName), line.unitPrice, line.quantity, line.total]
  }

  /** The cart table: four columns, one row per line, and the grand total in the footer. */
  function CartTable(items: seq<CartLine>, grandTotal: Field): (t: Table)
    ensures t.header == [Str("Item"), Str("Price"), Str("Qty"), Str("Total")] && |t.rows| == |items|
    ensures forall i :: 0 <= i < |items| ==>
      t.rows[i] == [Str(items[i].productName), items[i].unitPrice, items[i].quantity, items[i].total]
    ensures t.footer == [Str("Grand Total:"), grandTotal]
  {
    Table([Str("Item"), Str("Price"), Str("Qty"), Str("Total")],
          seq(|items|, i requires 0 <= i < |items| => CartRow(items[i])),
          [Str("Grand Total:"), grandTotal])
  }

  /** The `cartData.items.forEach` loop that renders the cart table. */
  method BuildCartTable(items: seq<CartLine>, grandTotal: Field) returns (t: Table)
    ensures t == CartTable(items, grandTotal)
  {
    var rows: seq<seq<Field>> := [];
    for i := 0 to |items|
      invariant |rows| == i
      invariant forall k :: 0 <= k < i ==> rows[k] == CartRow(items[k])
    {
      rows := rows + [CartRow(items[i])];
    }
    t := Table([Str("Item"), Str("Price"), Str("Qty"), Str("Total")], rows, [Str("Grand Total:"), grandTotal]);
  }

  /** `labels[f]`: a field without a label renders as `undefined`. */
  function HeaderCell(labels: map<string, string>, f: string): Field {
    if f in labels then Str(labels[f]) else Undefined
  }

  /** `prod[f] ?? ''`: a missing or null value renders as the empty string. */
  function RecordCell(rec: map<string, Field>, f: string): Field {
    OrElse(if f in rec then rec[f] else Undefined, Str(""))
  }

  /** One catalog row: one cell per configured field, in field order. */
  function CatalogRow(fields: seq<string>, rec: map<string, Field>): seq<Field> {
    seq(|fields|, j requires 0 <= j < |fields| => RecordCell(rec, fields[j]))
  }

  /**
   * The catalog table of `getAvailableProducts1`: one header cell per field and
   * one row per record, each row holding one cell per field.
   */
  function CatalogTable(d: CatalogDisplay): (t: Table)
    ensures |t.header| == |d.fields| && |t.rows| == |d.records| && t.footer == []
    ensures forall j :: 0 <= j < |d.fields| ==> t.header[j] == HeaderCell(d.labels, d.fields[j])
    ensures forall i :: 0 <= i < |d.records| ==> |t.rows[i]| == |d.fields|
    ensures forall i, j :: 0 <= i < |d.records| && 0 <= j < |d.fields| ==>
      t.rows[i][j] == (if d.fields[j] in d.records[i] && !d.records[i][d.fields[j]].Null?
                          && !d.records[i][d.fields[j]].Undefined?
                       then d.records[i][d.fields[j]] else Str(""))
  {
    Table(seq(|d.fields|, j requires 0 <= j < |d.fields| => HeaderCell(d.labels, d.fields[j])),
          seq(|d.records|, i requires 0 <= i < |d.records| => CatalogRow(d.fields, d.records[i])),
          [])
  }

  /** The nested `fields.forEach` / `products.forEach` loops that render the catalog. */
  method BuildCatalogTable(d: CatalogDisplay) returns (t: Table)
    ensures t == CatalogTable(d)
  {
    var header: seq<Field> := [];
    for j := 0 to |d.fields|
      invariant |header| == j
      invariant forall k :: 0 <= k < j ==> header[k] == HeaderCell(d.labels, d.fields[k])
    {
      header := header + [HeaderCell(d.labels, d.fields[j])];
    }
    var rows: seq<seq<Field>> := [];
    for i := 0 to |d.records|
      invariant |rows| == i
      invariant forall k :: 0 <= k < i ==> rows[k] == CatalogRow(d.fields, d.records[k])
    {
      var row: seq<Field> := [];
      for j := 0 to |d.fields|
        invariant |row| == j
        invariant forall k :: 0 <= k < j ==> row[k] == RecordCell(d.records[i], d.fields[k])
      {
        row := row + [RecordCell(d.records[i], d.fields[j])];
      }
      rows := rows + [row];
    }
    t := Table(header, rows, []);
  }

  /** A line of the rule-based product list: name and unit price. */
  function ListingLine(p: Product): seq<Field> {
    [Str(p.name), p.unitPrice]
  }

  /** The rule-based "Available Products" text: one line per product, in catalog order. */
  function ProductListing(ps: seq<Product>): (lines: seq<seq<Field>>)
    ensures |lines| == |ps|
    ensures forall i :: 0 <= i < |ps| ==> lines[i] == [Str(ps[i].name), ps[i].unitPrice]
  {
    seq(|ps|, i requires 0 <= i < |ps| => ListingLine(ps[i]))
  }

  /** The `products.forEach` loop that appends one line per product. */
  method BuildListing(ps: seq<Product>) returns (lines: seq<seq<Field>>)
    ensures lines == ProductListing(ps)
  {
    lines := [];
    for i := 0 to |ps|
      invariant |lines| == i
      invariant forall k :: 0 <= k < i ==> lines[k] == ListingLine(ps[k])
    {
      lines := lines + [ListingLine(ps[i])];
    }
  }
}
