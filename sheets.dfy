/** The spreadsheet reader: turns the values of a sheet's columns A:B into
    (model, price) products. The remote call itself is not modelled: what it
    returned (or that it raised) is an input. */
module Sheets {
  import opened Text
  import opened Registry

  /** One product row: the stripped first two cells of a sheet row. */
  datatype Product = Product(model: string, price: string)

  /** What the spreadsheet API call produced: it raised, or it returned a
      list of rows (a missing `values` entry is the empty list). */
  datatype FetchResult = Raised | Fetched(values: seq<seq<string>>)

  /** A data row is kept when it has two cells that are not blank after stripping. */
  predicate Keeps(row: seq<string>) {
    |row| >= 2 && Strip(row[0]) != "" && Strip(row[1]) != ""
  }

  function ProductOf(row: seq<string>): Product
    requires |row| >= 2
  {
    Product(Strip(row[0]), Strip(row[1]))
  }

  /** The products the filter loop produces from the data rows (header excluded). */
  function Kept(rows: seq<seq<string>>): seq<Product> {
    if rows == [] then []
    else
      var last := rows[|rows| - 1];
      Kept(rows[..|rows| - 1]) + (if Keeps(last) then [ProductOf(last)] else [])
  }

  /** The result of `get_sheet_data`: no service, a raised call and an empty
      sheet all give `[]`; otherwise the filtered rows after the header. */
  function SheetData(hasService: bool, response: FetchResult): seq<Product> {
    if !hasService then []
    else match response
      case Raised => []
      case Fetched(values) => if values == [] then [] else Kept(values[1..])
  }

  /** The filter loop of `get_sheet_data` over the rows after the header. */
  method FilterRows(rows: seq<seq<string>>) returns (products: seq<Product>)
    ensures products == Kept(rows)
  {
    products := [];
    var i := 0;
    while i < |rows|
      invariant 0 <= i <= |rows|
      invariant products == Kept(rows[..i])
    {
      assert rows[..i + 1][..i] == rows[..i];
      var row := rows[i];
      if |row| >= 2 && Strip(row[0]) != "" && Strip(row[1]) != "" {
        products := products + [Product(Strip(row[0]), Strip(row[1]))];
      }
      i := i + 1;
    }
    assert rows[..i] == rows;
  }

  /** The filter distributes over concatenation: it keeps rows in input order. */
  lemma {:induction false} KeptAppend(a: seq<seq<string>>, b: seq<seq<string>>)
    ensures Kept(a + b) == Kept(a) + Kept(b)
    decreases |b|
  {
    if b != [] {
      var init := b[..|b| - 1];
      assert (a + b)[..|a + b| - 1] == a + init;
      KeptAppend(a, init);
    } else {
      assert a + b == a;
    }
  }

  /** A single row contributes exactly its stripped pair, or nothing. */
  lemma KeptSingle(row: seq<string>)
    ensures Kept([row]) == if Keeps(row) then [ProductOf(row)] else []
  {
    assert [row][..0] == [];
  }

  /** At most one product per data row. */
  lemma {:induction false} KeptBound(rows: seq<seq<string>>)
    ensures |Kept(rows)| <= |rows|
  {
    if rows != [] { KeptBound(rows[..|rows| - 1]); }
  }

  /** Every product is made of two stripped, non-blank cells of some kept row. */
  lemma {:induction false} KeptFromRows(rows: seq<seq<string>>, p: Product)
    requires p in Kept(rows)
    ensures p.model != "" && p.price != ""
    ensures Strip(p.model) == p.model && Strip(p.price) == p.price
    ensures exists row :: row in rows && Keeps(row) && p == ProductOf(row)
  {
    var init := rows[..|rows| - 1];
    var last := rows[|rows| - 1];
    if p in Kept(init) {
      KeptFromRows(init, p);
      var row :| row in init && Keeps(row) && p == ProductOf(row);
      assert row in rows;
    } else {
      assert Keeps(last) && p == ProductOf(last);
      StripIdempotent(last[0]);
      StripIdempotent(last[1]);
    }
  }

  /** No product at all exactly when no data row has two non-blank cells. */
  lemma {:induction false} KeptEmptyIff(rows: seq<seq<string>>)
    ensures Kept(rows) == [] <==> forall i :: 0 <= i < |rows| ==> !Keeps(rows[i])
  {
    if rows != [] {
      var init := rows[..|rows| - 1];
      var last := rows[|rows| - 1];
      KeptEmptyIff(init);
      if Kept(rows) == [] {
        assert Kept(init) == [] && !Keeps(last);
        forall i | 0 <= i < |rows| ensures !Keeps(rows[i]) {
          if i < |init| { assert rows[i] == init[i]; } else { assert rows[i] == last; }
        }
      } else if Kept(init) != [] {
        var i :| 0 <= i < |init| && Keeps(init[i]);
        assert rows[i] == init[i];
      } else {
        assert Keeps(rows[|rows| - 1]);
      }
    }
  }

  /** The header row never reaches the output: any two sheets that differ
      only in their first row give the same products. */
  lemma HeaderIgnored(hasService: bool, h1: seq<string>, h2: seq<string>, rest: seq<seq<string>>)
    ensures SheetData(hasService, Fetched([h1] + rest)) == SheetData(hasService, Fetched([h2] + rest))
  {
    assert ([h1] + rest)[1..] == rest == ([h2] + rest)[1..];
  }

  /** The output has at most one product per row after the header. */
  lemma SheetDataBound(hasService: bool, values: seq<seq<string>>)
    ensures |SheetData(hasService, Fetched(values))| <= if values == [] then 0 else |values| - 1
  {
    if hasService && values != [] { KeptBound(values[1..]); }
  }

  /** The reader object of `services/google_sheets.py`. `hasService` stands for
      `self.service is not None`. */
  class SheetsReader {
    var hasService: bool

    /** `__init__` sets the service to `None` and connects; a failed connect
        leaves it `None`. */
    constructor (connectSucceeds: bool)
      ensures hasService == connectSucceeds
    {
      hasService := connectSucceeds;
    }

    /** `connect`: success builds a service, failure sets it to `None`. */
    method Connect(succeeds: bool)
      modifies this
      ensures hasService == succeeds
    {
      hasService := succeeds;
    }

    /** `is_connected`: whether a service is held. Without one, every sheet
        read gives `[]`. */
    predicate IsConnected(): (r: bool)
      reads this
      ensures !r ==> forall response :: SheetData(hasService, response) == []
    {
      hasService
    }

    method GetSheetData(response: FetchResult) returns (products: seq<Product>)
      ensures products == SheetData(hasService, response)
    {
      if !hasService {
        return [];
      }
      match response
      case Raised =>
        products := [];
      case Fetched(values) =>
        if values == [] {
          return [];
        }
        products := FilterRows(values[1..]);
    }

    /** `get_all_sheets_data`: one entry per configured sheet, fetched by its
        sheet name. `fetch` gives the API's answer for a sheet name. */
    method GetAllSheetsData(sheets: seq<(string, SheetConfig)>, fetch: string -> FetchResult)
      returns (result: map<string, seq<Product>>)
      requires KeysDistinct(sheets)
      ensures result.Keys == KeysOf(sheets)
      ensures forall i :: 0 <= i < |sheets| ==>
                result[sheets[i].0] == SheetData(hasService, fetch(sheets[i].1.sheetName))
    {
      result := map[];
      var i := 0;
      while i < |sheets|
        invariant 0 <= i <= |sheets|
        invariant result.Keys == KeysOf(sheets[..i])
        invariant forall j :: 0 <= j < i ==>
                    result[sheets[j].0] == SheetData(hasService, fetch(sheets[j].1.sheetName))
      {
        assert sheets[..i + 1] == sheets[..i] + [sheets[i]];
        var data := GetSheetData(fetch(sheets[i].1.sheetName));
        result := result[sheets[i].0 := data];
        i := i + 1;
      }
      assert sheets[..i] == sheets;
    }
  }
}
