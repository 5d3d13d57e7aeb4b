/** The early single-file version of the bot (`main.py`): its own copy of
    the sheet reader, a cache with two fixed keys, the refresh handler that
    overwrites both, and a plain numbered product list. */
module Legacy {
  import opened Text
  import opened Sheets

  /** `GoogleSheetsReader.get_sheet_data` of the single-file version. It has
      no explicit check for a missing service: calling through `None`
      raises, and the `except` turns that into `[]`. It agrees with the
      reader of the packaged bot in every case. */
  method LegacySheetData(hasService: bool, response: FetchResult) returns (products: seq<Product>)
    ensures products == SheetData(hasService, response)
    ensures !hasService ==> products == []
    ensures response.Fetched? && response.values != [] ==> |products| <= |response.values| - 1
  {
    if !hasService {
      // `self.service.spreadsheets()` on `None` raises and is caught
      products := [];
    } else {
      match response
      case Raised =>
        products := [];
      case Fetched(rows) =>
        if rows == [] {
          products := [];
        } else {
          products := FilterRows(rows[1..]);
          KeptBound(rows[1..]);
        }
    }
  }

  /** One line of the list: number, model and price in roubles. */
  function ListLine(i: int, p: Product): string {
    IntToString(i) + ". " + p.model + " — <b>" + p.price + " ₽</b>\n"
  }

  /** The numbered lines of a list: line `i` shows product `i`, counted from 1. */
  function NumberedLines(products: seq<Product>): (r: seq<string>)
    ensures |r| == |products|
    ensures forall i :: 0 <= i < |products| ==> r[i] == ListLine(i + 1, products[i])
  {
    seq(|products|, i requires 0 <= i < |products| => ListLine(i + 1, products[i]))
  }

  function Concat(lines: seq<string>): string {
    if lines == [] then "" else Concat(lines[..|lines| - 1]) + lines[|lines| - 1]
  }

  function LegacyHeader(category: string): string {
    "<b>📋 " + category + "</b>\n\n"
  }

  /** `format_products_list` of the single-file version: an empty list gives
      the "no data" line; otherwise a header and one numbered line per
      product, in order. */
  method LegacyFormatList(products: seq<Product>, category: string) returns (text: string)
    ensures products == [] ==> text == "❌ Нет данных по категории " + category
    ensures products != [] ==> text == LegacyHeader(category) + Concat(NumberedLines(products))
  {
    if products == [] {
      return "❌ Нет данных по категории " + category;
    }
    text := LegacyHeader(category);
    var i := 0;
    while i < |products|
      invariant 0 <= i <= |products|
      invariant text == LegacyHeader(category) + Concat(NumberedLines(products[..i]))
    {
      ListStep(LegacyHeader(category), products, i);
      text := text + ListLine(i + 1, products[i]);
      i := i + 1;
    }
    assert products[..i] == products;
  }

  /** Appending a product appends exactly its numbered line. */
  lemma ConcatSnoc(products: seq<Product>, p: Product)
    ensures Concat(NumberedLines(products + [p])) == Concat(NumberedLines(products)) + ListLine(|products| + 1, p)
  {
    assert NumberedLines(products + [p])[..|products|] == NumberedLines(products);
  }

  /** One pass of the list loop appends the next numbered line. */
  lemma ListStep(header: string, products: seq<Product>, i: nat)
    requires i < |products|
    ensures header + Concat(NumberedLines(products[..i + 1]))
         == header + Concat(NumberedLines(products[..i])) + ListLine(i + 1, products[i])
  {
    assert products[..i + 1] == products[..i] + [products[i]];
    ConcatSnoc(products[..i], products[i]);
    Associative(header, Concat(NumberedLines(products[..i])), ListLine(i + 1, products[i]));
  }

  /** The two keys of the single-file cache. */
  function CacheKeys(): set<string> {
    {"iphones", "macbooks"}
  }

  /** The reader and the cache of the single-file version. */
  class LegacyBot {
    var dataCache: map<string, seq<Product>>

    /** The cache holds exactly the two keys. */
    ghost predicate Valid()
      reads this
    {
      dataCache.Keys == CacheKeys()
    }

    /** `data_cache` starts with exactly the two keys, both empty. */
    constructor ()
      ensures Valid()
      ensures dataCache == map["iphones" := [], "macbooks" := []]
    {
      dataCache := map["iphones" := [], "macbooks" := []];
    }

    /** `data_cache.get(key, [])`. */
    function Get(key: string): (r: seq<Product>)
      reads this
      ensures key in dataCache ==> r == dataCache[key]
      ensures key !in dataCache ==> r == []
    {
      if key in dataCache then dataCache[key] else []
    }

    /** `show_iphones` and `show_macbooks`: the list of one cached key. */
    method ShowList(key: string, category: string) returns (text: string)
      ensures Get(key) == [] ==> text == "❌ Нет данных по категории " + category
      ensures Get(key) != [] ==> text == LegacyHeader(category) + Concat(NumberedLines(Get(key)))
    {
      var products := Get(key);
      text := LegacyFormatList(products, category);
    }

    /** `refresh_data`. With a reader object both sheets are fetched and both
        keys are overwritten; other keys stay as they were. A reader whose
        connection failed is still an object, so it overwrites both keys with
        `[]`. Without a reader nothing changes. */
    method RefreshData(reader: SheetsReader?, fetch: string -> FetchResult) returns (answer: string, text: string)
      requires Valid()
      modifies this
      ensures Valid()
      ensures answer == "🔄 Обновление данных..."
      ensures reader != null ==>
                && dataCache == old(dataCache)["iphones" := SheetData(reader.hasService, fetch("айфоны"))]
                                              ["macbooks" := SheetData(reader.hasService, fetch("макбуки"))]
                && text == "✅ Данные обновлены!\n\n"
                           + "iPhone: " + IntToString(|dataCache["iphones"]|) + " моделей\n"
                           + "MacBook: " + IntToString(|dataCache["macbooks"]|) + " моделей"
      ensures reader == null ==> dataCache == old(dataCache) && text == "❌ Ошибка подключения к Google Sheets"
    {
      answer := "🔄 Обновление данных...";
      if reader != null {
        var iphones := LegacySheetData(reader.hasService, fetch("айфоны"));
        var macbooks := LegacySheetData(reader.hasService, fetch("макбуки"));
        dataCache := dataCache["iphones" := iphones];
        dataCache := dataCache["macbooks" := macbooks];
        text := "✅ Данные обновлены!\n\n"
                + "iPhone: " + IntToString(|iphones|) + " моделей\n"
                + "MacBook: " + IntToString(|macbooks|) + " моделей";
      } else {
        text := "❌ Ошибка подключения к Google Sheets";
      }
    }
  }
}
