/** The inline-button handlers of `bot/handlers/callbacks.py`: lookup of a
    callback token in the registry, the per-user memory of the last category
    opened, the admin gate on refresh, and the collection of the tokens the
    handlers are registered for. Telegram messages are `Screen` records
    (text and keyboard); `callback.answer()` acknowledgements without text
    are not modelled. */
module Callbacks {
  import opened Options
  import opened Text
  import opened Registry
  import opened Sheets
  import opened Cache
  import opened Formatters

  /** The keyboards a screen can carry. */
  datatype Markup = MainMenuKeyboard | BackToMenuKeyboard | SubcategoryKeyboard(categoryKey: string) | BackKeyboard

  datatype Screen = Screen(text: string, markup: Markup)

  /** `show_main_menu` (and `back_to_categories`, which only calls it). */
  function MainMenuScreen(): Screen {
    Screen("📋 Главное меню:", MainMenuKeyboard)
  }

  /** The subcategory menu of the category with key `key`. */
  function SubcategoryScreen(key: string, n: Node): Screen {
    Screen(n.name + "\n\nВыберите модель:", SubcategoryKeyboard(key))
  }

  /** The text `format_products_list` produces, as its method promises. */
  function ListText(products: seq<Product>, category: string, cats: Categories,
                    floatFormat: string -> Option<string>): string
  {
    if products == [] then "❌ Нет данных по категории " + category
    else ListHeader(ScanEmoji(cats, category, "📦"), category) + RenderAll(LinesOf(products), PriceText(floatFormat))
  }

  /** `format_products_list` as the handlers call it. */
  method ProductListText(products: seq<Product>, category: string, cats: Categories,
                         floatFormat: string -> Option<string>) returns (text: string)
    ensures text == ListText(products, category, cats, floatFormat)
  {
    text := FormatProductsList(products, category, cats, floatFormat);
  }

  // ---------------------------------------------------------------------
  // Lookup
  // ---------------------------------------------------------------------

  /** The first registry entry whose callback is `token`. */
  function FirstCategory(cats: Categories, token: string): Option<(string, Node)> {
    if cats == [] then None
    else if cats[0].1.callback == token then Some(cats[0])
    else FirstCategory(cats[1..], token)
  }

  /** The first subcategory whose callback is `token`. */
  function FirstSub(subs: seq<(string, Sub)>, token: string): Option<(string, Sub)> {
    if subs == [] then None
    else if subs[0].1.callback == token then Some(subs[0])
    else FirstSub(subs[1..], token)
  }

  /** The first subcategory, over the containers in registry order, whose
      callback is `token`: its key, itself and its container's key. Direct
      categories are skipped. */
  function FirstProduct(cats: Categories, token: string): Option<(string, Sub, string)> {
    if cats == [] then None
    else if cats[0].1.Container? && FirstSub(cats[0].1.subcategories, token).Some? then
      var found := FirstSub(cats[0].1.subcategories, token).value;
      Some((found.0, found.1, cats[0].0))
    else FirstProduct(cats[1..], token)
  }

  /** The registry entry with key `key` (`config.CATEGORIES[key]`). */
  function ByKey(cats: Categories, key: string): Option<Node> {
    if cats == [] then None
    else if cats[0].0 == key then Some(cats[0].1)
    else ByKey(cats[1..], key)
  }

  /** `FirstCategory` is the first match: nothing is found exactly when no
      entry carries the token, and otherwise the entry found is the one at
      the lowest index carrying it. */
  lemma {:induction false} FirstCategoryIsFirst(cats: Categories, token: string)
    ensures FirstCategory(cats, token).None? <==> forall i :: 0 <= i < |cats| ==> cats[i].1.callback != token
    ensures FirstCategory(cats, token).Some? ==>
              exists i :: 0 <= i < |cats| && cats[i] == FirstCategory(cats, token).value
                && cats[i].1.callback == token
                && forall j :: 0 <= j < i ==> cats[j].1.callback != token
  {
    if cats != [] && cats[0].1.callback != token {
      FirstCategoryIsFirst(cats[1..], token);
      if FirstCategory(cats, token).Some? {
        var i :| 0 <= i < |cats| - 1 && cats[1..][i] == FirstCategory(cats, token).value
                 && cats[1..][i].1.callback == token
                 && forall j :: 0 <= j < i ==> cats[1..][j].1.callback != token;
        assert cats[i + 1] == cats[1..][i];
        forall j | 0 <= j < i + 1 ensures cats[j].1.callback != token {
          if j > 0 { assert cats[j] == cats[1..][j - 1]; }
        }
      } else {
        forall i | 0 <= i < |cats| ensures cats[i].1.callback != token {
          if i > 0 { assert cats[i] == cats[1..][i - 1]; }
        }
      }
    } else if cats != [] {
      assert cats[0] == FirstCategory(cats, token).value;
    }
  }

  /** `FirstSub` is the first match: nothing is found exactly when no
      subcategory carries the token, and otherwise the subcategory found is
      the one at the lowest index carrying it (the inner `break`). */
  lemma {:induction false} FirstSubFound(subs: seq<(string, Sub)>, token: string)
    ensures FirstSub(subs, token).None? <==> forall j :: 0 <= j < |subs| ==> subs[j].1.callback != token
    ensures FirstSub(subs, token).Some? ==>
              exists j :: 0 <= j < |subs| && subs[j] == FirstSub(subs, token).value
                && subs[j].1.callback == token
                && forall k :: 0 <= k < j ==> subs[k].1.callback != token
  {
    if subs != [] && subs[0].1.callback != token {
      FirstSubFound(subs[1..], token);
      forall j | 0 < j < |subs| ensures subs[j] == subs[1..][j - 1] { }
      if FirstSub(subs, token).Some? {
        var j :| 0 <= j < |subs| - 1 && subs[1..][j] == FirstSub(subs, token).value
                 && subs[1..][j].1.callback == token
                 && forall k :: 0 <= k < j ==> subs[1..][k].1.callback != token;
        assert subs[j + 1] == subs[1..][j];
        forall k | 0 <= k < j + 1 ensures subs[k].1.callback != token {
          if k > 0 { assert subs[k] == subs[1..][k - 1]; }
        }
      }
    } else if subs != [] {
      assert subs[0] == FirstSub(subs, token).value;
    }
  }

  /** A product is found exactly when some container has a subcategory
      carrying the token. What is found is the first match overall: no
      container before its parent has a matching subcategory (the outer
      `break`), and within the parent it is `FirstSub`'s match. */
  lemma {:induction false} FirstProductFound(cats: Categories, token: string)
    ensures FirstProduct(cats, token).None? <==>
              forall i, j :: 0 <= i < |cats| && cats[i].1.Container? && 0 <= j < |cats[i].1.subcategories| ==>
                cats[i].1.subcategories[j].1.callback != token
    ensures FirstProduct(cats, token).Some? ==>
              exists i :: 0 <= i < |cats| && cats[i].1.Container? && cats[i].0 == FirstProduct(cats, token).value.2
                && FirstSub(cats[i].1.subcategories, token)
                     == Some((FirstProduct(cats, token).value.0, FirstProduct(cats, token).value.1))
                && FirstProduct(cats, token).value.1.callback == token
                && forall i', j :: 0 <= i' < i && cats[i'].1.Container? && 0 <= j < |cats[i'].1.subcategories| ==>
                     cats[i'].1.subcategories[j].1.callback != token
  {
    if cats != [] {
      FirstProductFound(cats[1..], token);
      if cats[0].1.Container? {
        FirstSubFound(cats[0].1.subcategories, token);
      }
      forall i | 0 < i < |cats| ensures cats[i] == cats[1..][i - 1] { }
      if FirstProduct(cats, token).Some? && !(cats[0].1.Container? && FirstSub(cats[0].1.subcategories, token).Some?) {
        var v := FirstProduct(cats, token).value;
        var i :| 0 <= i < |cats| - 1 && cats[1..][i].1.Container? && cats[1..][i].0 == v.2
                 && FirstSub(cats[1..][i].1.subcategories, token) == Some((v.0, v.1))
                 && v.1.callback == token
                 && forall i', j :: 0 <= i' < i && cats[1..][i'].1.Container? && 0 <= j < |cats[1..][i'].1.subcategories| ==>
                      cats[1..][i'].1.subcategories[j].1.callback != token;
        assert cats[i + 1] == cats[1..][i];
        forall i', j | 0 <= i' < i + 1 && cats[i'].1.Container? && 0 <= j < |cats[i'].1.subcategories|
          ensures cats[i'].1.subcategories[j].1.callback != token
        {
          if i' > 0 { assert cats[i'] == cats[1..][i' - 1]; }
        }
      } else if FirstProduct(cats, token).Some? {
        var found := FirstSub(cats[0].1.subcategories, token).value;
        assert FirstProduct(cats, token).value == (found.0, found.1, cats[0].0);
      }
    }
  }

  /** A key is in the registry exactly when `ByKey` finds it; with distinct
      keys, `ByKey` of an entry's key is that entry's node. */
  lemma {:induction false} ByKeyFound(cats: Categories, key: string)
    ensures ByKey(cats, key).Some? <==> key in KeysOf(cats)
    ensures KeysDistinct(cats) ==> forall i :: 0 <= i < |cats| && cats[i].0 == key ==> ByKey(cats, key) == Some(cats[i].1)
  {
    if cats != [] {
      ByKeyFound(cats[1..], key);
      forall i | 0 < i < |cats| ensures cats[i] == cats[1..][i - 1] { }
      if cats[0].0 != key {
        assert KeysOf(cats) == {cats[0].0} + KeysOf(cats[1..]);
      }
    }
  }

  /** The category loop of `show_category_menu`, with its `break`. */
  method FindCategory(cats: Categories, token: string) returns (found: Option<(string, Node)>)
    ensures found == FirstCategory(cats, token)
  {
    found := None;
    var i := 0;
    while i < |cats|
      invariant 0 <= i <= |cats|
      invariant FirstCategory(cats[i..], token) == FirstCategory(cats, token)
    {
      assert cats[i..][1..] == cats[i + 1..];
      var (key, category) := cats[i];
      if category.callback == token {
        found := Some((key, category));
        break;
      }
      i := i + 1;
    }
    if found == None {
      assert cats[i..] == [];
    }
  }

  /** The nested loops of `show_product_category`: the inner `break` ends
      the scan of one container, the outer one stops once something is found. */
  method FindProduct(cats: Categories, token: string) returns (found: Option<(string, Sub, string)>)
    ensures found == FirstProduct(cats, token)
  {
    found := None;
    var i := 0;
    while i < |cats|
      invariant 0 <= i <= |cats|
      invariant found == None
      invariant FirstProduct(cats[i..], token) == FirstProduct(cats, token)
    {
      assert cats[i..][1..] == cats[i + 1..];
      var (catKey, category) := cats[i];
      if category.Container? {
        var sub := FindSub(category.subcategories, token);
        if sub.Some? {
          found := Some((sub.value.0, sub.value.1, catKey));
        }
      }
      if found.Some? {
        return;
      }
      i := i + 1;
    }
  }

  /** The inner loop of `show_product_category`. */
  method FindSub(subs: seq<(string, Sub)>, token: string) returns (found: Option<(string, Sub)>)
    ensures found == FirstSub(subs, token)
  {
    found := None;
    var j := 0;
    while j < |subs|
      invariant 0 <= j <= |subs|
      invariant FirstSub(subs[j..], token) == FirstSub(subs, token)
    {
      assert subs[j..][1..] == subs[j + 1..];
      var (subKey, sub) := subs[j];
      if sub.callback == token {
        found := Some((subKey, sub));
        break;
      }
      j := j + 1;
    }
    if found == None {
      assert subs[j..] == [];
    }
  }

  // ---------------------------------------------------------------------
  // Handlers
  // ---------------------------------------------------------------------

  /** The handlers, over the shared cache and the module-level
      `user_last_category`. `floatFormat` stands for Python's float
      formatting inside `format_price`. */
  class Router {
    const data: DataCache
    const floatFormat: string -> Option<string>
    var lastCategory: map<int, string>

    /** The cache is consistent, and every remembered key is a top-level key
        of the registry. */
    ghost predicate Valid()
      reads this, data
    {
      data.Valid() && forall u :: u in lastCategory ==> lastCategory[u] in KeysOf(data.categories)
    }

    constructor (data: DataCache, floatFormat: string -> Option<string>)
      requires data.Valid()
      ensures Valid()
      ensures this.data == data && this.floatFormat == floatFormat
      ensures lastCategory == map[]
    {
      this.data := data;
      this.floatFormat := floatFormat;
      lastCategory := map[];
    }

    /** `show_category_menu`. An unknown token leaves the memory as it was;
        a known one is remembered for the user, then a direct category shows
        its product list and a container its subcategory menu. */
    method ShowCategoryMenu(user: int, token: string) returns (screen: Screen)
      requires Valid()
      modifies this`lastCategory
      ensures Valid()
      ensures FirstCategory(data.categories, token).None? ==>
                lastCategory == old(lastCategory) && screen == Screen("❌ Категория не найдена", MainMenuKeyboard)
      ensures FirstCategory(data.categories, token).Some? ==>
                var (key, n) := FirstCategory(data.categories, token).value;
                && lastCategory == old(lastCategory)[user := key]
                && (n.Direct? ==> screen == Screen(ListText(data.GetCategory(key), n.name, data.categories, floatFormat), BackToMenuKeyboard))
                && (n.Container? ==> screen == SubcategoryScreen(key, n))
    {
      var found := FindCategory(data.categories, token);
      if found.None? {
        return Screen("❌ Категория не найдена", MainMenuKeyboard);
      }
      var (key, category) := found.value;
      FirstCategoryIsFirst(data.categories, token);
      lastCategory := lastCategory[user := key];
      if category.Direct? {
        var products := data.GetCategory(key);
        var text := ProductListText(products, category.name, data.categories, floatFormat);
        screen := Screen(text, BackToMenuKeyboard);
      } else {
        screen := SubcategoryScreen(key, category);
      }
    }

    /** `show_product_category`. An unknown token leaves the memory as it
        was; a known one remembers the container of the subcategory and shows
        the subcategory's product list. */
    method ShowProductCategory(user: int, token: string) returns (screen: Screen)
      requires Valid()
      modifies this`lastCategory
      ensures Valid()
      ensures FirstProduct(data.categories, token).None? ==>
                lastCategory == old(lastCategory) && screen == Screen("❌ Товар не найден", MainMenuKeyboard)
      ensures FirstProduct(data.categories, token).Some? ==>
                var (subKey, sub, parent) := FirstProduct(data.categories, token).value;
                && lastCategory == old(lastCategory)[user := parent]
                && screen == Screen(ListText(data.GetCategory(subKey), sub.name, data.categories, floatFormat), BackKeyboard)
    {
      var found := FindProduct(data.categories, token);
      if found.None? {
        return Screen("❌ Товар не найден", MainMenuKeyboard);
      }
      var (subKey, sub, parent) := found.value;
      FirstProductFound(data.categories, token);
      lastCategory := lastCategory[user := parent];
      var products := data.GetCategory(subKey);
      var text := ProductListText(products, sub.name, data.categories, floatFormat);
      screen := Screen(text, BackKeyboard);
    }

    /** `back_to_subcategories`: the remembered key is used only when it is
        non-empty (an empty string is false in Python) and still in the
        registry; otherwise the main menu is shown. Since every remembered key
        is a registry key, any remembered non-empty key opens its menu. */
    method BackToSubcategories(user: int) returns (screen: Screen)
      requires Valid()
      ensures var cats := data.categories;
              if user in lastCategory && lastCategory[user] != "" && ByKey(cats, lastCategory[user]).Some?
              then screen == SubcategoryScreen(lastCategory[user], ByKey(cats, lastCategory[user]).value)
              else screen == MainMenuScreen()
      ensures user in lastCategory && lastCategory[user] != "" ==> screen.markup == SubcategoryKeyboard(lastCategory[user])
      ensures user !in lastCategory ==> screen == MainMenuScreen()
    {
      var last: Option<string> := if user in lastCategory then Some(lastCategory[user]) else None;
      if last.Some? && last.value != "" {
        ByKeyFound(data.categories, last.value);
      }
      if last.Some? && last.value != "" && ByKey(data.categories, last.value).Some? {
        var category := ByKey(data.categories, last.value).value;
        screen := SubcategoryScreen(last.value, category);
      } else {
        screen := MainMenuScreen();
      }
    }

    /** `refresh_data`. A user who is not an admin gets an alert and the
        cache is not touched. For an admin, a connected reader refreshes the
        whole cache; otherwise the cache is left as it was and a connection
        error is shown. Returns the text of the acknowledgement and the
        screen shown, if any. */
    method RefreshData(user: int, isAdmin: int -> bool, reader: SheetsReader?, fetch: string -> FetchResult)
      returns (answer: string, screen: Option<Screen>)
      requires Valid()
      modifies data`cache
      ensures Valid()
      ensures !isAdmin(user) ==> answer == "❌ Нет прав" && screen == None && data.cache == old(data.cache)
      ensures isAdmin(user) && reader != null && reader.IsConnected() ==>
                && answer == "🔄 Обновление..."
                && data.cache == Overwritten(old(data.cache), Leaves(data.categories), FetchedFor(fetch))
                && screen == Some(Screen("✅ Данные обновлены!", MainMenuKeyboard))
      ensures isAdmin(user) && (reader == null || !reader.IsConnected()) ==>
                && answer == "🔄 Обновление..."
                && data.cache == old(data.cache)
                && screen == Some(Screen("❌ Ошибка подключения", MainMenuKeyboard))
    {
      if !isAdmin(user) {
        return "❌ Нет прав", None;
      }
      answer := "🔄 Обновление...";
      if reader != null && reader.IsConnected() {
        var _ := data.UpdateAll(reader, fetch);
        screen := Some(Screen("✅ Данные обновлены!", MainMenuKeyboard));
      } else {
        screen := Some(Screen("❌ Ошибка подключения", MainMenuKeyboard));
      }
    }
  }

  // ---------------------------------------------------------------------
  // Registration
  // ---------------------------------------------------------------------

  datatype Handler = MainMenu | BackToCategories | BackToSubcategories | CategoryMenu | ProductCategory | Refresh

  /** One token per registry entry, in order. */
  function CategoryTokens(cats: Categories): (r: seq<string>)
    ensures |r| == |cats|
    ensures forall i :: 0 <= i < |cats| ==> r[i] == cats[i].1.callback
  {
    seq(|cats|, i requires 0 <= i < |cats| => cats[i].1.callback)
  }

  /** The tokens of the subcategories of one container, in order. */
  function SubTokens(subs: seq<(string, Sub)>): (r: seq<string>)
    ensures |r| == |subs|
    ensures forall j :: 0 <= j < |subs| ==> r[j] == subs[j].1.callback
  {
    seq(|subs|, j requires 0 <= j < |subs| => subs[j].1.callback)
  }

  /** The subcategory tokens of the containers, container by container. */
  function ProductTokens(cats: Categories): seq<string> {
    if cats == [] then []
    else (if cats[0].1.Container? then SubTokens(cats[0].1.subcategories) else []) + ProductTokens(cats[1..])
  }

  /** Every token paired with the handler it is registered for. */
  function Tagged(h: Handler, tokens: seq<string>): (r: seq<(Handler, string)>)
    ensures |r| == |tokens|
    ensures forall i :: 0 <= i < |tokens| ==> r[i] == (h, tokens[i])
  {
    seq(|tokens|, i requires 0 <= i < |tokens| => (h, tokens[i]))
  }

  /** The three fixed navigation registrations that come first. */
  function Navigation(): seq<(Handler, string)> {
    [(MainMenu, "main_menu"), (BackToCategories, "back_to_categories"), (BackToSubcategories, "back_to_subcategories")]
  }

  /** Every registered category token leads `show_category_menu` to a
      category, and every token that leads to a category is registered. */
  lemma CategoryTokensRoute(cats: Categories, token: string)
    ensures token in CategoryTokens(cats) <==> FirstCategory(cats, token).Some?
  {
    FirstCategoryIsFirst(cats, token);
    if FirstCategory(cats, token).Some? {
      var i :| 0 <= i < |cats| && cats[i] == FirstCategory(cats, token).value && cats[i].1.callback == token
               && forall j :: 0 <= j < i ==> cats[j].1.callback != token;
      assert CategoryTokens(cats)[i] == token;
    }
  }

  /** A token is registered for `show_product_category` exactly when that
      handler finds a product for it. */
  lemma {:induction false} ProductTokensRoute(cats: Categories, token: string)
    ensures token in ProductTokens(cats) <==> FirstProduct(cats, token).Some?
  {
    if cats != [] {
      ProductTokensRoute(cats[1..], token);
      if cats[0].1.Container? {
        var subs := cats[0].1.subcategories;
        FirstSubFound(subs, token);
        assert token in SubTokens(subs) <==> exists j :: 0 <= j < |subs| && subs[j].1.callback == token by {
          if token in SubTokens(subs) {
            var j :| 0 <= j < |subs| && SubTokens(subs)[j] == token;
          }
        }
      }
    }
  }

  /** The token-collection loop of `register_callbacks`. */
  method CollectTokens(cats: Categories) returns (categoryTokens: seq<string>, productTokens: seq<string>)
    ensures categoryTokens == CategoryTokens(cats)
    ensures productTokens == ProductTokens(cats)
  {
    categoryTokens := [];
    productTokens := [];
    var i := 0;
    while i < |cats|
      invariant 0 <= i <= |cats|
      invariant categoryTokens == CategoryTokens(cats[..i])
      invariant productTokens + ProductTokens(cats[i..]) == ProductTokens(cats)
    {
      var category := cats[i].1;
      var subTokens := [];
      if category.Container? {
        subTokens := CollectSubTokens(category.subcategories);
      }
      CollectStep(cats, i, categoryTokens, productTokens, subTokens);
      categoryTokens := categoryTokens + [category.callback];
      productTokens := productTokens + subTokens;
      i := i + 1;
    }
    assert cats[..i] == cats;
  }

  /** One pass of the collection loop keeps both of its invariants. */
  lemma CollectStep(cats: Categories, i: nat, categoryTokens: seq<string>, productTokens: seq<string>,
                    subTokens: seq<string>)
    requires i < |cats|
    requires categoryTokens == CategoryTokens(cats[..i])
    requires productTokens + ProductTokens(cats[i..]) == ProductTokens(cats)
    requires subTokens == if cats[i].1.Container? then SubTokens(cats[i].1.subcategories) else []
    ensures categoryTokens + [cats[i].1.callback] == CategoryTokens(cats[..i + 1])
    ensures productTokens + subTokens + ProductTokens(cats[i + 1..]) == ProductTokens(cats)
  {
    CategoryTokensStep(cats, i);
    ProductTokensStep(cats, i);
    Associative(productTokens, subTokens, ProductTokens(cats[i + 1..]));
  }

  lemma CategoryTokensStep(cats: Categories, i: nat)
    requires i < |cats|
    ensures CategoryTokens(cats[..i + 1]) == CategoryTokens(cats[..i]) + [cats[i].1.callback]
  {
    var a, b := CategoryTokens(cats[..i + 1]), CategoryTokens(cats[..i]) + [cats[i].1.callback];
    assert |a| == |b|;
    forall k | 0 <= k < |a| ensures a[k] == b[k] {
    }
  }

  lemma ProductTokensStep(cats: Categories, i: nat)
    requires i < |cats|
    ensures ProductTokens(cats[i..])
         == (if cats[i].1.Container? then SubTokens(cats[i].1.subcategories) else []) + ProductTokens(cats[i + 1..])
  {
    assert cats[i..][0] == cats[i];
    assert cats[i..][1..] == cats[i + 1..];
  }

  /** The inner loop over one container's subcategories. */
  method CollectSubTokens(subs: seq<(string, Sub)>) returns (tokens: seq<string>)
    ensures tokens == SubTokens(subs)
  {
    tokens := [];
    var j := 0;
    while j < |subs|
      invariant 0 <= j <= |subs|
      invariant tokens == SubTokens(subs[..j])
    {
      tokens := tokens + [subs[j].1.callback];
      j := j + 1;
    }
    assert subs[..j] == subs;
  }

  /** `register_callbacks`: the navigation handlers, one category handler
      per registry entry, one product handler per subcategory of a
      container, and the refresh handler last, in that order. */
  method RegisterCallbacks(cats: Categories) returns (registrations: seq<(Handler, string)>)
    ensures registrations == Navigation() + Tagged(CategoryMenu, CategoryTokens(cats))
                               + Tagged(ProductCategory, ProductTokens(cats)) + [(Refresh, "refresh_data")]
  {
    registrations := Navigation();
    var categoryTokens, productTokens := CollectTokens(cats);
    registrations := Register(registrations, CategoryMenu, categoryTokens);
    registrations := Register(registrations, ProductCategory, productTokens);
    registrations := registrations + [(Refresh, "refresh_data")];
  }

  /** One registration loop: each token gets the handler, in order. */
  method Register(start: seq<(Handler, string)>, h: Handler, tokens: seq<string>)
    returns (registrations: seq<(Handler, string)>)
    ensures registrations == start + Tagged(h, tokens)
  {
    registrations := start;
    var i := 0;
    while i < |tokens|
      invariant 0 <= i <= |tokens|
      invariant registrations == start + Tagged(h, tokens[..i])
    {
      registrations := registrations + [(h, tokens[i])];
      i := i + 1;
    }
    assert tokens[..i] == tokens;
  }
}
