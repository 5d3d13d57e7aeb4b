/** The message formatters of `bot/utils/formatters.py`: the product list
    with its section/counter logic, the price formatter and the statistics
    message. */
module Formatters {
  import opened Options
  import opened Text
  import opened Registry
  import opened Sheets

  // ---------------------------------------------------------------------
  // format_price
  // ---------------------------------------------------------------------

  /** The cleaning step: spaces, rouble and dollar signs removed, then stripped. */
  function CleanPrice(price: string): string {
    Strip(Remove(Remove(Remove(price, ' '), '₽'), '$'))
  }

  /** What Python's `int()` accepts after the sign: ASCII digits, with single
      underscores allowed between two digits. */
  predicate IntBody(t: string) {
    && |t| >= 1 && IsDigit(t[0]) && IsDigit(t[|t| - 1])
    && (forall i :: 0 <= i < |t| ==> IsDigit(t[i]) || t[i] == '_')
    && (forall i :: 0 <= i < |t| - 1 ==> t[i] == '_' ==> t[i + 1] != '_')
  }

  /** Dropping the underscores of an `int()` body leaves only digits. */
  lemma {:induction false} IntBodyDigits(t: string)
    requires forall i :: 0 <= i < |t| ==> IsDigit(t[i]) || t[i] == '_'
    ensures AllDigits(Remove(t, '_'))
  {
    if t != [] {
      var init := t[..|t| - 1];
      assert forall i :: 0 <= i < |init| ==> init[i] == t[i];
      IntBodyDigits(init);
    }
  }

  /** The value of an `int()` body: its digits, underscores dropped. */
  function BodyValue(t: string): nat
    requires IntBody(t)
  {
    IntBodyDigits(t);
    DigitsValue(Remove(t, '_'))
  }

  /** The default limit on the number of digits that CPython's `int()`
      converts from a decimal string (`sys.get_int_max_str_digits()`, from
      3.11 and in the 2022 security releases of 3.7 to 3.10); the sign and
      the underscores do not count. */
  const MaxStrDigits: nat := 4300

  /** An `int()` body within the digit limit. */
  predicate Convertible(t: string) {
    IntBody(t) && |Remove(t, '_')| <= MaxStrDigits
  }

  /** Python's `int(s)` on an already stripped string: `None` stands for the
      `ValueError` it raises, on a malformed string or on one with more
      digits than the limit. */
  function ParseInt(s: string): Option<int> {
    if |s| >= 1 && (s[0] == '+' || s[0] == '-') then
      if Convertible(s[1..]) then Some(if s[0] == '-' then 0 - BodyValue(s[1..]) else BodyValue(s[1..]) as int) else None
    else if Convertible(s) then Some(BodyValue(s))
    else None
  }

  /** What `int()` returns has no more digits than the limit. */
  lemma ParseIntBound(s: string)
    requires ParseInt(s).Some?
    ensures |Digits(if ParseInt(s).value < 0 then -ParseInt(s).value else ParseInt(s).value)| <= MaxStrDigits
  {
    var t := if |s| >= 1 && (s[0] == '+' || s[0] == '-') then s[1..] else s;
    IntBodyDigits(t);
    DigitsShorter(Remove(t, '_'));
  }

  /** `f"{n:,}".replace(',', ' ')` for the digits of a natural number: groups
      of three from the right, separated by single spaces. */
  function Group(s: string): string
    decreases |s|
  {
    if |s| <= 3 then s else Group(s[..|s| - 3]) + " " + s[|s| - 3..]
  }

  /** The grouped numeral of an integer, minus sign in front. */
  function IntGrouped(n: int): string {
    if n < 0 then "-" + Group(Digits(-n)) else Group(Digits(n))
  }

  /** `format_price`. The float branch (a cleaned price containing `'.'`) is
      the parameter `floatFormat`, whose `None` stands for the `ValueError` of
      `float()`; every failure returns the raw input. */
  function FormatPrice(price: string, floatFormat: string -> Option<string>): (r: string)
    ensures r == price || (|r| >= 2 && r[|r| - 2..] == " ₽")
  {
    var clean := CleanPrice(price);
    if '.' in clean then
      match floatFormat(clean)
      case None => price
      case Some(f) => f + " ₽"
    else
      match ParseInt(clean)
      case None => price
      case Some(n) => IntGrouped(n) + " ₽"
  }

  /** Dropping the separators of a grouped numeral gives the numeral back. */
  lemma {:induction false} GroupUngroup(s: string)
    requires AllDigits(s)
    ensures Remove(Group(s), ' ') == s
    decreases |s|
  {
    if |s| <= 3 {
      RemoveAbsent(s, ' ');
    } else {
      var head := s[..|s| - 3];
      var tail := s[|s| - 3..];
      var g := Group(head);
      assert Group(s) == g + " " + tail;
      RemoveConcat(g + " ", tail, ' ');
      RemoveConcat(g, " ", ' ');
      RemoveSpace();
      GroupUngroup(head);
      RemoveAbsent(tail, ' ');
      assert head + tail == s;
    }
  }

  lemma RemoveSpace()
    ensures Remove(" ", ' ') == []
  {
    assert " "[..0] == [];
  }

  /** A grouped numeral is made of digits and spaces, and starts with the
      numeral's first digit. */
  lemma {:induction false} GroupShape(s: string)
    requires AllDigits(s)
    ensures |s| >= 1 ==> |Group(s)| >= 1 && Group(s)[0] == s[0]
    ensures forall i :: 0 <= i < |Group(s)| ==> IsDigit(Group(s)[i]) || Group(s)[i] == ' '
    decreases |s|
  {
    if |s| > 3 {
      var head := s[..|s| - 3];
      var tail := s[|s| - 3..];
      assert AllDigits(head) && AllDigits(tail);
      GroupShape(head);
      var gh := Group(head);
      var g := gh + " " + tail;
      assert g == Group(s);
      forall i | 0 <= i < |g| ensures IsDigit(g[i]) || g[i] == ' ' {
        if i < |gh| {
          assert g[i] == gh[i];
        } else if i > |gh| {
          assert g[i] == tail[i - |gh| - 1];
        }
      }
    }
  }

  /** A cleaned price made of digits alone is formatted as its value grouped
      by thousands, followed by the rouble sign; past the digit limit `int()`
      raises and the raw price comes back. */
  lemma FormatPriceDigits(price: string, floatFormat: string -> Option<string>)
    requires |CleanPrice(price)| >= 1 && AllDigits(CleanPrice(price))
    ensures FormatPrice(price, floatFormat)
         == if |CleanPrice(price)| <= MaxStrDigits then IntGrouped(DigitsValue(CleanPrice(price))) + " ₽" else price
  {
    ParseDigits(CleanPrice(price));
  }

  /** A digit string has no decimal point, and `int()` reads it as its value
      unless it has more digits than the limit. */
  lemma ParseDigits(clean: string)
    requires |clean| >= 1 && AllDigits(clean)
    ensures '.' !in clean
    ensures ParseInt(clean) == if |clean| <= MaxStrDigits then Some(DigitsValue(clean) as int) else None
  {
    forall i | 0 <= i < |clean| ensures clean[i] != '.' && clean[i] != '_' {
      assert IsDigit(clean[i]);
    }
    RemoveAbsent(clean, '_');
    ParseUnsigned(clean);
  }

  /** Without superfluous leading zeros, the digits themselves are grouped
      (within the digit limit). */
  lemma FormatPriceCanonical(price: string, floatFormat: string -> Option<string>)
    requires |CleanPrice(price)| >= 1 && AllDigits(CleanPrice(price))
    requires CleanPrice(price)[0] == '0' ==> |CleanPrice(price)| == 1
    ensures FormatPrice(price, floatFormat)
         == if |CleanPrice(price)| <= MaxStrDigits then Group(CleanPrice(price)) + " ₽" else price
  {
    FormatPriceDigits(price, floatFormat);
    ValueRoundTrip(CleanPrice(price));
  }

  /** A price that is neither a float nor an integer comes back unchanged: the
      raw input, not the cleaned string. */
  lemma FormatPriceRaw(price: string, floatFormat: string -> Option<string>)
    requires ('.' in CleanPrice(price) && floatFormat(CleanPrice(price)).None?)
          || ('.' !in CleanPrice(price) && ParseInt(CleanPrice(price)).None?)
    ensures FormatPrice(price, floatFormat) == price
  {
  }

  /** A numeral is an `int()` body with its own value, convertible exactly
      when it is within the digit limit. */
  lemma BodyOfDigits(m: nat)
    ensures IntBody(Digits(m)) && BodyValue(Digits(m)) == m
    ensures Convertible(Digits(m)) <==> |Digits(m)| <= MaxStrDigits
  {
    var d := Digits(m);
    assert forall i :: 0 <= i < |d| ==> IsDigit(d[i]);
    RemoveAbsent(d, '_');
    DigitsRoundTrip(m);
  }

  /** `str(n)` parses back to `n`, within the digit limit. */
  lemma ParseIntToString(n: int)
    ensures ParseInt(IntToString(n)) == if |Digits(if n < 0 then -n else n)| <= MaxStrDigits then Some(n) else None
  {
    var m: nat := if n < 0 then -n else n;
    BodyOfDigits(m);
    if n < 0 {
      ParseMinus(Digits(m));
    } else {
      ParseUnsigned(Digits(m));
    }
  }

  /** `int("-" + t)` for a body `t`. */
  lemma ParseMinus(t: string)
    ensures ParseInt("-" + t) == if Convertible(t) then Some(0 - BodyValue(t)) else None
  {
    assert ("-" + t)[0] == '-' && ("-" + t)[1..] == t;
  }

  /** `int(t)` for a string that starts with a digit. */
  lemma ParseUnsigned(t: string)
    requires |t| >= 1 && IsDigit(t[0])
    ensures ParseInt(t) == if Convertible(t) then Some(BodyValue(t) as int) else None
  {
  }

  /** `str(n)` is a minus sign or a digit at every position. */
  lemma IntStringChars(n: int)
    ensures forall i :: 0 <= i < |IntToString(n)| ==> IsDigit(IntToString(n)[i]) || IntToString(n)[i] == '-'
  {
    if n < 0 {
      var d := Digits(-n);
      assert forall i :: 1 <= i < |IntToString(n)| ==> IntToString(n)[i] == d[i - 1];
    }
  }

  lemma RemoveSpaceOfSuffix()
    ensures Remove(" ₽", ' ') == "₽"
  {
    assert " ₽"[..1] == " ";
    assert " "[..0] == [];
  }

  /** Removing the spaces of a formatted integer price leaves `str(n)` and the sign. */
  lemma UngroupFormatted(n: int)
    ensures Remove(IntGrouped(n) + " ₽", ' ') == IntToString(n) + "₽"
  {
    var m: nat := if n < 0 then -n else n;
    var d := Digits(m);
    var sign := if n < 0 then "-" else "";
    var g := Group(d);
    assert IntGrouped(n) == sign + g;
    assert IntToString(n) == sign + d;
    RemoveConcat(sign + g, " ₽", ' ');
    RemoveConcat(sign, g, ' ');
    RemoveSpaceOfSuffix();
    RemoveAbsent(sign, ' ');
    GroupUngroup(d);
  }

  /** The cleaning step maps a formatted integer price back to `str(n)`. */
  lemma CleanFormatted(n: int)
    ensures CleanPrice(IntGrouped(n) + " ₽") == IntToString(n)
  {
    var t := IntToString(n);
    UngroupFormatted(n);
    IntStringChars(n);
    RemoveConcat(t, "₽", '₽');
    RemoveAbsent(t, '₽');
    assert Remove("₽", '₽') == [] by {
      assert "₽"[..0] == [];
    }
    assert t + [] == t;
    RemoveAbsent(t, '$');
    StripNoSpace(t);
  }

  /** The integer branch is idempotent: formatting an already formatted
      integer price gives the same text again. */
  lemma FormatPriceIdempotent(price: string, floatFormat: string -> Option<string>)
    requires '.' !in CleanPrice(price) && ParseInt(CleanPrice(price)).Some?
    ensures FormatPrice(FormatPrice(price, floatFormat), floatFormat) == FormatPrice(price, floatFormat)
  {
    var n := ParseInt(CleanPrice(price)).value;
    assert FormatPrice(price, floatFormat) == IntGrouped(n) + " ₽";
    ParseIntBound(CleanPrice(price));
    CleanFormatted(n);
    IntStringChars(n);
    assert '.' !in IntToString(n);
    ParseIntToString(n);
  }

  // ---------------------------------------------------------------------
  // format_products_list
  // ---------------------------------------------------------------------

  /** The emoji of the first subcategory named `category`, else `emoji`. */
  function FirstSubEmoji(subs: seq<(string, Sub)>, category: string, emoji: string): string
    decreases |subs|
  {
    if subs == [] then emoji
    else if subs[0].1.name == category then subs[0].1.emoji
    else FirstSubEmoji(subs[1..], category, emoji)
  }

  /** The emoji search of `format_products_list`, as written: a direct
      category with the name ends the search; a container's first matching
      subcategory sets the emoji but the search goes on, so a later match
      overrides it. */
  function ScanEmoji(cats: Categories, category: string, emoji: string): string
    decreases |cats|
  {
    if cats == [] then emoji
    else
      var node := cats[0].1;
      if node.Direct? && node.name == category then node.emoji
      else if node.Container? then ScanEmoji(cats[1..], category, FirstSubEmoji(node.subcategories, category, emoji))
      else ScanEmoji(cats[1..], category, emoji)
  }

  predicate DirectNamed(cats: Categories, i: int, category: string)
    requires 0 <= i < |cats|
  {
    cats[i].1.Direct? && cats[i].1.name == category
  }

  predicate HasSubNamed(cats: Categories, i: int, category: string)
    requires 0 <= i < |cats|
  {
    cats[i].1.Container? && exists j :: 0 <= j < |cats[i].1.subcategories| && cats[i].1.subcategories[j].1.name == category
  }

  /** A container with a matching subcategory yields the emoji of the first
      one, whatever the current emoji was. */
  lemma {:induction false} FirstSubEmojiMatch(subs: seq<(string, Sub)>, category: string, e1: string, e2: string)
    requires exists j :: 0 <= j < |subs| && subs[j].1.name == category
    ensures FirstSubEmoji(subs, category, e1) == FirstSubEmoji(subs, category, e2)
    decreases |subs|
  {
    if subs[0].1.name != category {
      var j :| 0 <= j < |subs| && subs[j].1.name == category;
      assert subs[1..][j - 1] == subs[j];
      FirstSubEmojiMatch(subs[1..], category, e1, e2);
    }
  }

  lemma {:induction false} FirstSubEmojiMiss(subs: seq<(string, Sub)>, category: string, e: string)
    requires forall j :: 0 <= j < |subs| ==> subs[j].1.name != category
    ensures FirstSubEmoji(subs, category, e) == e
    decreases |subs|
  {
    if subs != [] {
      FirstSubEmojiMiss(subs[1..], category, e);
    }
  }

  /** The first direct category with the name wins over everything else. */
  lemma {:induction false} ScanEmojiDirect(cats: Categories, category: string, e: string, d: nat)
    requires d < |cats| && DirectNamed(cats, d, category)
    requires forall i :: 0 <= i < d ==> !DirectNamed(cats, i, category)
    ensures ScanEmoji(cats, category, e) == cats[d].1.emoji
    decreases d
  {
    if d > 0 {
      assert !DirectNamed(cats, 0, category);
      var e' := if cats[0].1.Container? then FirstSubEmoji(cats[0].1.subcategories, category, e) else e;
      forall i | 0 <= i < d - 1 ensures !DirectNamed(cats[1..], i, category) {
        assert cats[1..][i] == cats[i + 1];
        assert !DirectNamed(cats, i + 1, category);
      }
      ScanEmojiDirect(cats[1..], category, e', d - 1);
    }
  }

  /** With no leaf of that name, the default emoji stays. */
  lemma {:induction false} ScanEmojiDefault(cats: Categories, category: string, e: string)
    requires forall i :: 0 <= i < |cats| ==> !DirectNamed(cats, i, category) && !HasSubNamed(cats, i, category)
    ensures ScanEmoji(cats, category, e) == e
    decreases |cats|
  {
    if cats != [] {
      assert !DirectNamed(cats, 0, category) && !HasSubNamed(cats, 0, category);
      if cats[0].1.Container? {
        FirstSubEmojiMiss(cats[0].1.subcategories, category, e);
      }
      forall i | 0 <= i < |cats| - 1 ensures !DirectNamed(cats[1..], i, category) && !HasSubNamed(cats[1..], i, category) {
        assert cats[1..][i] == cats[i + 1];
        assert !DirectNamed(cats, i + 1, category) && !HasSubNamed(cats, i + 1, category);
      }
      ScanEmojiDefault(cats[1..], category, e);
    }
  }

  /** With no direct category of that name, the last container holding a
      matching subcategory decides the emoji. */
  lemma {:induction false} ScanEmojiLastContainer(cats: Categories, category: string, e: string, c: nat)
    requires c < |cats| && HasSubNamed(cats, c, category)
    requires forall i :: 0 <= i < |cats| ==> !DirectNamed(cats, i, category)
    requires forall i :: c < i < |cats| ==> !HasSubNamed(cats, i, category)
    ensures ScanEmoji(cats, category, e) == FirstSubEmoji(cats[c].1.subcategories, category, e)
    decreases |cats|
  {
    assert !DirectNamed(cats, 0, category);
    var e' := if cats[0].1.Container? then FirstSubEmoji(cats[0].1.subcategories, category, e) else e;
    forall i | 0 <= i < |cats| - 1 ensures !DirectNamed(cats[1..], i, category) {
      assert cats[1..][i] == cats[i + 1];
      assert !DirectNamed(cats, i + 1, category);
    }
    if c > 0 {
      forall i | c - 1 < i < |cats| - 1 ensures !HasSubNamed(cats[1..], i, category) {
        assert cats[1..][i] == cats[i + 1];
        assert !HasSubNamed(cats, i + 1, category);
      }
      assert cats[1..][c - 1] == cats[c];
      ScanEmojiLastContainer(cats[1..], category, e', c - 1);
      FirstSubEmojiMatch(cats[c].1.subcategories, category, e', e);
    } else {
      forall i | 0 <= i < |cats| - 1 ensures !HasSubNamed(cats[1..], i, category) {
        assert cats[1..][i] == cats[i + 1];
        assert !HasSubNamed(cats, i + 1, category);
      }
      ScanEmojiDefault(cats[1..], category, e');
    }
  }

  /** The emoji search loop with its two `break`s. */
  method FindEmoji(cats: Categories, category: string) returns (emoji: string)
    ensures emoji == ScanEmoji(cats, category, "📦")
  {
    emoji := "📦";
    var i := 0;
    while i < |cats|
      invariant 0 <= i <= |cats|
      invariant ScanEmoji(cats[i..], category, emoji) == ScanEmoji(cats, category, "📦")
    {
      var node := cats[i].1;
      assert cats[i..][1..] == cats[i + 1..];
      if node.Direct? && node.name == category {
        emoji := node.emoji;
        break;
      } else if node.Container? {
        var subs := node.subcategories;
        var before := emoji;
        var j := 0;
        while j < |subs|
          invariant 0 <= j <= |subs|
          invariant emoji == before
          invariant FirstSubEmoji(subs[j..], category, before) == FirstSubEmoji(subs, category, before)
        {
          assert subs[j..][1..] == subs[j + 1..];
          if subs[j].1.name == category {
            emoji := subs[j].1.emoji;
            break;
          }
          j := j + 1;
        }
      }
      i := i + 1;
    }
  }

  /** A line of the product list: a section header, or a numbered item. */
  datatype Line = Section(model: string) | Item(number: nat, model: string, price: string)

  /** A model of at most ten characters is a section header. */
  predicate IsSection(p: Product) {
    |p.model| <= 10
  }

  /** A long model priced `"0"` is not shown. */
  predicate IsHidden(p: Product) {
    |p.model| > 10 && p.price == "0"
  }

  /** The counter after the products `ps`: reset to 1 by a section header,
      advanced by a shown item. */
  function CountAfter(ps: seq<Product>): nat {
    if ps == [] then 1
    else
      var last := ps[|ps| - 1];
      var c := CountAfter(ps[..|ps| - 1]);
      if IsSection(last) then 1 else if IsHidden(last) then c else c + 1
  }

  /** The lines the loop of `format_products_list` emits for `ps`. */
  function LinesOf(ps: seq<Product>): seq<Line> {
    if ps == [] then []
    else
      var last := ps[|ps| - 1];
      var init := ps[..|ps| - 1];
      LinesOf(init)
        + if IsSection(last) then [Section(last.model)]
          else if IsHidden(last) then []
          else [Item(CountAfter(init), last.model, last.price)]
  }

  /** The products that produce a line, in order. */
  function Shown(ps: seq<Product>): seq<Product> {
    if ps == [] then []
    else
      var last := ps[|ps| - 1];
      Shown(ps[..|ps| - 1]) + if IsHidden(last) then [] else [last]
  }

  /** The text of a section header line. */
  function SectionText(model: string): string {
    "<b>__________  " + model + "  __________</b>\n"
  }

  /** The text of an item line, given its already formatted price. */
  function ItemText(n: nat, model: string, formattedPrice: string): string {
    "<code><b>" + IntToString(n) + ".</b> " + model + "\n   💰 <b>" + formattedPrice + "</b></code>\n\n"
  }

  /** `format_price` with its float branch fixed, as a function on prices. */
  function PriceText(floatFormat: string -> Option<string>): string -> string {
    (p: string) => FormatPrice(p, floatFormat)
  }

  /** The text of a line; `priceText` formats an item's price. */
  function RenderLine(l: Line, priceText: string -> string): string {
    match l
    case Section(model) => SectionText(model)
    case Item(n, model, price) => ItemText(n, model, priceText(price))
  }

  function RenderAll(ls: seq<Line>, priceText: string -> string): string {
    if ls == [] then "" else RenderAll(ls[..|ls| - 1], priceText) + RenderLine(ls[|ls| - 1], priceText)
  }

  function ListHeader(emoji: string, category: string): string {
    "<b>" + emoji + " " + category + "</b>\n"
      + Repeat('_', 35) + "\n"
      + "<i>Вы можете скопировать нужную позицию простым нажатием на текст, а затем отправить её в личные сообщения</i> \n"
      + Repeat('_', 35) + "\n\n"
  }

  /** `format_products_list`: the empty-list message, or the header with the
      category's emoji followed by one rendered line per shown product. */
  method FormatProductsList(products: seq<Product>, category: string, cats: Categories,
                            floatFormat: string -> Option<string>) returns (text: string)
    ensures products == [] ==> text == "❌ Нет данных по категории " + category
    ensures products != [] ==>
              text == ListHeader(ScanEmoji(cats, category, "📦"), category) + RenderAll(LinesOf(products), PriceText(floatFormat))
  {
    if products == [] {
      text := "❌ Нет данных по категории " + category;
    } else {
      text := HeadedList(products, category, cats, floatFormat);
    }
  }

  /** The non-empty case of `format_products_list`: the header with the
      category's emoji, then the lines of the list. */
  method HeadedList(products: seq<Product>, category: string, cats: Categories,
                    floatFormat: string -> Option<string>) returns (text: string)
    ensures text == ListHeader(ScanEmoji(cats, category, "📦"), category) + RenderAll(LinesOf(products), PriceText(floatFormat))
  {
    var emoji := FindEmoji(cats, category);
    text := ListHeader(emoji, category);
    text := AppendLines(text, products, PriceText(floatFormat));
  }

  /** The loop of `format_products_list`: appends the line of every product
      to `start`, numbering items with a counter that a section header resets;
      `priceText` is `format_price`. */
  method AppendLines(start: string, products: seq<Product>, priceText: string -> string)
    returns (text: string)
    ensures text == start + RenderAll(LinesOf(products), priceText)
  {
    text := start;
    var count := 1;
    ghost var done: seq<Line> := [];
    var i := 0;
    while i < |products|
      invariant 0 <= i <= |products|
      invariant count == CountAfter(products[..i])
      invariant done == LinesOf(products[..i])
      invariant text == start + RenderAll(done, priceText)
    {
      LinesStep(products, i);
      var model := products[i].model;
      var price := products[i].price;
      var formattedPrice := priceText(price);
      if |model| > 10 {
        if price != "0" {
          RenderSnoc(done, Item(count, model, price), priceText);
          Associative(start, RenderAll(done, priceText), ItemText(count, model, formattedPrice));
          text := text + ItemText(count, model, formattedPrice);
          done := done + [Item(count, model, price)];
          count := count + 1;
        }
      } else {
        RenderSnoc(done, Section(model), priceText);
        Associative(start, RenderAll(done, priceText), SectionText(model));
        text := text + SectionText(model);
        done := done + [Section(model)];
        count := 1;
      }
      i := i + 1;
    }
    assert products[..i] == products;
  }

  lemma LinesStep(ps: seq<Product>, i: nat)
    requires i < |ps|
    ensures CountAfter(ps[..i + 1])
              == if IsSection(ps[i]) then 1 else if IsHidden(ps[i]) then CountAfter(ps[..i]) else CountAfter(ps[..i]) + 1
    ensures LinesOf(ps[..i + 1]) == LinesOf(ps[..i])
              + if IsSection(ps[i]) then [Section(ps[i].model)]
                else if IsHidden(ps[i]) then []
                else [Item(CountAfter(ps[..i]), ps[i].model, ps[i].price)]
  {
    assert ps[..i + 1][..i] == ps[..i];
  }

  lemma RenderSnoc(ls: seq<Line>, l: Line, priceText: string -> string)
    ensures RenderAll(ls + [l], priceText) == RenderAll(ls, priceText) + RenderLine(l, priceText)
  {
    assert (ls + [l])[..|ls|] == ls;
  }

  /** The lines follow the shown products one to one: same model, a section
      exactly for a short model, and the product's own price on an item. */
  lemma {:induction false} LinesFollowShown(ps: seq<Product>)
    ensures |LinesOf(ps)| == |Shown(ps)|
    ensures forall k :: 0 <= k < |Shown(ps)| ==>
              && LinesOf(ps)[k].model == Shown(ps)[k].model
              && (LinesOf(ps)[k].Section? <==> IsSection(Shown(ps)[k]))
              && (LinesOf(ps)[k].Item? ==> LinesOf(ps)[k].price == Shown(ps)[k].price)
  {
    if ps != [] {
      LinesFollowShown(ps[..|ps| - 1]);
    }
  }

  /** The shown products are the input without the hidden ones, in order. */
  lemma {:induction false} ShownIsFilter(ps: seq<Product>)
    ensures forall p :: p in Shown(ps) <==> p in ps && !IsHidden(p)
    ensures |Shown(ps)| <= |ps|
  {
    if ps != [] {
      var init := ps[..|ps| - 1];
      ShownIsFilter(init);
      assert ps == init + [ps[|ps| - 1]];
    }
  }

  /** The counter is 1 at the start and after a section header, and one
      more than the last item's number otherwise. */
  lemma {:induction false} CountAfterLast(ps: seq<Product>)
    ensures LinesOf(ps) == [] || LinesOf(ps)[|LinesOf(ps)| - 1].Section? ==> CountAfter(ps) == 1
    ensures LinesOf(ps) != [] && LinesOf(ps)[|LinesOf(ps)| - 1].Item? ==>
              CountAfter(ps) == LinesOf(ps)[|LinesOf(ps)| - 1].number + 1
  {
    if ps != [] {
      CountAfterLast(ps[..|ps| - 1]);
    }
  }

  /** Items are numbered consecutively from 1 after every section header
      and at the start of the list. */
  lemma {:induction false} NumberingConsecutive(ps: seq<Product>, k: nat)
    requires k < |LinesOf(ps)| && LinesOf(ps)[k].Item?
    ensures k == 0 || LinesOf(ps)[k - 1].Section? ==> LinesOf(ps)[k].number == 1
    ensures k > 0 && LinesOf(ps)[k - 1].Item? ==> LinesOf(ps)[k].number == LinesOf(ps)[k - 1].number + 1
  {
    var init := ps[..|ps| - 1];
    if k < |LinesOf(init)| {
      NumberingConsecutive(init, k);
    } else {
      CountAfterLast(init);
    }
  }

  // ---------------------------------------------------------------------
  // format_stats
  // ---------------------------------------------------------------------

  /** The display name and emoji of a leaf key. */
  datatype Label = Label(name: string, emoji: string)

  /** `m` after recording the label of every subcategory of `subs`, in order. */
  function SubLabels(m: map<string, Label>, subs: seq<(string, Sub)>): map<string, Label> {
    if subs == [] then m
    else
      var last := subs[|subs| - 1];
      SubLabels(m, subs[..|subs| - 1])[last.0 := Label(last.1.name, last.1.emoji)]
  }

  /** `category_names`: filled in registry order, a direct category's own
      label, or the labels of a container's subcategories. */
  function NamesOf(cats: Categories): map<string, Label> {
    if cats == [] then map[]
    else
      var last := cats[|cats| - 1];
      var m := NamesOf(cats[..|cats| - 1]);
      if last.1.Direct? then m[last.0 := Label(last.1.name, last.1.emoji)]
      else SubLabels(m, last.1.subcategories)
  }

  lemma {:induction false} SubLabelsKeys(m: map<string, Label>, subs: seq<(string, Sub)>)
    ensures SubLabels(m, subs).Keys == m.Keys + KeySet(SubsAsLeaves(subs))
  {
    if subs != [] {
      var init := subs[..|subs| - 1];
      SubLabelsKeys(m, init);
      SubsStep(subs, |subs| - 1);
      assert subs[..|subs|] == subs;
      KeySetSnoc(SubsAsLeaves(init), SubLeaf(subs[|subs| - 1]));
    }
  }

  /** `category_names` knows exactly the leaf keys of the registry. */
  lemma {:induction false} NamesKeys(cats: Categories)
    ensures NamesOf(cats).Keys == LeafKeys(cats)
  {
    if cats != [] {
      var i := |cats| - 1;
      var init := cats[..i];
      NamesKeys(init);
      assert cats[..i + 1] == cats;
      DirectStep(cats, i);
      ContainerStep(cats, i);
      KeySetConcat(DirectLeaves(init), SubLeaves(init));
      KeySetConcat(DirectLeaves(cats), SubLeaves(cats));
      var last := cats[i];
      if last.1.Direct? {
        KeySetConcat(DirectLeaves(init), [DirectLeaf(last.0, last.1)]);
        assert SubLeaves(cats) == SubLeaves(init) + [];
        assert KeySet([DirectLeaf(last.0, last.1)]) == {last.0};
      } else {
        SubLabelsKeys(NamesOf(init), last.1.subcategories);
        KeySetConcat(SubLeaves(init), SubsAsLeaves(last.1.subcategories));
        assert DirectLeaves(cats) == DirectLeaves(init) + [];
      }
    }
  }

  function StatsLine(l: Label, count: int): string {
    l.emoji + " <b>" + l.name + ":</b> " + IntToString(count) + "\n"
  }

  /** The body lines for the entries whose key has a label, in order. */
  function StatsBody(stats: seq<(string, int)>, names: map<string, Label>): string {
    if stats == [] then ""
    else
      var last := stats[|stats| - 1];
      StatsBody(stats[..|stats| - 1], names) + if last.0 in names then StatsLine(names[last.0], last.1) else ""
  }

  /** The total the loop accumulates: counts of labelled keys only. */
  function StatsTotal(stats: seq<(string, int)>, names: map<string, Label>): int {
    if stats == [] then 0
    else
      var last := stats[|stats| - 1];
      StatsTotal(stats[..|stats| - 1], names) + if last.0 in names then last.1 else 0
  }

  /** The sum of the counts whose key is in `keys`, taken over the entries in any order. */
  function SumOver(stats: seq<(string, int)>, keys: set<string>): int {
    if stats == [] then 0
    else (if stats[0].0 in keys then stats[0].1 else 0) + SumOver(stats[1..], keys)
  }

  /** The sum of all counts. */
  function Sum(stats: seq<(string, int)>): int {
    if stats == [] then 0 else stats[0].1 + Sum(stats[1..])
  }

  lemma {:induction false} SumOverSnoc(stats: seq<(string, int)>, keys: set<string>)
    requires stats != []
    ensures SumOver(stats, keys) == SumOver(stats[..|stats| - 1], keys)
              + if stats[|stats| - 1].0 in keys then stats[|stats| - 1].1 else 0
  {
    if |stats| > 1 {
      assert stats[1..][..|stats[1..]| - 1] == stats[..|stats| - 1][1..];
      SumOverSnoc(stats[1..], keys);
    }
  }

  /** The reported total is the sum of the counts of the keys that are
      leaves of the registry; other keys add nothing. */
  lemma {:induction false} TotalOverLeaves(stats: seq<(string, int)>, cats: Categories)
    ensures StatsTotal(stats, NamesOf(cats)) == SumOver(stats, LeafKeys(cats))
  {
    NamesKeys(cats);
    if stats != [] {
      TotalOverLeaves(stats[..|stats| - 1], cats);
      SumOverSnoc(stats, LeafKeys(cats));
    }
  }

  /** When every key is a leaf key, the total is the plain sum of the counts. */
  lemma {:induction false} TotalAllKnown(stats: seq<(string, int)>, keys: set<string>)
    requires forall i :: 0 <= i < |stats| ==> stats[i].0 in keys
    ensures SumOver(stats, keys) == Sum(stats)
  {
    if stats != [] {
      assert stats[0].0 in keys;
      forall i | 0 <= i < |stats| - 1 ensures stats[1..][i].0 in keys {
        assert stats[1..][i] == stats[i + 1];
      }
      TotalAllKnown(stats[1..], keys);
    }
  }

  function StatsHeader(): string {
    "📊 <b>Статистика</b>\n" + Repeat('═', 20) + "\n\n"
  }

  function StatsFooter(total: int): string {
    "\n" + Repeat('─', 20) + "\n" + "📦 <b>Всего товаров:</b> " + IntToString(total)
  }

  /** The subcategory part of the `category_names` loop. */
  method AddSubLabels(names: map<string, Label>, subs: seq<(string, Sub)>) returns (result: map<string, Label>)
    ensures result == SubLabels(names, subs)
  {
    result := names;
    var j := 0;
    while j < |subs|
      invariant 0 <= j <= |subs|
      invariant result == SubLabels(names, subs[..j])
    {
      assert subs[..j + 1][..j] == subs[..j];
      result := result[subs[j].0 := Label(subs[j].1.name, subs[j].1.emoji)];
      j := j + 1;
    }
    assert subs[..j] == subs;
  }

  /** The `category_names` loop. */
  method CollectNames(cats: Categories) returns (names: map<string, Label>)
    ensures names == NamesOf(cats)
  {
    names := map[];
    var i := 0;
    while i < |cats|
      invariant 0 <= i <= |cats|
      invariant names == NamesOf(cats[..i])
    {
      assert cats[..i + 1][..i] == cats[..i];
      var category := cats[i].1;
      if category.Direct? {
        names := names[cats[i].0 := Label(category.name, category.emoji)];
      } else {
        names := AddSubLabels(names, category.subcategories);
      }
      i := i + 1;
    }
    assert cats[..i] == cats;
  }

  /** `format_stats`: the no-data message for empty stats; otherwise one line
      per entry whose key is a leaf of the registry, in the order given, and
      the total over those entries. */
  method FormatStats(stats: seq<(string, int)>, cats: Categories) returns (text: string)
    ensures stats == [] ==> text == "📊 Нет данных для статистики"
    ensures stats != [] ==>
              text == StatsHeader() + StatsBody(stats, NamesOf(cats)) + StatsFooter(SumOver(stats, LeafKeys(cats)))
  {
    if stats == [] {
      text := "📊 Нет данных для статистики";
    } else {
      var names := CollectNames(cats);
      var totalItems;
      text, totalItems := AppendStats(StatsHeader(), stats, names);
      TotalOverLeaves(stats, cats);
      text := text + StatsFooter(totalItems);
    }
  }

  /** The loop of `format_stats`: one line per entry whose key has a label,
      in order, and the total of those entries' counts. */
  method AppendStats(start: string, stats: seq<(string, int)>, names: map<string, Label>)
    returns (text: string, totalItems: int)
    ensures text == start + StatsBody(stats, names)
    ensures totalItems == StatsTotal(stats, names)
  {
    text := start;
    totalItems := 0;
    var i := 0;
    while i < |stats|
      invariant 0 <= i <= |stats|
      invariant text == start + StatsBody(stats[..i], names)
      invariant totalItems == StatsTotal(stats[..i], names)
    {
      assert stats[..i + 1][..i] == stats[..i];
      var key := stats[i].0;
      var count := stats[i].1;
      if key in names {
        Associative(start, StatsBody(stats[..i], names), StatsLine(names[key], count));
        text := text + StatsLine(names[key], count);
        totalItems := totalItems + count;
      }
      i := i + 1;
    }
    assert stats[..i] == stats;
  }
}
