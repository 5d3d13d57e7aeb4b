/** The main menu keyboard of `bot/keyboards/main.py`: one button per
    configured sheet, two to a row, followed by a row holding the refresh
    button. Buttons are records of their text and callback data. */
module Keyboard {
  import opened Registry

  datatype Button = Button(text: string, callback: string)

  type Row = seq<Button>

  /** The button for one sheet: its emoji and display name, and its callback. */
  function SheetButton(entry: (string, SheetConfig)): Button {
    Button(entry.1.emoji + " " + entry.1.displayName, entry.1.callback)
  }

  /** The sheet buttons in configuration order. */
  function SheetButtons(sheets: seq<(string, SheetConfig)>): (r: seq<Button>)
    ensures |r| == |sheets|
    ensures forall i :: 0 <= i < |sheets| ==> r[i] == SheetButton(sheets[i])
  {
    seq(|sheets|, i requires 0 <= i < |sheets| => SheetButton(sheets[i]))
  }

  function RefreshButton(): Button {
    Button("🔄 Обновить данные", "refresh_data")
  }

  function Min(a: int, b: int): int {
    if a <= b then a else b
  }

  /** The buttons cut into consecutive pairs, the last one possibly single. */
  function Pairs(bs: seq<Button>): seq<Row> {
    seq((|bs| + 1) / 2, k requires 0 <= k < (|bs| + 1) / 2 => bs[2 * k .. Min(2 * k + 2, |bs|)])
  }

  /** All buttons of a sequence of rows, row after row. */
  function Flatten(rows: seq<Row>): seq<Button> {
    if rows == [] then [] else rows[0] + Flatten(rows[1..])
  }

  /** Beyond two buttons, the first pair is followed by the pairs of the rest. */
  lemma PairsCons(bs: seq<Button>)
    requires |bs| > 2
    ensures Pairs(bs) == [bs[..2]] + Pairs(bs[2..])
  {
    var p := Pairs(bs);
    var q := Pairs(bs[2..]);
    assert |p| == |q| + 1;
    forall k | 0 < k < |p| ensures p[k] == q[k - 1] {
      assert bs[2 * k .. Min(2 * k + 2, |bs|)] == bs[2..][2 * (k - 1) .. Min(2 * (k - 1) + 2, |bs| - 2)];
    }
  }

  /** Reading the pairs row after row gives back the buttons in order. */
  lemma {:induction false} PairsFlatten(bs: seq<Button>)
    ensures Flatten(Pairs(bs)) == bs
    decreases |bs|
  {
    if |bs| > 2 {
      PairsFlatten(bs[2..]);
      PairsCons(bs);
      assert Pairs(bs)[1..] == Pairs(bs[2..]);
      assert bs[..2] + bs[2..] == bs;
    } else if |bs| > 0 {
      assert |Pairs(bs)| == 1;
      assert Pairs(bs)[0] == bs[0 .. Min(2, |bs|)] == bs;
      assert Pairs(bs) == [bs];
      assert Flatten(Pairs(bs)) == bs + Flatten([]);
    }
  }

  /** Every pair row holds two buttons except possibly the last, which holds
      one or two; no row is empty, and there are `ceil(n / 2)` of them. */
  lemma PairsShape(bs: seq<Button>)
    ensures |Pairs(bs)| == (|bs| + 1) / 2
    ensures forall k :: 0 <= k < |Pairs(bs)| ==> 1 <= |Pairs(bs)[k]| <= 2
    ensures forall k :: 0 <= k < |Pairs(bs)| - 1 ==> |Pairs(bs)[k]| == 2
    ensures |Pairs(bs)| > 0 ==> (|Pairs(bs)[|Pairs(bs)| - 1]| == 1 <==> |bs| % 2 == 1)
  {
  }

  /** `get_main_keyboard`. The counter runs from 1; every second button
      closes a row, a leftover button forms a row of its own, and the refresh
      row comes last. */
  method MainKeyboard(sheets: seq<(string, SheetConfig)>) returns (keyboard: seq<Row>)
    ensures keyboard == Pairs(SheetButtons(sheets)) + [[RefreshButton()]]
  {
    ghost var bs := SheetButtons(sheets);
    var buttons: seq<Row> := [];
    var row: Row := [];
    var index := 0;
    while index < |sheets|
      invariant 0 <= index <= |sheets|
      invariant |buttons| == index / 2
      invariant forall k :: 0 <= k < |buttons| ==> buttons[k] == bs[2 * k .. 2 * k + 2]
      invariant row == bs[2 * (index / 2) .. index]
    {
      var i := index + 1;
      var sheet := sheets[index].1;
      row := row + [Button(sheet.emoji + " " + sheet.displayName, sheet.callback)];
      if i % 2 == 0 {
        buttons := buttons + [row];
        row := [];
      }
      index := index + 1;
    }
    if row != [] {
      buttons := buttons + [row];
    }
    buttons := buttons + [[RefreshButton()]];
    keyboard := buttons;
  }

  /** The layout promised by the menu: the sheet buttons, in configuration
      order, fill every row but the last; the last row is the refresh button
      alone; there are `ceil(n / 2) + 1` rows. */
  lemma MainKeyboardLayout(sheets: seq<(string, SheetConfig)>, keyboard: seq<Row>)
    requires keyboard == Pairs(SheetButtons(sheets)) + [[RefreshButton()]]
    ensures |keyboard| == (|sheets| + 1) / 2 + 1
    ensures Flatten(keyboard[..|keyboard| - 1]) == SheetButtons(sheets)
    ensures keyboard[|keyboard| - 1] == [RefreshButton()]
    ensures forall k :: 0 <= k < |keyboard| - 1 ==> 1 <= |keyboard[k]| <= 2
    ensures forall k :: 0 <= k < |keyboard| - 2 ==> |keyboard[k]| == 2
  {
    PairsShape(SheetButtons(sheets));
    PairsFlatten(SheetButtons(sheets));
    assert keyboard[..|keyboard| - 1] == Pairs(SheetButtons(sheets));
  }
}
