/** The animated progress message of `bot/utils/progress.py`. The clock,
    the time formatting and the Telegram edit call are parameters: the
    elapsed time is an input, `formatTime` is `_format_time`, and the
    outcome of `edit_text` is given as an `EditResult`. */
module Progress {
  import opened Text

  /** What `message.edit_text` did: succeeded, or raised an exception whose
      `str()` is `message`. */
  datatype EditResult = EditOk | EditFailed(message: string)

  /** How a call to `update` ended. */
  datatype UpdateOutcome =
    | DivisionByZero            // `total == 0`: `//` raised `ZeroDivisionError`
    | Skipped                   // the text equals the last text sent: no edit
    | Edited                    // the edit went through
    | NotModified               // Telegram said "message is not modified": swallowed
    | Raised(error: string)     // any other edit error propagates

  /** The four animation frames. */
  function Frames(): seq<string> {
    ["◴", "◷", "◶", "◵"]
  }

  /** The frame after frame `f`, cyclically. */
  function NextIndex(f: nat): nat {
    (f + 1) % |Frames()|
  }

  /** Python's `a // b` for `b != 0` (rounds toward negative infinity). */
  function FloorDiv(a: int, b: int): int
    requires b != 0
  {
    if b > 0 then a / b else (-a) / (-b)
  }

  /** `percent = current * 100 // total`. */
  function Percent(current: int, total: int): int
    requires total != 0
  {
    FloorDiv(current * 100, total)
  }

  /** `filled = percent * width // 100`. */
  function Filled(percent: int, width: int): int {
    FloorDiv(percent * width, 100)
  }

  /** `"█" * filled + "░" * (width - filled)`. */
  function Bar(filled: int, width: int): string {
    Repeat('█', filled) + Repeat('░', width - filled)
  }

  /** For progress within `0..total`, the percentage is within `0..100`. */
  lemma PercentBounds(current: int, total: int)
    requires 0 <= current <= total && total > 0
    ensures 0 <= Percent(current, total) <= 100
    ensures current == total ==> Percent(current, total) == 100
  {
  }

  /** For progress within `0..total`, the bar is exactly `width` cells wide,
      with at most `width` of them filled. */
  lemma BarShape(current: int, total: int, width: int)
    requires 0 <= current <= total && total > 0 && width >= 0
    ensures 0 <= Filled(Percent(current, total), width) <= width
    ensures |Bar(Filled(Percent(current, total), width), width)| == width
  {
    var p := Percent(current, total);
    PercentBounds(current, total);
    assert 0 <= p * width <= 100 * width;
  }

  /** The estimated remaining time: zero until some progress is made. Float
      arithmetic is modelled with reals. */
  function Estimated(elapsed: real, current: int, total: int): (r: real)
    ensures current <= 0 ==> r == 0.0
  {
    if current > 0 then (elapsed / current as real) * (total - current) as real else 0.0
  }

  /** The text of the progress message: the emoji and the animation frame,
      then the body. */
  function ProgressText(emoji: string, anim: string, bar: string, percent: int, current: int, total: int,
                        elapsedText: string, estimatedText: string): string
  {
    emoji + " " + anim + ProgressBody(bar, percent, current, total, elapsedText, estimatedText)
  }

  /** Everything after the animation frame: title, bar, counts and times. */
  function ProgressBody(bar: string, percent: int, current: int, total: int,
                        elapsedText: string, estimatedText: string): string
  {
    " <b>Обновление данных</b>\n"
      + "┃" + bar + "┃ " + IntToString(percent) + "%\n"
      + "📊 <b>Прогресс:</b> " + IntToString(current) + "/" + IntToString(total) + "\n"
      + "⏱ <b>Прошло:</b> " + elapsedText + "\n"
      + "⏳ <b>Осталось:</b> " + estimatedText
  }

  /** Two texts with different animation frames differ: consecutive updates
      never produce the same text, so an edit is skipped only once the
      frame has come round again. */
  lemma FrameShowsInText(emoji: string, f1: nat, f2: nat,
                         bar1: string, p1: int, c1: int, t1: int, e1: string, r1: string,
                         bar2: string, p2: int, c2: int, t2: int, e2: string, r2: string)
    requires f1 < 4 && f2 < 4 && f1 != f2
    ensures ProgressText(emoji, Frames()[f1], bar1, p1, c1, t1, e1, r1)
         != ProgressText(emoji, Frames()[f2], bar2, p2, c2, t2, e2, r2)
  {
    var x1, x2 := Frames()[f1], Frames()[f2];
    assert |x1| == 1 && |x2| == 1 && x1[0] != x2[0];
    var a := emoji + " " + x1 + ProgressBody(bar1, p1, c1, t1, e1, r1);
    var b := emoji + " " + x2 + ProgressBody(bar2, p2, c2, t2, e2, r2);
    var k := |emoji| + 1;
    assert a[k] == x1[0];
    assert b[k] == x2[0];
  }

  /** The "message is not modified" test on the lower-cased error text. */
  predicate IsNotModified(error: string) {
    Contains(AsciiLower(error), "message is not modified")
  }

  class ProgressBar {
    const total: int
    const emoji: string
    const width: int
    var current: int
    var lastText: string
    var lastPercent: int
    var frameIndex: nat

    /** The frame index always names one of the four frames. */
    predicate Valid()
      reads this
    {
      frameIndex < |Frames()|
    }

    constructor (total: int, emoji: string, width: int)
      ensures Valid()
      ensures this.total == total && this.emoji == emoji && this.width == width
      ensures current == 0 && lastText == "" && lastPercent == -1 && frameIndex == 0
    {
      this.total := total;
      this.emoji := emoji;
      this.width := width;
      current := 0;
      lastText := "";
      lastPercent := -1;
      frameIndex := 0;
    }

    /** `_get_animation_char`: advance the frame cyclically and return it. */
    method NextFrame() returns (anim: string)
      requires Valid()
      modifies this`frameIndex
      ensures Valid()
      ensures frameIndex == NextIndex(old(frameIndex))
      ensures anim == Frames()[frameIndex]
    {
      frameIndex := (frameIndex + 1) % |Frames()|;
      anim := Frames()[frameIndex];
    }

    /** The message `update` shows for progress `c` at animation frame
        `frame`: the bar, the percentage, the counts and both times. */
    function MessageText(c: int, frame: nat, elapsed: real, formatTime: real -> string): (r: string)
      requires total != 0 && frame < 4
      ensures |r| >= |emoji| + 2 && r[..|emoji| + 2] == emoji + " " + Frames()[frame]
    {
      var percent := Percent(c, total);
      ProgressText(emoji, Frames()[frame], Bar(Filled(percent, width), width), percent, c, total,
                   formatTime(elapsed), formatTime(Estimated(elapsed, c, total)))
    }

    /** `update` without its log line. `current` is stored first; with
        `total == 0` the division raises and nothing else changes. Otherwise
        the frame advances, and the edit is attempted only when the text
        differs from the last one sent; the last text changes only when the
        edit succeeds. */
    method Update(newCurrent: int, elapsed: real, formatTime: real -> string, edit: EditResult)
      returns (outcome: UpdateOutcome, text: string)
      requires Valid()
      modifies this`current, this`frameIndex, this`lastText
      ensures Valid()
      ensures current == newCurrent
      ensures total == 0 ==> outcome == DivisionByZero && frameIndex == old(frameIndex) && lastText == old(lastText)
      ensures total != 0 ==>
                && frameIndex == NextIndex(old(frameIndex))
                && text == MessageText(newCurrent, frameIndex, elapsed, formatTime)
                && (outcome == Skipped <==> text == old(lastText))
                && (text != old(lastText) ==>
                      match edit
                      case EditOk => outcome == Edited
                      case EditFailed(e) => outcome == if IsNotModified(e) then NotModified else Raised(e))
                && lastText == (if outcome == Edited then text else old(lastText))
    {
      current := newCurrent;
      text := "";
      if total == 0 {
        return DivisionByZero, text;
      }
      var _ := NextFrame();
      text := MessageText(current, frameIndex, elapsed, formatTime);
      outcome := Send(text, edit);
    }

    /** The change detection of `update`: an edit is attempted only when the
        text differs from the last one sent, and the last text is replaced
        only when the edit succeeds. A "message is not modified" error is
        swallowed; any other error propagates. */
    method Send(text: string, edit: EditResult) returns (outcome: UpdateOutcome)
      modifies this`lastText
      ensures outcome == Skipped <==> text == old(lastText)
      ensures text != old(lastText) ==>
                match edit
                case EditOk => outcome == Edited
                case EditFailed(e) => outcome == if IsNotModified(e) then NotModified else Raised(e)
      ensures lastText == if outcome == Edited then text else old(lastText)
    {
      if text != lastText {
        match edit
        case EditOk =>
          lastText := text;
          outcome := Edited;
        case EditFailed(e) =>
          if !IsNotModified(e) {
            outcome := Raised(e);
          } else {
            outcome := NotModified;
          }
      } else {
        outcome := Skipped;
      }
    }
  }
}
