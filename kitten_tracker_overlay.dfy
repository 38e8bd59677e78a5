/**
 * The on-screen box: a title and one line per timer, drawn only while the
 * kitten follows the player. Each timer line shows its remaining time as
 * `H:MM:SS`, or a hint when the time is unknown, in a colour that bands
 * the remaining share of the timer's total.
 */
module KittenTrackerOverlay {
  import opened Wrappers
  import opened Decimal
  import opened Durations
  import opened TrackerState
  import opened TrackerProperties
  import opened KittenTrackerPlugin

  /**
   * The colours a line can take. The four configured colours stand for
   * whatever the user picked for them; only which one is chosen matters.
   */
  datatype Color = White | LightGray | GrowthColor | DangerColor | WarningColor | NormalColor

  /** The panel's children: a title, or a line with a left caption and a right value. */
  datatype Component =
    | Title(text: string, color: Color)
    | Line(left: string, right: string, rightColor: Color)

  const PanelTitle: string := "Kitten Tracker"
  const GrowthLabel: string := "Growth"
  const HungerLabel: string := "Hunger"
  const AttentionLabel: string := "Attention"
  const Unknown: string := "N/A"

  /** Java's `/` on `long`, which truncates toward zero. */
  function JavaDiv(a: int, b: int): (q: int)
    requires b > 0
    ensures a >= 0 ==> q == a / b
    ensures a < 0 ==> q <= 0 && b * -q <= -a < b * (-q + 1)
  {
    if a >= 0 then a / b else -((-a) / b)
  }

  /** Java's `%` on `long`: the remainder takes the sign of the dividend. */
  function JavaRem(a: int, b: int): (r: int)
    requires b > 0
    ensures a >= 0 ==> r == a % b
    ensures a == JavaDiv(a, b) * b + r
  {
    a - JavaDiv(a, b) * b
  }

  /** `%d`: a minus sign before the digits of a negative number. */
  function FormatD(n: int): (s: string)
    ensures n >= 0 ==> s == ToDecimal(n)
  {
    if n < 0 then "-" + ToDecimal(-n) else ToDecimal(n)
  }

  /**
   * What `%d` prints for any `long`: a minus sign exactly for a negative
   * number, then the digits of its magnitude, with no leading zero.
   */
  lemma FormatDText(n: int)
    ensures var s := FormatD(n);
      |s| >= 1 && (s[0] == '-' <==> n < 0)
      && var digits := if n < 0 then s[1..] else s;
      |digits| >= 1 && AllDigits(digits) && Value(digits) == (if n < 0 then -n else n)
      && (digits[0] == '0' ==> |digits| == 1)
  {
    var m := if n < 0 then -n else n;
    var digits := ToDecimal(m);
    ValueOfToDecimal(m);
    assert IsDigit(digits[0]);
    if n < 0 {
      assert FormatD(n) == "-" + digits;
      assert FormatD(n)[1..] == digits;
    }
  }

  /** `%02d`: a zero before a single digit; a sign or a wider number is printed as is. */
  function Format02(n: int): (s: string)
    ensures 0 <= n < 100 ==> |s| == 2 && AllDigits(s) && Value(s) == n
  {
    if 0 <= n < 100 then (Pad2Value(n); Pad2(n)) else FormatD(n)
  }

  /**
   * The value text of a known timer: `Duration.getSeconds` (whole seconds,
   * rounded down) split into hours, minutes and seconds by Java's `/` and `%`.
   */
  function Clock(ms: int): string
  {
    var seconds := ms / 1000;
    FormatD(JavaDiv(seconds, 3600)) + ":" + Format02(JavaDiv(JavaRem(seconds, 3600), 60)) + ":" + Format02(JavaRem(seconds, 60))
  }

  /** Reads an `H:MM:SS` text back into seconds: minutes and seconds two digits below 60. */
  function ParseClock(t: string): (r: Option<int>)
    ensures r.Some? ==> r.value >= 0
  {
    if |t| >= 7 && t[|t| - 6] == ':' && t[|t| - 3] == ':' then
      var h, mm, ss := t[..|t| - 6], t[|t| - 5..|t| - 3], t[|t| - 2..];
      if AllDigits(h) && AllDigits(mm) && AllDigits(ss) && Value(mm) < 60 && Value(ss) < 60 then
        Some(Value(h) * 3600 + Value(mm) * 60 + Value(ss))
      else None
    else None
  }

  /** For a non-negative count the three fields are hours, minutes below 60 and seconds below 60. */
  lemma ClockFields(seconds: int)
    requires seconds >= 0
    ensures 0 <= JavaDiv(JavaRem(seconds, 3600), 60) < 60 && 0 <= JavaRem(seconds, 60) < 60
    ensures JavaDiv(seconds, 3600) * 3600 + JavaDiv(JavaRem(seconds, 3600), 60) * 60 + JavaRem(seconds, 60) == seconds
  {
    var a, b := seconds / 3600, seconds % 3600;
    var c, e := b / 60, b % 60;
    assert seconds == 60 * (60 * a + c) + e;
    assert seconds % 60 == e;
  }

  /** The text of a non-negative time reads back as its whole seconds. */
  lemma ClockRoundTrip(ms: int)
    requires ms >= 0
    ensures ParseClock(Clock(ms)) == Some(ms / 1000)
  {
    var seconds := ms / 1000;
    ClockFields(seconds);
    var h, m, s := seconds / 3600, (seconds % 3600) / 60, seconds % 60;
    var d, p, q := ToDecimal(h), Format02(m), Format02(s);
    var t := d + ":" + p + ":" + q;
    assert Clock(ms) == t;
    assert t[|t| - 6] == ':' && t[|t| - 3] == ':';
    assert t[..|t| - 6] == d;
    assert t[|t| - 5..|t| - 3] == p;
    assert t[|t| - 2..] == q;
    ValueOfToDecimal(h);
  }

  /**
   * The hour field of a non-negative time is `%d` of its whole hours: the
   * text before the last six characters, with no leading zero unless the
   * hours are zero.
   */
  lemma ClockHourField(ms: int)
    requires ms >= 0
    ensures var t := Clock(ms);
      |t| >= 7 && t[..|t| - 6] == ToDecimal(ms / 1000 / 3600)
      && (t[0] == '0' <==> ms / 1000 < 3600) && (t[0] == '0' ==> |t| == 7)
  {
    var seconds := ms / 1000;
    ClockFields(seconds);
    var d, p, q := ToDecimal(seconds / 3600), Format02((seconds % 3600) / 60), Format02(seconds % 60);
    var t := d + ":" + p + ":" + q;
    assert Clock(ms) == t;
    assert t[..|t| - 6] == d;
    assert t[0] == d[0];
  }

  /** Two non-negative times show the same text exactly when they agree in whole seconds. */
  lemma ClockSameSecond(ms1: int, ms2: int)
    requires ms1 >= 0 && ms2 >= 0
    ensures Clock(ms1) == Clock(ms2) <==> ms1 / 1000 == ms2 / 1000
  {
    ClockRoundTrip(ms1);
    ClockRoundTrip(ms2);
  }

  /** The hint shown in light grey for a timer nothing is known about. */
  function Placeholder(caption: string): (s: string)
    ensures s == Unknown <==> caption != GrowthLabel && caption != HungerLabel && caption != AttentionLabel
  {
    if caption == GrowthLabel then "Check age"
    else if caption == HungerLabel then "Feed kitten"
    else if caption == AttentionLabel then "Pet kitten"
    else Unknown
  }

  /** `remaining / total <= percent / 100`, compared exactly; the division flips it for a negative total. */
  predicate WithinPercent(remaining: int, total: int, percent: int)
    requires total != 0
  {
    if total > 0 then 100 * remaining <= percent * total else 100 * remaining >= percent * total
  }

  /** White when either duration is unknown or the total is zero; otherwise danger, warning or normal by share left. */
  function TimerColor(remaining: Option<int>, total: Option<int>): Color
  {
    if remaining.None? || total.None? || total.value == 0 then White
    else if WithinPercent(remaining.value, total.value, 15) then DangerColor
    else if WithinPercent(remaining.value, total.value, 50) then WarningColor
    else NormalColor
  }

  /** How urgent a banded colour is: danger above warning above normal. */
  function Urgency(c: Color): nat
  {
    match c
    case DangerColor => 2
    case WarningColor => 1
    case _ => 0
  }

  /** The bands for a positive total: at most 15% left, at most half left, more than half left. */
  lemma TimerColorBands(remaining: int, total: int)
    requires total > 0
    ensures TimerColor(Some(remaining), Some(total)) == DangerColor <==> 100 * remaining <= 15 * total
    ensures TimerColor(Some(remaining), Some(total)) == WarningColor <==> 15 * total < 100 * remaining <= 50 * total
    ensures TimerColor(Some(remaining), Some(total)) == NormalColor <==> 50 * total < 100 * remaining
  {
  }

  /** Less time left never makes a line look less urgent. */
  lemma TimerColorMonotone(r1: int, r2: int, total: int)
    requires r1 <= r2 && total > 0
    ensures Urgency(TimerColor(Some(r1), Some(total))) >= Urgency(TimerColor(Some(r2), Some(total)))
  {
  }

  /** The guard: no banding without both durations and a non-zero total. */
  lemma TimerColorGuard(remaining: Option<int>, total: Option<int>)
    ensures TimerColor(remaining, total) == White <==> remaining.None? || total.None? || total.value == 0
  {
  }

  /** The line `addTimerLine` adds for one timer. */
  function TimerLine(caption: string, remaining: Option<int>, total: Option<int>): Component
  {
    if remaining.Some? then
      Line(caption + ":", Clock(remaining.value), if caption == GrowthLabel then GrowthColor else TimerColor(remaining, total))
    else
      Line(caption + ":", Placeholder(caption), LightGray)
  }

  /**
   * What a line tells the player: a known non-negative time reads back from
   * its text, in the growth colour or a banded one; an unknown one shows the
   * caption's hint in light grey.
   */
  lemma TimerLineShows(caption: string, remaining: Option<int>, total: Option<int>)
    requires remaining.Some? ==> remaining.value >= 0
    ensures TimerLine(caption, remaining, total).Line? && TimerLine(caption, remaining, total).left == caption + ":"
    ensures remaining.Some? ==> ParseClock(TimerLine(caption, remaining, total).right) == Some(remaining.value / 1000)
    ensures remaining.Some? ==> (TimerLine(caption, remaining, total).rightColor == GrowthColor <==> caption == GrowthLabel)
    ensures remaining.None? <==> TimerLine(caption, remaining, total).rightColor == LightGray
    ensures remaining.None? ==> TimerLine(caption, remaining, total).right == Placeholder(caption)
  {
    if remaining.Some? {
      ClockRoundTrip(remaining.value);
    }
  }

  /** The children `render` adds for the plugin's state: the title, then growth, hunger and attention. */
  function Panel(st: State): seq<Component>
  {
    [Title(PanelTitle, White),
     TimerLine(GrowthLabel, st.growthTimeRemaining, Some(TotalGrowthTime)),
     TimerLine(HungerLabel, st.hungerTimeRemaining, Some(HungerTime)),
     TimerLine(AttentionLabel, st.attentionTimeRemaining, st.currentAttentionDuration)]
  }

  /**
   * For a consistent plugin state every timer line either reads back as the
   * plugin's remaining seconds or shows its own hint, never "N/A".
   */
  lemma PanelShowsTimers(st: State)
    requires Consistent(st)
    ensures |Panel(st)| == 4 && Panel(st)[0] == Title(PanelTitle, White)
    ensures forall k :: 1 <= k < 4 ==> Panel(st)[k].Line? && Panel(st)[k].right != Unknown
    ensures st.growthTimeRemaining.Some? ==> ParseClock(Panel(st)[1].right) == Some(st.growthTimeRemaining.value / 1000)
    ensures st.hungerTimeRemaining.Some? ==> ParseClock(Panel(st)[2].right) == Some(st.hungerTimeRemaining.value / 1000)
    ensures st.attentionTimeRemaining.Some? ==> ParseClock(Panel(st)[3].right) == Some(st.attentionTimeRemaining.value / 1000)
  {
    TimerLineShows(GrowthLabel, st.growthTimeRemaining, Some(TotalGrowthTime));
    TimerLineShows(HungerLabel, st.hungerTimeRemaining, Some(HungerTime));
    TimerLineShows(AttentionLabel, st.attentionTimeRemaining, st.currentAttentionDuration);
  }

  /** Four appends of one element each are one append of the four. */
  lemma AppendFour<T>(xs: seq<T>, a: T, b: T, c: T, d: T)
    ensures xs + [a] + [b] + [c] + [d] == xs + [a, b, c, d]
  {
  }

  class Overlay {
    const plugin: Plugin
    /** The panel's children, in the order they were added. */
    var children: seq<Component>

    constructor (plugin: Plugin)
      ensures this.plugin == plugin && children == []
    {
      this.plugin := plugin;
      children := [];
    }

    /** Adds the line for one timer: its clock text or hint, and its colour. */
    method AddTimerLine(caption: string, remaining: Option<int>, total: Option<int>)
      modifies this
      ensures children == old(children) + [TimerLine(caption, remaining, total)]
    {
      var value: string;
      var valueColor: Color;
      if remaining.Some? {
        value := Clock(remaining.value);
        if caption == GrowthLabel {
          valueColor := GrowthColor;
        } else {
          valueColor := TimerColor(remaining, total);
        }
      } else {
        valueColor := LightGray;
        value := Placeholder(caption);
      }
      children := children + [Line(caption + ":", value, valueColor)];
    }

    /**
     * Draws nothing while the kitten is away; otherwise adds the title and
     * the growth, hunger and attention lines, in that order.
     */
    method Render() returns (drawn: bool)
      modifies this
      ensures drawn == plugin.kittenFollowing
      ensures !drawn ==> children == old(children)
      ensures drawn ==> children == old(children) + Panel(plugin.Abs())
    {
      if !plugin.IsKittenFollowing() {
        return false;
      }
      var growth, hunger := plugin.GetGrowthTimeRemaining(), plugin.GetHungerTimeRemaining();
      var attention, attentionTotal := plugin.GetAttentionTimeRemaining(), plugin.GetCurrentAttentionDuration();
      ghost var before := children;
      children := children + [Title(PanelTitle, White)];
      AddTimerLine(GrowthLabel, growth, Some(TotalGrowthTime));
      AddTimerLine(HungerLabel, hunger, Some(HungerTime));
      AddTimerLine(AttentionLabel, attention, attentionTotal);
      AppendFour(before, Title(PanelTitle, White), TimerLine(GrowthLabel, growth, Some(TotalGrowthTime)),
        TimerLine(HungerLabel, hunger, Some(HungerTime)), TimerLine(AttentionLabel, attention, attentionTotal));
      drawn := true;
    }
  }
}
