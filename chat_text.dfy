/**
 * Classification of one chat line: the category filter, the priority-ordered
 * substring tests and the age pattern
 * `approximate time until fully adult: (?:(\d+) hours? )?(\d+) minutes?`
 * searched for as `Matcher.find` does (leftmost start, the hours group tried
 * before it is skipped).
 */
module ChatText {
  import opened Wrappers
  import opened Decimal

  /** The chat categories the plugin listens to, and every other one. */
  datatype ChatMessageType = GameMessage | Spam | Dialog | Mesbox | OtherType(name: string)

  predicate IsListenedType(t: ChatMessageType) { !t.OtherType? }

  const MilkText: string := "The kitten gratefully laps up the milk."
  const FishText: string := "The kitten gobbles up the fish."
  const StrokeText: string := "You softly stroke your cat."
  const WoolText: string := "You play with the kitten"
  const AgePrefix: string := "approximate time until fully adult: "

  /** `t` occurs in `s` starting at index `k`. */
  predicate Occurs(s: string, t: string, k: int) { 0 <= k && k + |t| <= |s| && s[k..k + |t|] == t }

  /** `String.contains`. */
  predicate Contains(s: string, t: string) { exists k | 0 <= k <= |s| :: Occurs(s, t, k) }

  /** Length of the longest run of digits starting at `p` (greedy `\d+`). */
  function DigitRun(s: string, p: nat): (n: nat)
    requires p <= |s|
    ensures p + n <= |s| && AllDigits(s[p..p + n])
    ensures p + n == |s| || !IsDigit(s[p + n])
    decreases |s| - p
  {
    if p < |s| && IsDigit(s[p]) then
      var n := DigitRun(s, p + 1);
      assert s[p..p + 1 + n] == [s[p]] + s[p + 1..p + 1 + n];
      1 + n
    else 0
  }

  /** What the two capturing groups hold after a match. */
  datatype AgeGroups = AgeGroups(hours: Option<string>, minutes: string)

  /** `(\d+) minutes?` at `p`: the digits, when they are followed by " minute". */
  function MinutesGroup(s: string, p: nat): Option<string>
    requires p <= |s|
  {
    var n := DigitRun(s, p);
    if n > 0 && Occurs(s, " minute", p + n) then Some(s[p..p + n]) else None
  }

  /** `(\d+) hours? ` at `p`: the digits and the index just after the group. */
  function HoursGroup(s: string, p: nat): Option<(string, nat)>
    requires p <= |s|
  {
    var n := DigitRun(s, p);
    if n == 0 then None
    else if Occurs(s, " hours ", p + n) then Some((s[p..p + n], p + n + 7))
    else if Occurs(s, " hour ", p + n) then Some((s[p..p + n], p + n + 6))
    else None
  }

  /** The pattern's tail at `p` with the hours group taking part. */
  function WithHoursAt(s: string, p: nat): Option<AgeGroups>
    requires p <= |s|
  {
    match HoursGroup(s, p)
    case None => None
    case Some((h, q)) =>
      match MinutesGroup(s, q)
      case None => None
      case Some(m) => Some(AgeGroups(Some(h), m))
  }

  /** The pattern's tail at `p` with the hours group skipped. */
  function WithoutHoursAt(s: string, p: nat): Option<AgeGroups>
    requires p <= |s|
  {
    match MinutesGroup(s, p)
    case None => None
    case Some(m) => Some(AgeGroups(None, m))
  }

  /** The pattern after its literal lead-in, at `p`: the hours group first, then without it. */
  function MatchTailAt(s: string, p: nat): Option<AgeGroups>
    requires p <= |s|
  {
    if WithHoursAt(s, p).Some? then WithHoursAt(s, p) else WithoutHoursAt(s, p)
  }

  /** The literal `lead` followed by the tail, anchored at `i`. */
  function MatchLeadAt(s: string, lead: string, i: nat): Option<AgeGroups>
    requires i <= |s|
  {
    if Occurs(s, lead, i) then MatchTailAt(s, i + |lead|) else None
  }

  /** The whole pattern anchored at `i`. */
  function MatchAgeAt(s: string, i: nat): Option<AgeGroups>
    requires i <= |s|
  {
    MatchLeadAt(s, AgePrefix, i)
  }

  datatype AgeMatch = AgeMatch(start: nat, groups: AgeGroups)

  /** The scan of `Matcher.find`: the first start in `i..n` at which `m` matches. */
  function FindFirst(m: nat -> Option<AgeGroups>, i: nat, n: nat): (r: Option<AgeMatch>)
    requires i <= n
    ensures r.Some? ==> i <= r.value.start <= n && m(r.value.start) == Some(r.value.groups)
    ensures r.Some? ==> forall j :: i <= j < r.value.start ==> m(j).None?
    ensures r.None? ==> forall j :: i <= j <= n ==> m(j).None?
    decreases n - i
  {
    match m(i)
    case Some(g) => Some(AgeMatch(i, g))
    case None => if i == n then None else FindFirst(m, i + 1, n)
  }

  /** The age pattern tried at every start of the line, including its end. */
  function AgeMatcher(s: string): nat -> Option<AgeGroups>
  {
    (j: nat) => if j <= |s| then MatchAgeAt(s, j) else None
  }

  function FindAge(s: string): Option<AgeMatch> { FindFirst(AgeMatcher(s), 0, |s|) }

  /** The match found is the leftmost one, and no match means none at any start. */
  lemma FindAgeLeftmost(s: string)
    ensures FindAge(s).Some? ==> FindAge(s).value.start <= |s| && MatchAgeAt(s, FindAge(s).value.start) == Some(FindAge(s).value.groups)
    ensures FindAge(s).Some? ==> forall j :: 0 <= j < FindAge(s).value.start ==> MatchAgeAt(s, j).None?
    ensures FindAge(s).None? ==> forall j :: 0 <= j <= |s| ==> MatchAgeAt(s, j).None?
  {
    var m := AgeMatcher(s);
    assert forall j: nat :: j <= |s| ==> m(j) == MatchAgeAt(s, j);
  }

  /** The text the tail consumes, for groups `g`, with "hours " or "hour ". */
  function TailText(g: AgeGroups, pluralHours: bool): string
  {
    (match g.hours
     case None => ""
     case Some(h) => h + (if pluralHours then " hours " else " hour "))
    + (g.minutes + " minute")
  }

  /** The text a whole match consumes. */
  function MatchedText(g: AgeGroups, pluralHours: bool): string
  {
    AgePrefix + TailText(g, pluralHours)
  }

  predicate WellFormed(g: AgeGroups)
  {
    |g.minutes| > 0 && AllDigits(g.minutes)
    && (g.hours.Some? ==> |g.hours.value| > 0 && AllDigits(g.hours.value))
  }

  lemma DigitRunOf(s: string, p: nat, d: string)
    requires Occurs(s, d, p) && AllDigits(d)
    requires p + |d| < |s| && s[p + |d|] == ' '
    ensures DigitRun(s, p) == |d|
  {
  }

  /** Two adjacent occurrences make one occurrence of the concatenation. */
  lemma OccursConcat(s: string, t1: string, t2: string, k: int)
    requires Occurs(s, t1, k) && Occurs(s, t2, k + |t1|)
    ensures Occurs(s, t1 + t2, k)
  {
    assert s[k..k + |t1 + t2|] == s[k..k + |t1|] + s[k + |t1|..k + |t1| + |t2|];
  }

  /** An occurrence of a concatenation is an occurrence of each part. */
  lemma OccursSplit(s: string, t1: string, t2: string, k: int)
    requires Occurs(s, t1 + t2, k)
    ensures Occurs(s, t1, k) && Occurs(s, t2, k + |t1|)
  {
    assert s[k..k + |t1|] == s[k..k + |t1 + t2|][..|t1|];
    assert s[k + |t1|..k + |t1| + |t2|] == s[k..k + |t1 + t2|][|t1|..];
  }

  /** What a successful `(\d+) minutes?` consumed. */
  lemma MinutesGroupSound(s: string, p: nat)
    requires p <= |s| && MinutesGroup(s, p).Some?
    ensures var m := MinutesGroup(s, p).value;
      |m| > 0 && AllDigits(m) && Occurs(s, m + " minute", p)
  {
    var m := MinutesGroup(s, p).value;
    OccursConcat(s, m, " minute", p);
  }

  /** What a successful `(\d+) hours? ` consumed. */
  lemma HoursGroupSound(s: string, p: nat)
    requires p <= |s| && HoursGroup(s, p).Some?
    ensures var (h, q) := HoursGroup(s, p).value;
      |h| > 0 && AllDigits(h)
      && ((Occurs(s, h + " hours ", p) && q == p + |h| + 7) || (Occurs(s, h + " hour ", p) && q == p + |h| + 6))
  {
    var (h, q) := HoursGroup(s, p).value;
    var n := DigitRun(s, p);
    assert Occurs(s, h, p);
    if Occurs(s, " hours ", p + n) {
      OccursConcat(s, h, " hours ", p);
    } else {
      OccursConcat(s, h, " hour ", p);
    }
  }

  /** The tail consumed with the hours group. */
  lemma WithHoursSound(s: string, p: nat)
    requires p <= |s| && WithHoursAt(s, p).Some?
    ensures var g := WithHoursAt(s, p).value;
      WellFormed(g) && g.hours.Some? && (Occurs(s, TailText(g, true), p) || Occurs(s, TailText(g, false), p))
  {
    var (h, q) := HoursGroup(s, p).value;
    var m := MinutesGroup(s, q).value;
    HoursGroupSound(s, p);
    MinutesGroupSound(s, q);
    if Occurs(s, h + " hours ", p) && q == p + |h| + 7 {
      OccursConcat(s, h + " hours ", m + " minute", p);
    } else {
      OccursConcat(s, h + " hour ", m + " minute", p);
    }
  }

  /** The tail consumed without the hours group. */
  lemma WithoutHoursSound(s: string, p: nat)
    requires p <= |s| && WithoutHoursAt(s, p).Some?
    ensures var g := WithoutHoursAt(s, p).value;
      WellFormed(g) && g.hours.None? && Occurs(s, TailText(g, true), p)
  {
    var g := WithoutHoursAt(s, p).value;
    MinutesGroupSound(s, p);
    assert TailText(g, true) == g.minutes + " minute";
  }

  lemma MatchTailSound(s: string, p: nat)
    requires p <= |s| && MatchTailAt(s, p).Some?
    ensures var g := MatchTailAt(s, p).value;
      WellFormed(g) && (Occurs(s, TailText(g, true), p) || Occurs(s, TailText(g, false), p))
  {
    if WithHoursAt(s, p).Some? {
      WithHoursSound(s, p);
    } else {
      WithoutHoursSound(s, p);
    }
  }

  lemma MatchLeadSound(s: string, lead: string, i: nat)
    requires i <= |s| && MatchLeadAt(s, lead, i).Some?
    ensures var g := MatchLeadAt(s, lead, i).value;
      WellFormed(g) && (Occurs(s, lead + TailText(g, true), i) || Occurs(s, lead + TailText(g, false), i))
  {
    var g := MatchLeadAt(s, lead, i).value;
    MatchTailSound(s, i + |lead|);
    if Occurs(s, TailText(g, true), i + |lead|) {
      OccursConcat(s, lead, TailText(g, true), i);
    } else {
      OccursConcat(s, lead, TailText(g, false), i);
    }
  }

  /** A match consumes the text of its groups at its start, and its groups are digit strings. */
  lemma MatchAgeSound(s: string, i: nat)
    requires i <= |s| && MatchAgeAt(s, i).Some?
    ensures WellFormed(MatchAgeAt(s, i).value)
    ensures Occurs(s, MatchedText(MatchAgeAt(s, i).value, true), i) || Occurs(s, MatchedText(MatchAgeAt(s, i).value, false), i)
  {
    MatchLeadSound(s, AgePrefix, i);
  }

  /** Digits followed by " minute" are a `(\d+) minutes?` group. */
  lemma MinutesGroupComplete(s: string, p: nat, m: string)
    requires |m| > 0 && AllDigits(m) && Occurs(s, m + " minute", p)
    ensures MinutesGroup(s, p) == Some(m)
  {
    OccursSplit(s, m, " minute", p);
    assert s[p + |m|] == s[p + |m|..p + |m| + 7][0];
    DigitRunOf(s, p, m);
  }

  /** Digits followed by " hour" and an optional "s" and a space are a `(\d+) hours? ` group. */
  lemma HoursGroupComplete(s: string, p: nat, h: string, pluralHours: bool)
    requires |h| > 0 && AllDigits(h)
    requires Occurs(s, h + (if pluralHours then " hours " else " hour "), p)
    ensures HoursGroup(s, p) == Some((h, p + |h| + if pluralHours then 7 else 6))
  {
    var mid := if pluralHours then " hours " else " hour ";
    OccursSplit(s, h, mid, p);
    assert s[p + |h|] == s[p + |h|..p + |h| + |mid|][0];
    DigitRunOf(s, p, h);
    if !pluralHours {
      assert s[p + |h| + 5] == s[p + |h|..p + |h| + 6][5];
      assert !Occurs(s, " hours ", p + |h|);
    }
  }

  /** Minutes text is never an hours group: " minute" is not " hour". */
  lemma NoHoursBeforeMinute(s: string, p: nat, m: string)
    requires |m| > 0 && AllDigits(m) && Occurs(s, m + " minute", p)
    ensures HoursGroup(s, p).None?
  {
    OccursSplit(s, m, " minute", p);
    assert s[p + |m|] == s[p + |m|..p + |m| + 7][0];
    DigitRunOf(s, p, m);
    assert s[p + |m| + 1] == s[p + |m|..p + |m| + 7][1];
  }

  lemma WithHoursComplete(s: string, p: nat, h: string, m: string, pluralHours: bool)
    requires |h| > 0 && AllDigits(h) && |m| > 0 && AllDigits(m)
    requires Occurs(s, h + (if pluralHours then " hours " else " hour ") + (m + " minute"), p)
    ensures WithHoursAt(s, p) == Some(AgeGroups(Some(h), m))
  {
    var mid := if pluralHours then " hours " else " hour ";
    var q := p + |h + mid|;
    OccursSplit(s, h + mid, m + " minute", p);
    HoursGroupComplete(s, p, h, pluralHours);
    assert HoursGroup(s, p) == Some((h, q));
    MinutesGroupComplete(s, q, m);
    assert MinutesGroup(s, q) == Some(m);
  }

  /** Every occurrence of the tail's text is matched by the tail, with exactly its groups. */
  lemma MatchTailComplete(s: string, p: nat, g: AgeGroups, pluralHours: bool)
    requires WellFormed(g) && Occurs(s, TailText(g, pluralHours), p)
    ensures MatchTailAt(s, p) == Some(g)
  {
    var m := g.minutes;
    match g.hours
    case None =>
      assert TailText(g, pluralHours) == m + " minute";
      NoHoursBeforeMinute(s, p, m);
      MinutesGroupComplete(s, p, m);
    case Some(h) =>
      WithHoursComplete(s, p, h, m, pluralHours);
  }

  lemma MatchLeadComplete(s: string, lead: string, i: nat, g: AgeGroups, pluralHours: bool)
    requires WellFormed(g) && Occurs(s, lead + TailText(g, pluralHours), i)
    ensures MatchLeadAt(s, lead, i) == Some(g)
  {
    OccursSplit(s, lead, TailText(g, pluralHours), i);
    MatchTailComplete(s, i + |lead|, g, pluralHours);
  }

  /** Every occurrence of the pattern's text is matched, with exactly its groups. */
  lemma MatchAgeComplete(s: string, i: nat, g: AgeGroups, pluralHours: bool)
    requires WellFormed(g) && Occurs(s, MatchedText(g, pluralHours), i)
    ensures MatchAgeAt(s, i) == Some(g)
  {
    MatchLeadComplete(s, AgePrefix, i, g, pluralHours);
  }

  /** The outcome of one chat line, in the order the plugin tests for them. */
  datatype ChatEvent =
    | Fed
    | Stroked
    | PlayedWithWool
    | AgeReported(hoursLeft: int, minutesLeft: int)
    | AgeUnreadable
    | Unrecognised

  predicate MentionsFeeding(msg: string) { Contains(msg, MilkText) || Contains(msg, FishText) }

  predicate MentionsCare(msg: string)
  {
    MentionsFeeding(msg) || Contains(msg, StrokeText) || Contains(msg, WoolText)
  }

  /** Hours left as the hours group reads, 0 when the group did not take part. */
  function HoursLeft(g: AgeGroups): Option<int>
    requires WellFormed(g)
  {
    match g.hours
    case None => Some(0)
    case Some(h) => ParseInt(h)
  }

  /** The first test that succeeds decides the line. */
  function Classify(msg: string): (e: ChatEvent)
    ensures e == Fed <==> MentionsFeeding(msg)
    ensures e == Stroked <==> !MentionsFeeding(msg) && Contains(msg, StrokeText)
    ensures e == PlayedWithWool <==> !MentionsFeeding(msg) && !Contains(msg, StrokeText) && Contains(msg, WoolText)
    ensures e.AgeReported? || e == AgeUnreadable <==> !MentionsCare(msg) && FindAge(msg).Some?
    ensures e.AgeReported? ==> 0 <= e.hoursLeft <= IntMax && 0 <= e.minutesLeft <= IntMax
  {
    if MentionsFeeding(msg) then Fed
    else if Contains(msg, StrokeText) then Stroked
    else if Contains(msg, WoolText) then PlayedWithWool
    else
      match FindAge(msg)
      case None => Unrecognised
      case Some(found) =>
        FindAgeLeftmost(msg);
        MatchAgeSound(msg, found.start);
        var hours := HoursLeft(found.groups);
        var minutes := ParseInt(found.groups.minutes);
        if hours.None? || minutes.None? then AgeUnreadable
        else AgeReported(hours.value, minutes.value)
  }

  /**
   * A line that starts with the age report and mentions no feeding or
   * petting yields exactly the reported hours and minutes.
   */
  lemma ClassifyAgeReport(hours: nat, minutes: nat, pluralHours: bool, rest: string)
    requires hours <= IntMax && minutes <= IntMax
    requires !MentionsCare(MatchedText(AgeGroups(Some(ToDecimal(hours)), ToDecimal(minutes)), pluralHours) + rest)
    ensures Classify(MatchedText(AgeGroups(Some(ToDecimal(hours)), ToDecimal(minutes)), pluralHours) + rest) == AgeReported(hours, minutes)
  {
    var g := AgeGroups(Some(ToDecimal(hours)), ToDecimal(minutes));
    var msg := MatchedText(g, pluralHours) + rest;
    assert Occurs(msg, MatchedText(g, pluralHours), 0) by { assert msg[..|MatchedText(g, pluralHours)|] == MatchedText(g, pluralHours); }
    MatchAgeComplete(msg, 0, g, pluralHours);
    ParseIntOfToDecimal(hours);
    ParseIntOfToDecimal(minutes);
  }

  /**
   * An age report anywhere in a line that mentions no feeding or petting,
   * with no earlier start at which the pattern matches: the line yields the report's hours
   * (zero without the group) and minutes, or is unreadable when either
   * number does not fit in an `int`.
   */
  lemma ClassifyAgeAnywhere(pre: string, g: AgeGroups, pluralHours: bool, rest: string)
    requires WellFormed(g)
    requires var msg := pre + MatchedText(g, pluralHours) + rest;
      !MentionsCare(msg) && forall j | 0 <= j < |pre| :: MatchAgeAt(msg, j).None?
    ensures var msg := pre + MatchedText(g, pluralHours) + rest;
      Classify(msg)
      == if HoursLeft(g).Some? && ParseInt(g.minutes).Some?
         then AgeReported(HoursLeft(g).value, ParseInt(g.minutes).value)
         else AgeUnreadable
  {
    var t := MatchedText(g, pluralHours);
    var msg := pre + t + rest;
    assert Occurs(msg, t, |pre|) by { assert msg[|pre|..|pre| + |t|] == t; }
    MatchAgeComplete(msg, |pre|, g, pluralHours);
    FindAgeLeftmost(msg);
    assert FindAge(msg).value.start == |pre|;
  }

  /** Without the hours group the hours default to zero. */
  lemma ClassifyMinutesOnly(minutes: nat, rest: string)
    requires minutes <= IntMax
    requires !MentionsCare(MatchedText(AgeGroups(None, ToDecimal(minutes)), true) + rest)
    ensures Classify(MatchedText(AgeGroups(None, ToDecimal(minutes)), true) + rest) == AgeReported(0, minutes)
  {
    var g := AgeGroups(None, ToDecimal(minutes));
    var msg := MatchedText(g, true) + rest;
    assert Occurs(msg, MatchedText(g, true), 0) by { assert msg[..|MatchedText(g, true)|] == MatchedText(g, true); }
    MatchAgeComplete(msg, 0, g, true);
    ParseIntOfToDecimal(minutes);
  }

  /** A minutes count too large for an `int` makes the report unreadable. */
  lemma ClassifyMinutesOverflow(minutes: string, rest: string)
    requires |minutes| > 0 && AllDigits(minutes) && Value(minutes) > IntMax
    requires !MentionsCare(MatchedText(AgeGroups(None, minutes), true) + rest)
    ensures Classify(MatchedText(AgeGroups(None, minutes), true) + rest) == AgeUnreadable
  {
    var g := AgeGroups(None, minutes);
    var msg := MatchedText(g, true) + rest;
    assert Occurs(msg, MatchedText(g, true), 0) by { assert msg[..|MatchedText(g, true)|] == MatchedText(g, true); }
    MatchAgeComplete(msg, 0, g, true);
  }
}
