/** The relative timestamps of the social pages: whole minutes elapsed, shown as
    "agora", minutes, hours or days. */
module TimeAgo {
  import opened Wrappers
  import opened Text

  /** `Math.floor(elapsedMs / (1000 * 60))`. */
  function DiffInMinutes(elapsedMs: int): (m: int)
    ensures 60000 * m <= elapsedMs < 60000 * m + 60000
  {
    elapsedMs / 60000
  }

  datatype Ago = Now | Minutes(minutes: int) | Hours(hours: int) | Days(days: int)

  /** The bucket a minute count falls in. */
  function Classify(diffInMinutes: int): (a: Ago)
    ensures a.Now? <==> diffInMinutes < 1
    ensures a.Minutes? <==> 1 <= diffInMinutes < 60
    ensures a.Hours? <==> 60 <= diffInMinutes < 1440
    ensures a.Minutes? ==> a.minutes == diffInMinutes
    ensures a.Hours? ==> 1 <= a.hours < 24 && 60 * a.hours <= diffInMinutes < 60 * a.hours + 60
    ensures a.Days? ==> a.days >= 1 && 1440 * a.days <= diffInMinutes < 1440 * a.days + 1440
  {
    if diffInMinutes < 1 then Now
    else if diffInMinutes < 60 then Minutes(diffInMinutes)
    else if diffInMinutes < 1440 then Hours(diffInMinutes / 60)
    else Days(diffInMinutes / 1440)
  }

  /** The unit's order: now, minutes, hours, days. */
  function Rank(a: Ago): nat {
    match a
    case Now => 0
    case Minutes(_) => 1
    case Hours(_) => 2
    case Days(_) => 3
  }

  /** Later is never shown in a smaller unit or with a smaller count of the same unit. */
  lemma ClassifyMonotone(x: int, y: int)
    requires x <= y
    ensures Rank(Classify(x)) <= Rank(Classify(y))
    ensures Classify(x).Hours? && Classify(y).Hours? ==> Classify(x).hours <= Classify(y).hours
    ensures Classify(x).Days? && Classify(y).Days? ==> Classify(x).days <= Classify(y).days
  {
  }

  /** The text shown; `minuteSuffix` is "min" on the feed and "m" elsewhere. */
  function Render(a: Ago, minuteSuffix: string): string
    requires !a.Now? ==> (if a.Minutes? then a.minutes else if a.Hours? then a.hours else a.days) >= 0
  {
    match a
    case Now => "agora"
    case Minutes(m) => NatToString(m) + minuteSuffix
    case Hours(h) => NatToString(h) + "h"
    case Days(d) => NatToString(d) + "d"
  }

  /** `formatDate(...)` for a minute count. */
  function FormatAgo(diffInMinutes: int, minuteSuffix: string): (text: string)
    ensures diffInMinutes < 1 <==> text == "agora"
    ensures 60 <= diffInMinutes < 1440 ==> |text| >= 2 && text[|text| - 1] == 'h'
    ensures diffInMinutes >= 1440 ==> |text| >= 2 && text[|text| - 1] == 'd'
  {
    var text := Render(Classify(diffInMinutes), minuteSuffix);
    assert diffInMinutes < 1 || IsDigit(text[0]);
    text
  }

  /** The number in front of a suffix that does not start with a digit. */
  lemma {:induction false} LeadingDigitsBeforeSuffix(n: string, suffix: string)
    requires AllDigits(n)
    requires suffix != [] && !IsDigit(suffix[0])
    ensures LeadingDigits(n + suffix) == n
  {
    if n == [] {
      assert n + suffix == suffix;
    } else {
      assert (n + suffix)[1..] == n[1..] + suffix;
      LeadingDigitsBeforeSuffix(n[1..], suffix);
    }
  }

  /** Reading the number back from the text gives the count of the bucket's unit:
      the minutes themselves, the whole hours, or the whole days. */
  lemma FormatAgoShowsCount(diffInMinutes: int, minuteSuffix: string)
    requires minuteSuffix != [] && !IsDigit(minuteSuffix[0])
    ensures diffInMinutes < 1 ==> FormatAgo(diffInMinutes, minuteSuffix) == "agora"
    ensures 1 <= diffInMinutes < 60 ==> ParseInt(FormatAgo(diffInMinutes, minuteSuffix)) == Some(diffInMinutes)
    ensures 60 <= diffInMinutes < 1440 ==> ParseInt(FormatAgo(diffInMinutes, minuteSuffix)) == Some(diffInMinutes / 60)
    ensures 1440 <= diffInMinutes ==> ParseInt(FormatAgo(diffInMinutes, minuteSuffix)) == Some(diffInMinutes / 1440)
  {
    var a := Classify(diffInMinutes);
    if !a.Now? {
      var k: nat := if a.Minutes? then a.minutes else if a.Hours? then a.hours else a.days;
      var sfx := if a.Minutes? then minuteSuffix else if a.Hours? then "h" else "d";
      assert FormatAgo(diffInMinutes, minuteSuffix) == NatToString(k) + sfx;
      LeadingDigitsBeforeSuffix(NatToString(k), sfx);
      NatToStringValue(k);
      assert NatToString(k)[0] != '-' && NatToString(k)[0] != '+';
      assert (NatToString(k) + sfx)[0] == NatToString(k)[0];
    }
  }
}
