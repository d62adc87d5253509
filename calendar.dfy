/**
 * The ordinal suffix `updateTime` puts after the day of the month
 * (script.js:228-229): "th" for 11, 12 and 13 (modulo 100), otherwise by the
 * last digit, "st", "nd", "rd" or "th".
 */
module Calendar {

  function OrdinalSuffix(day: nat): string
  {
    if 11 <= day % 100 <= 13 then "th"
    else if day % 10 == 1 then "st"
    else if day % 10 == 2 then "nd"
    else if day % 10 == 3 then "rd"
    else "th"
  }

  /** Adding a hundred keeps the last two digits, hence the suffix. */
  lemma NextHundred(day: nat)
    ensures OrdinalSuffix(day + 100) == OrdinalSuffix(day)
  {
    var q, r := day / 100, day % 100;
    assert day + 100 == 100 * (q + 1) + r;
    assert (day + 100) % 100 == r;
    var q', r' := day / 10, day % 10;
    assert day + 100 == 10 * (q' + 10) + r';
    assert (day + 100) % 10 == r';
  }

  /** The suffix depends only on the last two digits of the number. */
  lemma {:induction false} SuffixPeriodic(day: nat, k: nat)
    ensures OrdinalSuffix(day + 100 * k) == OrdinalSuffix(day)
  {
    if k > 0 {
      SuffixPeriodic(day, k - 1);
      NextHundred(day + 100 * (k - 1));
    }
  }

  /**
   * On the days a month has, the suffixes are the English ones: 1st, 21st,
   * 31st; 2nd, 22nd; 3rd, 23rd; every other day "th".
   */
  lemma SuffixOfMonthDays(day: nat)
    requires 1 <= day <= 31
    ensures OrdinalSuffix(day) == "st" <==> day == 1 || day == 21 || day == 31
    ensures OrdinalSuffix(day) == "nd" <==> day == 2 || day == 22
    ensures OrdinalSuffix(day) == "rd" <==> day == 3 || day == 23
    ensures OrdinalSuffix(day) == "th" <==> !(day in {1, 2, 3, 21, 22, 23, 31})
  {
  }
}
