/** Civil dates the way Go's time package computes with them. Months are numbered 12 * year + month - 1,
    as its normalisation of month overflow does. */
module Calendar {
  datatype Civil = Civil(month: int, day: int)

  function DaysIn(p: int): (d: int)
    ensures 28 <= d <= 31
  {
    var year, month := p / 12, p % 12;
    if month == 1 then if year % 4 == 0 && (year % 100 != 0 || year % 400 == 0) then 29 else 28
    else if month in {3, 5, 8, 10} then 30
    else 31
  }

  predicate OnCalendar(c: Civil) { 1 <= c.day <= DaysIn(c.month) }

  /** A day that the month does not have is carried over into the following months. */
  function Normalize(month: int, day: int): Civil
    decreases day
  {
    if day <= DaysIn(month) then Civil(month, day) else Normalize(month + 1, day - DaysIn(month))
  }

  /** `AddDate(0, months, 0)`: the same day of another month, normalised. */
  function AddMonths(c: Civil, months: int): Civil { Normalize(c.month + months, c.day) }

  // ---- The same through the count of days ----

  /** Days before the first of month p. */
  function FirstDay(p: nat): nat {
    if p == 0 then 0 else FirstDay(p - 1) + DaysIn(p - 1)
  }

  function DayNumber(c: Civil): int
    requires 0 <= c.month
  {
    FirstDay(c.month) + c.day - 1
  }

  lemma {:induction false} FirstDayMono(p: nat, q: nat)
    requires p < q
    ensures FirstDay(p) + DaysIn(p) <= FirstDay(q)
  {
    if p < q - 1 { FirstDayMono(p, q - 1); }
  }

  /** A day is one date only. */
  lemma OneDateADay(a: Civil, b: Civil)
    requires 0 <= a.month && 0 <= b.month && OnCalendar(a) && OnCalendar(b) && DayNumber(a) == DayNumber(b)
    ensures a == b
  {
    if a.month < b.month { FirstDayMono(a.month, b.month); }
    if b.month < a.month { FirstDayMono(b.month, a.month); }
  }

  /** Normalising names the same day by a date that exists; with OneDateADay, by the only one. */
  lemma {:induction false} NormalizeSameDay(month: nat, day: int)
    requires 1 <= day
    ensures var c := Normalize(month, day);
            month <= c.month && OnCalendar(c) && DayNumber(c) == FirstDay(month) + day - 1
    decreases day
  {
    if day > DaysIn(month) { NormalizeSameDay(month + 1, day - DaysIn(month)); }
  }

  /** Adding months to a date gives the date of the day counted from the first of the other month. */
  lemma AddMonthsIsTheDate(c: Civil, months: int, d: Civil)
    requires 0 <= c.month + months && OnCalendar(c) && 0 <= d.month && OnCalendar(d)
    ensures d == AddMonths(c, months) <==> DayNumber(d) == FirstDay(c.month + months) + c.day - 1
  {
    hide DaysIn;
    NormalizeSameDay(c.month + months, c.day);
    if DayNumber(d) == FirstDay(c.month + months) + c.day - 1 { OneDateADay(d, AddMonths(c, months)); }
  }

  /** One month back from a date is in the month before exactly when that month has the day; otherwise
      it is in the same month, on one of its first three days. */
  lemma MonthBackExact(c: Civil)
    requires OnCalendar(c)
    ensures AddMonths(c, -1).month == c.month - 1 <==> c.day <= DaysIn(c.month - 1)
    ensures c.day > DaysIn(c.month - 1) ==>
              && AddMonths(c, -1) == Civil(c.month, c.day - DaysIn(c.month - 1))
              && AddMonths(c, -1).day <= 3 && c.day >= 29
  {
    hide DaysIn;
    var over := c.day - DaysIn(c.month - 1);
    if over > 0 {
      assert over <= DaysIn(c.month);
      assert Normalize(c.month - 1, c.day) == Normalize(c.month, over) == Civil(c.month, over);
    }
  }

  /** 31 March of any year less a month is 3 March, or 2 March in a leap year. */
  lemma MarchLessOneMonth(year: int)
    ensures var march := 12 * year + 2;
            OnCalendar(Civil(march, 31)) && AddMonths(Civil(march, 31), -1) == Civil(march, 31 - DaysIn(march - 1))
    ensures DaysIn(12 * 2023 + 1) == 28 && AddMonths(Civil(12 * 2023 + 2, 31), -1) == Civil(12 * 2023 + 2, 3)
    ensures DaysIn(12 * 2024 + 1) == 29 && AddMonths(Civil(12 * 2024 + 2, 31), -1) == Civil(12 * 2024 + 2, 2)
  {
    var march := 12 * year + 2;
    assert march / 12 == year && march % 12 == 2;
    assert (march - 1) / 12 == year && (march - 1) % 12 == 1;
    MonthBackExact(Civil(march, 31));
    MonthBackExact(Civil(12 * 2023 + 2, 31));
    MonthBackExact(Civil(12 * 2024 + 2, 31));
  }
}
