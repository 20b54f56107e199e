/**
 * The zone chip (ZoneChip.tsx): what it derives from an entitlement --
 * whether a time window exists and is shown, whether reentries are left, and
 * the remaining count it displays.
 */
module ZoneChip {
  import opened Common

  datatype TimeWindow = TimeWindow(start: string, end: string)

  /** The optional, nullable `timeWindow` field: left out (`undefined`), `null`, or a window. */
  datatype WindowField = Missing | NullWindow | Present(window: TimeWindow)

  /** `Entitlement`, with `reentryLimit == 0` meaning unlimited. */
  datatype Entitlement = Entitlement(
    zoneId: string,
    zoneName: string,
    reentryLimit: int,
    reentryUsed: int,
    timeWindow: WindowField)

  /** `hasTimeWindow`: `timeWindow !== null`, so also true when the field is left out. */
  predicate HasTimeWindow(e: Entitlement): (b: bool)
    ensures b <==> e.timeWindow.Missing? || e.timeWindow.Present?
  {
    e.timeWindow != NullWindow
  }

  /** `hasReentryLeft`: unlimited, or fewer used than the limit. */
  predicate HasReentryLeft(e: Entitlement): (b: bool)
    ensures e.reentryLimit == 0 ==> b
    ensures e.reentryLimit != 0 ==> (b <==> e.reentryLimit - e.reentryUsed > 0)
  {
    e.reentryLimit == 0 || e.reentryUsed < e.reentryLimit
  }

  /** The window the chip renders, under the guard `hasTimeWindow && timeWindow`. */
  function ShownTimeWindow(e: Entitlement): (w: Option<TimeWindow>)
    ensures w.Some? ==> HasTimeWindow(e)
  {
    if HasTimeWindow(e) && e.timeWindow.Present? then Some(e.timeWindow.window) else None
  }

  /** The counter the chip renders as `remaining/limit`. */
  datatype Counter = Counter(remaining: int, limit: int)

  /** The counter, shown only for a positive limit. */
  function ShownReentries(e: Entitlement): (c: Option<Counter>)
    ensures c.Some? ==> c.value.limit == e.reentryLimit
  {
    if e.reentryLimit > 0 then Some(Counter(e.reentryLimit - e.reentryUsed, e.reentryLimit)) else None
  }

  /** A limit of 0 means unlimited: reentries are always left. */
  lemma UnlimitedReentry(e: Entitlement)
    requires e.reentryLimit == 0
    ensures HasReentryLeft(e) && ShownReentries(e).None?
  {
  }

  /** With a positive limit, reentries are left exactly while fewer than the limit were used, which is when the counter shows more than zero. */
  lemma LimitedReentry(e: Entitlement)
    requires e.reentryLimit > 0
    ensures HasReentryLeft(e) <==> e.reentryUsed < e.reentryLimit
    ensures ShownReentries(e) == Some(Counter(e.reentryLimit - e.reentryUsed, e.reentryLimit))
    ensures HasReentryLeft(e) <==> ShownReentries(e).value.remaining > 0
  {
  }

  /** The counter appears exactly for a positive limit. */
  lemma CounterShownIffLimited(e: Entitlement)
    ensures ShownReentries(e).Some? <==> e.reentryLimit > 0
  {
  }

  /**
   * The window is shown exactly when one is present; `hasTimeWindow` alone
   * also holds for a field left out, which the second half of the guard
   * filters away.
   */
  lemma WindowShownIffPresent(e: Entitlement)
    ensures ShownTimeWindow(e).Some? <==> e.timeWindow.Present?
    ensures e.timeWindow.Present? ==> ShownTimeWindow(e) == Some(e.timeWindow.window)
    ensures e.timeWindow == Missing ==> HasTimeWindow(e) && ShownTimeWindow(e).None?
  {
  }

  /** The three entitlements of the sample ticket, and what the chip shows for each. */
  lemma SampleEntitlements()
    ensures var vip := Entitlement("Z-VIP", "VIP", 1, 0, Present(TimeWindow("18:00", "22:00")));
            HasReentryLeft(vip) && ShownReentries(vip) == Some(Counter(1, 1))
    ensures var backstage := Entitlement("Z-BSTG", "Backstage", 0, 0, NullWindow);
            HasReentryLeft(backstage) && ShownReentries(backstage).None? && ShownTimeWindow(backstage).None?
    ensures var press := Entitlement("Z-PRESS", "Prensa", 3, 1, Present(TimeWindow("17:00", "23:00")));
            HasReentryLeft(press) && ShownReentries(press) == Some(Counter(2, 3))
  {
  }
}
