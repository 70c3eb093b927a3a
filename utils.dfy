/**
  The pure helpers of src/lib/utils.ts: the pickup-time display, text
  truncation, the order-status badge and the unit-price rule.
 */
module Utils {
  import opened Common
  import opened Types

  // ---------------------------------------------------------------------
  // formatTime: "HH:MM:SS" -> "8:00 AM"
  // ---------------------------------------------------------------------

  /** The first field of `s.split(':')`. */
  function BeforeColon(s: string): (r: string)
    ensures r <= s
    ensures ':' !in r
    ensures |r| < |s| ==> s[|r|] == ':'
  {
    if s == [] || s[0] == ':' then [] else [s[0]] + BeforeColon(s[1..])
  }

  /** What follows the first ':' of `s`, if there is one. */
  function AfterColon(s: string): (r: Option<string>)
    ensures r.Some? <==> ':' in s
    ensures r.Some? ==> s == BeforeColon(s) + ":" + r.value
  {
    if s == [] then None
    else if s[0] == ':' then Some(s[1..])
    else match AfterColon(s[1..])
      case None => None
      case Some(rest) => Some(rest)
  }

  /** The first field is what precedes the first ':'. */
  lemma {:induction false} SplitAtFirstColon(a: string, b: string)
    requires ':' !in a
    ensures BeforeColon(a + ":" + b) == a
    ensures AfterColon(a + ":" + b) == Some(b)
  {
    if a != [] {
      assert (a + ":" + b)[1..] == a[1..] + ":" + b;
      SplitAtFirstColon(a[1..], b);
    } else {
      assert a + ":" + b == ":" + b;
    }
  }

  /** `hours % 12 || 12`. */
  function Hour12(h: nat): (r: nat)
    ensures 1 <= r <= 12
    ensures r % 12 == h % 12
  {
    if h % 12 == 0 then 12 else h % 12
  }

  function Meridiem(h: nat): string {
    if h >= 12 then "PM" else "AM"
  }

  /** The display of hours and minutes: unpadded 12-hour clock, padded minutes, AM/PM. */
  function FormatClock(h: nat, m: nat): string {
    NatToString(Hour12(h)) + ":" + PadStart2(m) + " " + Meridiem(h)
  }

  /**
    `formatTime(time)`. The first two ':'-separated fields are read as numbers
    and any third field (the seconds) is ignored. The model formats only
    inputs whose two fields are strings of digits and returns None for the
    rest. JavaScript formats those too: a non-numeric hour shows as 12 (as
    `NaN % 12 || 12` is 12), a non-numeric minute as "NaN", a missing minutes
    field as "undefined", and `Number` also reads signs, decimals and
    surrounding whitespace.
   */
  function FormatTime(time: string): (r: Option<string>)
    ensures r.Some? <==>
      && AfterColon(time).Some?
      && AllDigits(BeforeColon(time))
      && AllDigits(BeforeColon(AfterColon(time).value))
  {
    var hs := BeforeColon(time);
    match AfterColon(time)
    case None => None
    case Some(rest) =>
      var ms := BeforeColon(rest);
      if AllDigits(hs) && AllDigits(ms) then Some(FormatClock(ParseNat(hs), ParseNat(ms))) else None
  }

  /**
    The display can be read back: its hour field is the 12-hour value, its
    minute field the minutes, and it ends in PM exactly for hours 12 and later.
   */
  lemma FormatClockReadsBack(h: nat, m: nat)
    ensures var r := FormatClock(h, m);
      && BeforeColon(r) == NatToString(Hour12(h))
      && ParseNat(BeforeColon(r)) == Hour12(h)
      && AfterColon(r) == Some(PadStart2(m) + " " + Meridiem(h))
      && ParseNat(PadStart2(m)) == m
      && (r[|r| - 2..] == "PM" <==> h >= 12)
      && (r[|r| - 2..] == "AM" <==> h < 12)
  {
    var r := FormatClock(h, m);
    assert r == NatToString(Hour12(h)) + ":" + (PadStart2(m) + " " + Meridiem(h));
    SplitAtFirstColon(NatToString(Hour12(h)), PadStart2(m) + " " + Meridiem(h));
    ParseNatToString(Hour12(h));
    ParsePadStart2(m);
    assert r[|r| - 2..] == Meridiem(h);
  }

  /**
    A zero-padded "HH:MM:SS" time, as the slot routes store it, formats as the
    clock display of its hours and minutes; the seconds play no part.
   */
  lemma FormatPaddedTime(h: nat, m: nat, s: nat)
    ensures FormatTime(PadStart2(h) + ":" + PadStart2(m) + ":" + PadStart2(s)) == Some(FormatClock(h, m))
  {
    var time := PadStart2(h) + ":" + PadStart2(m) + ":" + PadStart2(s);
    assert time == PadStart2(h) + ":" + (PadStart2(m) + ":" + PadStart2(s));
    SplitAtFirstColon(PadStart2(h), PadStart2(m) + ":" + PadStart2(s));
    SplitAtFirstColon(PadStart2(m), PadStart2(s));
    ParsePadStart2(h);
    ParsePadStart2(m);
  }

  // ---------------------------------------------------------------------
  // truncate
  // ---------------------------------------------------------------------

  const Ellipsis: char := '\U{2026}'

  /** `s.slice(0, n)`: a negative end counts from the end of the string. */
  function SliceTo(s: string, n: int): (r: string)
    ensures r <= s
    ensures 0 <= n <= |s| ==> |r| == n
  {
    if n >= 0 then (if n <= |s| then s[..n] else s)
    else if |s| + n > 0 then s[..|s| + n]
    else []
  }

  /** `truncate(s, n)`. */
  function Truncate(s: string, n: int): (r: string)
    ensures |s| <= n ==> r == s
    ensures |s| > n ==> |r| >= 1
    ensures |s| > n ==> r[..|r| - 1] <= s && r[|r| - 1] == Ellipsis
    ensures 0 <= n < |s| ==> |r| == n + 1 && r[..n] == s[..n]
    ensures |r| <= |s| + 1
  {
    if |s| > n then SliceTo(s, n) + [Ellipsis] else s
  }

  // ---------------------------------------------------------------------
  // getOrderStatusInfo
  // ---------------------------------------------------------------------

  datatype StatusInfo = StatusInfo(caption: string, color: string, bg: string)

  function KnownStatusInfo(s: OrderStatus): StatusInfo {
    match s
    case Pending => StatusInfo("Pending", "text-yellow-400", "bg-yellow-400/10")
    case Confirmed => StatusInfo("Confirmed", "text-blue-400", "bg-blue-400/10")
    case Preparing => StatusInfo("Preparing", "text-orange-400", "bg-orange-400/10")
    case Ready => StatusInfo("Ready! \U{1F389}", "text-green-400", "bg-green-400/10")
    case Completed => StatusInfo("Completed", "text-text-muted", "bg-surface-2")
    case Cancelled => StatusInfo("Cancelled", "text-red-400", "bg-red-400/10")
    case Refunded => StatusInfo("Refunded", "text-purple-400", "bg-purple-400/10")
  }

  /** The status whose stored name is `name`, if any. */
  function ParseStatus(name: string): (r: Option<OrderStatus>)
    ensures r.Some? ==> StatusName(r.value) == name
    ensures r.None? ==> forall s: OrderStatus :: StatusName(s) != name
  {
    if name == "pending" then Some(Pending)
    else if name == "confirmed" then Some(Confirmed)
    else if name == "preparing" then Some(Preparing)
    else if name == "ready" then Some(Ready)
    else if name == "completed" then Some(Completed)
    else if name == "cancelled" then Some(Cancelled)
    else if name == "refunded" then Some(Refunded)
    else None
  }

  /** `getOrderStatusInfo(status)`: the badge of a known status, else the status itself in muted colours. */
  function GetOrderStatusInfo(status: string): (r: StatusInfo)
    ensures forall s: OrderStatus :: status == StatusName(s) ==> r == KnownStatusInfo(s)
    ensures (forall s: OrderStatus :: status != StatusName(s)) ==>
      r == StatusInfo(status, "text-text-muted", "bg-surface-2")
  {
    match ParseStatus(status)
    case Some(s) => KnownStatusInfo(s)
    case None => StatusInfo(status, "text-text-muted", "bg-surface-2")
  }

  /**
    The label repeats the status text exactly when the status is unknown, and
    the seven known statuses carry seven different labels.
   */
  lemma StatusLabels(status: string)
    ensures GetOrderStatusInfo(status).caption == status <==> ParseStatus(status).None?
    ensures forall s, t: OrderStatus :: s != t ==> KnownStatusInfo(s).caption != KnownStatusInfo(t).caption
  {
  }

  // ---------------------------------------------------------------------
  // calcUnitPrice
  // ---------------------------------------------------------------------

  /** `calcUnitPrice`: the price of one unit of a cart line. */
  function CalcUnitPrice(basePrice: int, variantDelta: int, addOnsTotal: int): int {
    basePrice + variantDelta + addOnsTotal
  }
}
