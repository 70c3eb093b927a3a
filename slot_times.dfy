/**
  Times of day as the slot routes write them: "HH:MM" for the current time
  (src/app/api/slots/route.ts) and "HH:MM:SS" for slot times, both zero
  padded. The routes compare these strings with JavaScript's `<`; the lemmas
  here show that on padded times this is the numeric order. The template
  generator of src/app/api/admin/slots/init/route.ts lives here too.
 */
module SlotTimes {
  import opened Common

  /** The route's `currentTime`: zero-padded "HH:MM". */
  function Clock(h: nat, m: nat): string {
    PadStart2(h) + ":" + PadStart2(m)
  }

  /** A zero-padded "HH:MM:SS" slot time. */
  function SlotTime(h: nat, m: nat, s: nat): string {
    Clock(h, m) + ":" + PadStart2(s)
  }

  /** When two prefixes of equal length differ, they alone decide the comparison. */
  lemma {:induction false} EqualLengthPrefix(p: string, q: string, x: string, y: string)
    requires |p| == |q| && p != q
    ensures LexLess(p + x, q + y) <==> LexLess(p, q)
  {
    if p[0] == q[0] {
      assert p == [p[0]] + p[1..] && q == [q[0]] + q[1..];
      assert (p + x)[1..] == p[1..] + x && (q + y)[1..] == q[1..] + y;
      EqualLengthPrefix(p[1..], q[1..], x, y);
    }
  }

  /** Padded numbers below 100 are two characters long and compare as the numbers do. */
  lemma PaddedOrder(a: nat, b: nat)
    requires a < 100 && b < 100
    ensures |PadStart2(a)| == 2
    ensures PadStart2(a) == PadStart2(b) <==> a == b
    ensures LexLess(PadStart2(a), PadStart2(b)) <==> a < b
  {
    PadStart2Digits(a);
    PadStart2Digits(b);
    var s, t := PadStart2(a), PadStart2(b);
    assert a == 10 * (a / 10) + a % 10 && b == 10 * (b / 10) + b % 10;
    if a / 10 == b / 10 {
      assert s[1..] == [DigitChar(a % 10)] && t[1..] == [DigitChar(b % 10)];
      assert LexLess(s, t) == LexLess(s[1..], t[1..]);
      assert LexLess(s[1..], t[1..]) <==> a % 10 < b % 10;
    }
  }

  /**
    The slot filter's comparison: the current minute "HH:MM" is below a slot
    time "hh:mm:ss" exactly when the slot is at or after the current minute.
    In particular a slot at the current minute is kept.
   */
  lemma CurrentTimeBeforeSlot(h: nat, m: nat, sh: nat, sm: nat, ss: nat)
    requires h < 100 && m < 100 && sh < 100 && sm < 100 && ss < 100
    ensures LexLess(Clock(h, m), SlotTime(sh, sm, ss)) <==> h < sh || (h == sh && m <= sm)
  {
    var a, b, c, d, e := PadStart2(h), PadStart2(m), PadStart2(sh), PadStart2(sm), PadStart2(ss);
    PaddedOrder(h, sh);
    PaddedOrder(m, sm);
    PaddedOrder(sh, h);
    assert Clock(h, m) == a + (":" + b);
    assert SlotTime(sh, sm, ss) == c + (":" + d + ":" + e);
    if h != sh {
      EqualLengthPrefix(a, c, ":" + b, ":" + d + ":" + e);
    } else {
      assert Clock(h, m) == (a + ":") + b;
      assert SlotTime(sh, sm, ss) == (a + ":") + (d + (":" + e));
      LexLessCommonPrefix(a + ":", b, d + (":" + e));
      if m != sm {
        assert b == b + [];
        EqualLengthPrefix(b, d, [], ":" + e);
      } else {
        LexLessProperPrefix(b, ":" + e);
      }
    }
  }

  /** Slot times with equal seconds compare as (hours, minutes) pairs. */
  lemma SlotTimeOrder(h1: nat, m1: nat, h2: nat, m2: nat, s: nat)
    requires h1 < 100 && m1 < 100 && h2 < 100 && m2 < 100 && s < 100
    ensures LexLess(SlotTime(h1, m1, s), SlotTime(h2, m2, s)) <==> h1 < h2 || (h1 == h2 && m1 < m2)
  {
    var a, b, c, d, e := PadStart2(h1), PadStart2(m1), PadStart2(h2), PadStart2(m2), PadStart2(s);
    PaddedOrder(h1, h2);
    PaddedOrder(m1, m2);
    PaddedOrder(h2, h1);
    assert SlotTime(h1, m1, s) == a + (":" + b + ":" + e);
    assert SlotTime(h2, m2, s) == c + (":" + d + ":" + e);
    if h1 != h2 {
      EqualLengthPrefix(a, c, ":" + b + ":" + e, ":" + d + ":" + e);
    } else {
      assert SlotTime(h1, m1, s) == (a + ":") + (b + (":" + e));
      assert SlotTime(h2, m2, s) == (a + ":") + (d + (":" + e));
      LexLessCommonPrefix(a + ":", b + (":" + e), d + (":" + e));
      if m1 != m2 {
        EqualLengthPrefix(b, d, ":" + e, ":" + e);
      } else {
        LexLessIrreflexive(b + (":" + e));
      }
    }
  }

  // ---------------------------------------------------------------------
  // Template generation: 08:00:00 to 22:00:00 every 15 minutes
  // ---------------------------------------------------------------------

  const SlotCount: nat := 57

  /** The i-th generated time: hour 8 + i / 4, minute 15 * (i % 4), seconds 00. */
  function TimeAt(i: nat): string {
    SlotTime(8 + i / 4, (i % 4) * 15, 0)
  }

  /** A template as the init route builds it, before the table assigns it an id. */
  datatype SlotDraft = SlotDraft(cafeId: string, slotTime: string, maxOrders: int, isActive: bool)

  /** The template set the init route generates for a café. */
  function Drafts(cafeId: string): (r: seq<SlotDraft>)
    ensures |r| == SlotCount
  {
    seq(SlotCount, i requires 0 <= i < SlotCount => SlotDraft(cafeId, TimeAt(i), 10, true))
  }

  /**
    The init route's `while` loop: `hour` and `minute` start at 8:00 and
    advance by 15 minutes, wrapping at 60, while the time is before 22:00 or
    exactly 22:00.
   */
  method GenerateTemplates(cafeId: string) returns (slots: seq<SlotDraft>)
    ensures slots == Drafts(cafeId)
  {
    slots := [];
    var hour: nat, minute: nat := 8, 0;
    while hour < 22 || (hour == 22 && minute == 0)
      invariant |slots| <= SlotCount
      invariant hour == 8 + |slots| / 4 && minute == (|slots| % 4) * 15
      invariant slots == Drafts(cafeId)[..|slots|]
      decreases SlotCount - |slots|
    {
      var timeStr := PadStart2(hour) + ":" + PadStart2(minute) + ":00";
      LoopGuard(|slots|);
      TimeAtIs(|slots|, hour, minute);
      NextQuarter(|slots|);
      NextDraft(cafeId, |slots|);
      slots := slots + [SlotDraft(cafeId, timeStr, 10, true)];
      minute := minute + 15;
      if minute >= 60 {
        minute := minute - 60;
        hour := hour + 1;
      }
    }
    LoopExit(|slots|);
  }

  /** The drafts up to step n + 1 are those up to step n and the draft of step n. */
  lemma NextDraft(cafeId: string, n: nat)
    requires n < SlotCount
    ensures Drafts(cafeId)[..n + 1] == Drafts(cafeId)[..n] + [SlotDraft(cafeId, TimeAt(n), 10, true)]
  {
  }

  /** The string the loop builds from `hour` and `minute` is the time of its step. */
  lemma TimeAtIs(n: nat, hour: nat, minute: nat)
    requires hour == 8 + n / 4 && minute == (n % 4) * 15
    ensures PadStart2(hour) + ":" + PadStart2(minute) + ":00" == TimeAt(n)
  {
    assert PadStart2(0) == "00";
  }

  /** One step of the loop: 15 minutes later, carrying into the hour at 60. */
  lemma NextQuarter(n: nat)
    ensures (n % 4) * 15 + 15 >= 60 ==> 8 + (n + 1) / 4 == 8 + n / 4 + 1 && ((n + 1) % 4) * 15 == (n % 4) * 15 + 15 - 60
    ensures (n % 4) * 15 + 15 < 60 ==> 8 + (n + 1) / 4 == 8 + n / 4 && ((n + 1) % 4) * 15 == (n % 4) * 15 + 15
  {
  }

  /** While the loop runs, fewer than 57 templates exist. */
  lemma LoopGuard(n: nat)
    requires 8 + n / 4 < 22 || (8 + n / 4 == 22 && (n % 4) * 15 == 0)
    ensures n < SlotCount
  {
  }

  /** The loop stops after exactly 57 templates. */
  lemma LoopExit(n: nat)
    requires n <= SlotCount
    requires !(8 + n / 4 < 22 || (8 + n / 4 == 22 && (n % 4) * 15 == 0))
    ensures n == SlotCount
  {
  }

  /** Generated times run from "08:00:00" to "22:00:00". */
  lemma TimeBounds()
    ensures TimeAt(0) == "08:00:00"
    ensures TimeAt(SlotCount - 1) == "22:00:00"
  {
    assert PadStart2(8) == "08" && PadStart2(0) == "00" && PadStart2(22) == "22";
  }

  /** Every generated time is a padded "HH:00:00", "HH:15:00", "HH:30:00" or "HH:45:00" with 8 <= HH <= 22. */
  lemma TimeShape(i: nat)
    requires i < SlotCount
    ensures exists h: nat, m: nat :: 8 <= h <= 22 && m in {0, 15, 30, 45} && TimeAt(i) == SlotTime(h, m, 0)
    ensures |TimeAt(i)| == 8 && TimeAt(i)[2] == ':' && TimeAt(i)[5] == ':' && TimeAt(i)[6..] == "00"
  {
    var h, m := 8 + i / 4, (i % 4) * 15;
    assert m in {0, 15, 30, 45};
    assert TimeAt(i) == SlotTime(h, m, 0);
    PadStart2Digits(h);
    PadStart2Digits(m);
    assert PadStart2(0) == "00";
  }

  /** Generated times are strictly increasing in JavaScript string order. */
  lemma TimesIncreasing(i: nat, j: nat)
    requires i < j < SlotCount
    ensures LexLess(TimeAt(i), TimeAt(j))
  {
    SlotTimeOrder(8 + i / 4, (i % 4) * 15, 8 + j / 4, (j % 4) * 15, 0);
  }
}
