/**
  The two pickup-slot tables and the routes that write them.

  `pickup_slots` holds recurring time-of-day templates per café;
  `slot_availability` holds one row per template and date, created lazily by
  `GET /api/slots` (src/app/api/slots/route.ts) the first time a date is
  asked for. `POST /api/admin/slots/init` (src/app/api/admin/slots/init/route.ts)
  seeds a café's templates. Each `ORDER BY slot_time` is a stable sort by
  JavaScript string order; the outcome of each insert and the clock are
  parameters.
 */
module Slots {
  import opened Common
  import opened Types
  import opened SlotTimes
  import opened AdminAuth

  function AvailabilityByTime(a: SlotAvailability, b: SlotAvailability): bool {
    LexLe(a.slotTime, b.slotTime)
  }

  function TemplateByTime(a: PickupSlot, b: PickupSlot): bool {
    LexLe(a.slotTime, b.slotTime)
  }

  /** The first query: the café's rows for the date, by slot time. */
  function ExistingRows(availability: seq<SlotAvailability>, cafeId: string, date: string): seq<SlotAvailability> {
    SortBy(Filter(availability, (r: SlotAvailability) => r.cafeId == cafeId && r.slotDate == date), AvailabilityByTime)
  }

  /** The template query: the café's active templates, by slot time. */
  function ActiveTemplates(templates: seq<PickupSlot>, cafeId: string): seq<PickupSlot> {
    SortBy(Filter(templates, (t: PickupSlot) => t.cafeId == cafeId && t.isActive), TemplateByTime)
  }

  /** `templates.map(...)`: one fresh, unbooked, unblocked row per template for the date. */
  function RowsFor(templates: seq<PickupSlot>, cafeId: string, date: string): (r: seq<SlotAvailability>)
    ensures |r| == |templates|
  {
    seq(|templates|, k requires 0 <= k < |templates| =>
      SlotAvailability(cafeId, templates[k].id, date, templates[k].slotTime, templates[k].maxOrders, 0, false))
  }

  /** The rows the route inserts: only when the date has none yet and the insert succeeds. */
  function Materialised(availability: seq<SlotAvailability>, templates: seq<PickupSlot>,
                        cafeId: string, date: string, insertOk: bool): seq<SlotAvailability>
  {
    if ExistingRows(availability, cafeId, date) == [] && insertOk
    then RowsFor(ActiveTemplates(templates, cafeId), cafeId, date)
    else []
  }

  /**
    The rows the route goes on to filter: the existing ones, else the inserted
    ones. A failed insert yields `null`, which the route reads as no rows.
   */
  function Listed(availability: seq<SlotAvailability>, templates: seq<PickupSlot>,
                  cafeId: string, date: string, insertOk: bool): seq<SlotAvailability>
  {
    var existing := ExistingRows(availability, cafeId, date);
    if existing != [] then existing
    else if insertOk then RowsFor(ActiveTemplates(templates, cafeId), cafeId, date)
    else []
  }

  /**
    The time filter: every row when `date > today`, otherwise the rows whose
    `slot_time > currentTime`. Both comparisons are string comparisons, and
    a date before today gets the time filter too.
   */
  function Upcoming(rows: seq<SlotAvailability>, date: string, today: string, currentTime: string): (r: seq<SlotAvailability>)
    ensures IsSubsequence(r, rows)
    ensures forall k :: 0 <= k < |r| ==> LexLess(today, date) || LexLess(currentTime, r[k].slotTime)
    ensures forall k :: 0 <= k < |rows| && (LexLess(today, date) || LexLess(currentTime, rows[k].slotTime)) ==> rows[k] in r
  {
    Filter(rows, (row: SlotAvailability) => LexLess(today, date) || LexLess(currentTime, row.slotTime))
  }

  /** A date after today keeps every row. */
  lemma FutureDateKeepsAll(rows: seq<SlotAvailability>, date: string, today: string, currentTime: string)
    requires LexLess(today, date)
    ensures Upcoming(rows, date, today, currentTime) == rows
  {
    FilterKeepsAll(rows, (row: SlotAvailability) => LexLess(today, date) || LexLess(currentTime, row.slotTime));
  }

  /**
    For today or an earlier date, a padded slot time "hh:mm:ss" is kept
    exactly when it is at or after the current minute (h, m); a slot at the
    current minute is kept because "HH:MM" is a proper prefix of "HH:MM:00".
   */
  lemma TodayKeepsFromCurrentMinute(h: nat, m: nat, sh: nat, sm: nat, ss: nat, date: string, today: string, row: SlotAvailability)
    requires h < 24 && m < 60 && sh < 24 && sm < 60 && ss < 60
    requires !LexLess(today, date)
    requires row.slotTime == SlotTime(sh, sm, ss)
    ensures row in Upcoming([row], date, today, Clock(h, m)) <==> h * 60 + m <= sh * 60 + sm
  {
    CurrentTimeBeforeSlot(h, m, sh, sm, ss);
    var r := Upcoming([row], date, today, Clock(h, m));
    if LexLess(Clock(h, m), row.slotTime) {
      assert [row][0] in r;
    }
  }

  lemma TemplateByTimeTotal()
    ensures TotalPreorder(TemplateByTime)
  {
    LexLeTotalPreorder();
    forall a: PickupSlot, b: PickupSlot ensures TemplateByTime(a, b) || TemplateByTime(b, a) {
    }
    forall a: PickupSlot, b: PickupSlot, c: PickupSlot | TemplateByTime(a, b) && TemplateByTime(b, c)
      ensures TemplateByTime(a, c)
    {
    }
  }

  /**
    What a first listing of a date inserts: one row per active template of
    the café, in slot-time order, each for that café and date, unbooked and
    unblocked, carrying its template's id, time and capacity; and every
    active template of the café has its row.
   */
  lemma MaterialisedRows(availability: seq<SlotAvailability>, templates: seq<PickupSlot>, cafeId: string, date: string)
    requires ExistingRows(availability, cafeId, date) == []
    ensures var rows := Materialised(availability, templates, cafeId, date, true);
      && |rows| == |Filter(templates, (t: PickupSlot) => t.cafeId == cafeId && t.isActive)|
      && SortedBy(rows, AvailabilityByTime)
      && (forall k :: 0 <= k < |rows| ==>
            rows[k].cafeId == cafeId && rows[k].slotDate == date && rows[k].bookedCount == 0 && !rows[k].isBlocked)
      && (forall t :: t in templates && t.cafeId == cafeId && t.isActive ==>
            exists k :: 0 <= k < |rows| && rows[k].slotId == t.id && rows[k].slotTime == t.slotTime && rows[k].maxOrders == t.maxOrders)
  {
    var active := ActiveTemplates(templates, cafeId);
    var rows := RowsFor(active, cafeId, date);
    TemplateByTimeTotal();
    SortBySorted(Filter(templates, (t: PickupSlot) => t.cafeId == cafeId && t.isActive), TemplateByTime);
    forall i, j | 0 <= i < j < |rows| ensures AvailabilityByTime(rows[i], rows[j]) {
      assert TemplateByTime(active[i], active[j]);
    }
    forall t | t in templates && t.cafeId == cafeId && t.isActive
      ensures exists k :: 0 <= k < |rows| && rows[k].slotId == t.id && rows[k].slotTime == t.slotTime && rows[k].maxOrders == t.maxOrders
    {
      var f := Filter(templates, (t: PickupSlot) => t.cafeId == cafeId && t.isActive);
      assert t in f;
      assert t in multiset(active);
      var k :| 0 <= k < |active| && active[k] == t;
      assert rows[k].slotId == t.id;
    }
  }

  /**
    Materialisation happens once: after a listing has inserted a date's rows,
    the next listing of that date finds them, inserts nothing and works on the
    very same rows, whatever the outcome its insert would have had.
   */
  lemma SecondListingReusesRows(availability: seq<SlotAvailability>, templates: seq<PickupSlot>,
                                cafeId: string, date: string, insertOk: bool)
    requires ExistingRows(availability, cafeId, date) == []
    ensures var after := availability + Materialised(availability, templates, cafeId, date, true);
      && Materialised(after, templates, cafeId, date, insertOk) == []
      && Listed(after, templates, cafeId, date, insertOk) == Listed(availability, templates, cafeId, date, true)
  {
    var p := (r: SlotAvailability) => r.cafeId == cafeId && r.slotDate == date;
    var rows := Materialised(availability, templates, cafeId, date, true);
    MaterialisedRows(availability, templates, cafeId, date);
    assert |Filter(availability, p)| == 0;
    FilterAppend(availability, rows, p);
    FilterKeepsAll(rows, p);
    assert Filter(availability + rows, p) == rows;
    SortBySortedIsIdentity(rows, AvailabilityByTime);
    assert ExistingRows(availability + rows, cafeId, date) == rows;
  }

  datatype ListResponse = MissingParams | SlotList(data: seq<SlotAvailability>)

  function ListStatus(r: ListResponse): int {
    match r
    case MissingParams => 400
    case SlotList(_) => 200
  }

  datatype InitResponse =
    | InitDenied(reason: Denial)
    | AlreadyExist(count: nat)
    | InsertFailed
    | Created(slotsCreated: nat)

  function InitStatus(r: InitResponse): int {
    match r
    case InitDenied(d) => DenialStatus(d)
    case AlreadyExist(_) => 200
    case InsertFailed => 500
    case Created(_) => 200
  }

  /** The drafts as inserted: the table numbers them from `firstId` on. */
  function WithIds(drafts: seq<SlotDraft>, firstId: nat): (r: seq<PickupSlot>)
    ensures |r| == |drafts|
  {
    seq(|drafts|, k requires 0 <= k < |drafts| =>
      PickupSlot(firstId + k, drafts[k].cafeId, drafts[k].slotTime, drafts[k].maxOrders, drafts[k].isActive))
  }

  class SlotStore {
    var templates: seq<PickupSlot>
    var availability: seq<SlotAvailability>
    /** The id the template table assigns next. */
    var nextId: nat

    /** Template ids are below `nextId`, so every insert gets fresh ids. */
    ghost predicate Valid()
      reads this
    {
      forall k :: 0 <= k < |templates| ==> templates[k].id < nextId
    }

    constructor ()
      ensures Valid()
      ensures templates == [] && availability == [] && nextId == 0
    {
      templates := [];
      availability := [];
      nextId := 0;
    }

    /**
      `GET /api/slots?cafe_id&date`. `insertOk` is the outcome of the
      availability insert; `today`, `hour` and `minute` are the clock.
     */
    method ListSlots(cafeId: Option<string>, date: Option<string>, insertOk: bool,
                     today: string, hour: nat, minute: nat) returns (r: ListResponse)
      modifies this
      ensures templates == old(templates) && nextId == old(nextId)
      ensures !(Truthy(cafeId) && Truthy(date)) ==> r == MissingParams && availability == old(availability)
      ensures Truthy(cafeId) && Truthy(date) ==>
        && availability == old(availability) + Materialised(old(availability), templates, cafeId.value, date.value, insertOk)
        && r == SlotList(Upcoming(Listed(old(availability), templates, cafeId.value, date.value, insertOk),
                                  date.value, today, Clock(hour, minute)))
    {
      if !Truthy(cafeId) || !Truthy(date) {
        return MissingParams;
      }
      var c, d := cafeId.value, date.value;
      var slots := ExistingRows(availability, c, d);
      if |slots| == 0 {
        var active := ActiveTemplates(templates, c);
        if |active| > 0 {
          var rows := RowsFor(active, c, d);
          if insertOk {
            availability := availability + rows;
            slots := rows;
          } else {
            slots := [];
          }
        }
      }
      var currentTime := PadStart2(hour) + ":" + PadStart2(minute);
      r := SlotList(Upcoming(slots, d, today, currentTime));
    }

    /**
      `POST /api/admin/slots/init`. `existingCount` is the number of
      templates the existence query reports for the café, taken as given;
      `insertOk` is the outcome of the template insert.
     */
    method InitTemplates(signedIn: bool, profile: Option<Profile>, existingCount: nat, insertOk: bool)
      returns (r: InitResponse)
      requires Valid()
      modifies this
      ensures Valid()
      ensures availability == old(availability)
      ensures CheckAdmin(signedIn, profile).Denied? ==>
        r == InitDenied(CheckAdmin(signedIn, profile).reason) && templates == old(templates) && nextId == old(nextId)
      ensures CheckAdmin(signedIn, profile).Granted? && existingCount > 0 ==>
        r == AlreadyExist(existingCount) && templates == old(templates) && nextId == old(nextId)
      ensures CheckAdmin(signedIn, profile).Granted? && existingCount == 0 && !insertOk ==>
        r == InsertFailed && templates == old(templates) && nextId == old(nextId)
      ensures CheckAdmin(signedIn, profile).Granted? && existingCount == 0 && insertOk ==>
        && r == Created(SlotCount)
        && templates == old(templates) + WithIds(Drafts(CheckAdmin(signedIn, profile).cafeId), old(nextId))
        && nextId == old(nextId) + SlotCount
    {
      var access := CheckAdmin(signedIn, profile);
      if access.Denied? {
        return InitDenied(access.reason);
      }
      if existingCount > 0 {
        return AlreadyExist(existingCount);
      }
      var drafts := GenerateTemplates(access.cafeId);
      if !insertOk {
        return InsertFailed;
      }
      templates := templates + WithIds(drafts, nextId);
      nextId := nextId + |drafts|;
      r := Created(|drafts|);
    }
  }

  /**
    A successful initialisation gives the café 57 active templates of
    capacity 10, with fresh distinct ids, in strictly increasing time order.
   */
  lemma InitialisedTemplates(cafeId: string, firstId: nat)
    ensures var ts := WithIds(Drafts(cafeId), firstId);
      && |ts| == 57
      && (forall k :: 0 <= k < |ts| ==>
            ts[k].cafeId == cafeId && ts[k].maxOrders == 10 && ts[k].isActive && ts[k].id >= firstId)
      && (forall i, j :: 0 <= i < j < |ts| ==> ts[i].id < ts[j].id && LexLess(ts[i].slotTime, ts[j].slotTime))
  {
    var ts := WithIds(Drafts(cafeId), firstId);
    forall i, j | 0 <= i < j < |ts| ensures ts[i].id < ts[j].id && LexLess(ts[i].slotTime, ts[j].slotTime) {
      TimesIncreasing(i, j);
    }
  }
}
