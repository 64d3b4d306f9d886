/** The local notifications of fixed expenses (`notification.service.ts`):
    the 32-bit string hash the notification ids are built from, the two
    ids of an expense, and which expenses get notifications scheduled. The
    platform plugin is modelled by its list of pending notifications. */
module Notifications {

  import opened Models
  import opened Text

  const TwoTo32: int := 0x1_0000_0000
  const TwoTo31: int := 0x8000_0000

  predicate IsInt32(x: int) {
    -TwoTo31 <= x < TwoTo31
  }

  /** ECMAScript `ToInt32` on an integral value: the signed 32-bit value
      congruent to it modulo 2^32. */
  function ToInt32(x: int): (r: int)
    ensures IsInt32(r)
  {
    var m := x % TwoTo32;
    if m >= TwoTo31 then m - TwoTo32 else m
  }

  /** `ToInt32` moves its argument by a whole number of 2^32 turns. */
  lemma ToInt32Offset(x: int) returns (k: int)
    ensures ToInt32(x) == x + k * TwoTo32
  {
    var q := x / TwoTo32;
    assert x == q * TwoTo32 + x % TwoTo32;
    k := if x % TwoTo32 >= TwoTo31 then -q - 1 else -q;
  }

  /** Adding whole turns of 2^32 does not change `ToInt32`. */
  lemma ToInt32Shift(x: int, k: int)
    ensures ToInt32(x + k * TwoTo32) == ToInt32(x)
  {
    assert (x + k * TwoTo32) % TwoTo32 == x % TwoTo32;
  }

  /** A 32-bit value is its own `ToInt32`. */
  lemma ToInt32OfInt32(x: int)
    requires IsInt32(x)
    ensures ToInt32(x) == x
  {
  }

  /** One iteration of `simpleHash`: `hash << 5` shifts the 32-bit value,
      the subtraction and addition are exact, and `hash & hash` brings the
      sum back to 32 bits. */
  function HashStep(hash: int, unit: int): int {
    ToInt32(ToInt32(hash * 32) - hash + unit)
  }

  /** Each step is the 32-bit two's-complement wrap of `31 * hash + unit`. */
  lemma HashStepWraps(hash: int, unit: int)
    ensures HashStep(hash, unit) == ToInt32(31 * hash + unit)
  {
    var k := ToInt32Offset(hash * 32);
    assert ToInt32(hash * 32) - hash + unit == 31 * hash + unit + k * TwoTo32;
    ToInt32Shift(31 * hash + unit, k);
  }

  /** The value of `hash` after the loop has read `units`. */
  function HashFold(units: seq<int>): (h: int)
    ensures IsInt32(h)
  {
    if units == [] then 0 else HashStep(HashFold(units[..|units| - 1]), units[|units| - 1])
  }

  /** The polynomial `u[0]·31^(n-1) + … + u[n-1]` in exact arithmetic (the
      hash Java's `String.hashCode` wraps). */
  function Polynomial(units: seq<int>): int {
    if units == [] then 0 else 31 * Polynomial(units[..|units| - 1]) + units[|units| - 1]
  }

  /** The loop computes the 32-bit wrap of the polynomial: wrapping after
      every step gives what wrapping once at the end would. */
  lemma {:induction false} HashFoldIsWrappedPolynomial(units: seq<int>)
    ensures HashFold(units) == ToInt32(Polynomial(units))
  {
    if units != [] {
      var p := units[..|units| - 1];
      var u := units[|units| - 1];
      HashFoldIsWrappedPolynomial(p);
      var k := ToInt32Offset(Polynomial(p));
      HashStepWraps(HashFold(p), u);
      assert 31 * HashFold(p) + u == Polynomial(units) + (31 * k) * TwoTo32;
      ToInt32Shift(Polynomial(units), 31 * k);
    }
  }

  /** The number of distinct hashes, and of ids between two month offsets. */
  const HashRange: int := 100000
  const OffsetStride: int := 10000

  /** `simpleHash(str)` as a value: `Math.abs` of the 32-bit hash, modulo
      100000. */
  function NotificationHash(s: string): (h: int)
    ensures 0 <= h < HashRange
  {
    var hash := HashFold(CodeUnits(s));
    (if hash < 0 then -hash else hash) % HashRange
  }

  /** `simpleHash`: the loop over the UTF-16 code units. */
  method SimpleHash(s: string) returns (h: int)
    ensures h == NotificationHash(s)
    ensures 0 <= h < HashRange
  {
    var units := CodeUnits(s);
    var hash := 0;
    var i := 0;
    while i < |units|
      invariant 0 <= i <= |units|
      invariant hash == HashFold(units[..i])
    {
      assert units[..i + 1][..i] == units[..i];
      hash := ToInt32(ToInt32(hash * 32) - hash + units[i]);
      i := i + 1;
    }
    assert units[..i] == units;
    h := (if hash < 0 then -hash else hash) % HashRange;
  }

  /** `generateNotificationId(expenseId, monthOffset)` as a value. */
  function NotificationId(expenseId: string, monthOffset: int): int {
    NotificationHash(expenseId) + monthOffset * OffsetStride
  }

  /** The two ids of an expense (offsets 0 and 1) lie 10000 apart, in
      [0, 110000), and depend on nothing but the expense id. */
  lemma NotificationIdsOfExpense(expenseId: string, otherId: string)
    ensures NotificationId(expenseId, 1) == NotificationId(expenseId, 0) + OffsetStride
    ensures 0 <= NotificationId(expenseId, 0) < HashRange
    ensures OffsetStride <= NotificationId(expenseId, 1) < HashRange + OffsetStride
    ensures NotificationHash(expenseId) == NotificationHash(otherId) ==>
              NotificationId(expenseId, 0) == NotificationId(otherId, 0)
              && NotificationId(expenseId, 1) == NotificationId(otherId, 1)
  {
  }

  /** `generateNotificationId`. */
  method GenerateNotificationId(expenseId: string, monthOffset: int) returns (id: int)
    ensures id == NotificationId(expenseId, monthOffset)
    ensures monthOffset == 0 ==> 0 <= id < HashRange
  {
    var hash := SimpleHash(expenseId);
    id := hash + monthOffset * OffsetStride;
  }

  /** The ids `cancelExpenseNotifications` cancels. */
  function CancelIds(expenseId: string): set<int> {
    {NotificationId(expenseId, 0), NotificationId(expenseId, 1)}
  }

  /** Whether an expense is to be notified at all. */
  predicate Eligible(e: FixedExpense) {
    e.notifications && e.isActive
  }

  /** What a `scheduleExpenseNotification` that gets past its guards does
      to the pending notifications (id to expense id): cancel both ids of
      the expense, then schedule each offset whose notification date is
      still in the future. */
  function AfterSchedule(pending: map<int, string>, e: FixedExpense, isFuture: (FixedExpense, int) -> bool): map<int, string> {
    var first := AfterScheduleFirst(pending, e, isFuture);
    if isFuture(e, 1) then first[NotificationId(e.id, 1) := e.id] else first
  }

  /** The pending notifications after the first offset of a schedule. */
  function AfterScheduleFirst(pending: map<int, string>, e: FixedExpense, isFuture: (FixedExpense, int) -> bool): map<int, string> {
    var cancelled := pending - CancelIds(e.id);
    if isFuture(e, 0) then cancelled[NotificationId(e.id, 0) := e.id] else cancelled
  }

  /** Scheduling only touches the two ids of the expense: the others keep
      their entries, and the two ids are either gone or point at the
      expense. Scheduling the same expense twice is scheduling it once. */
  lemma ScheduleTouchesOwnIds(pending: map<int, string>, e: FixedExpense, isFuture: (FixedExpense, int) -> bool)
    ensures var after := AfterSchedule(pending, e, isFuture);
            && (forall id :: id !in CancelIds(e.id) ==> (id in after <==> id in pending))
            && (forall id :: id in after && id !in CancelIds(e.id) ==> after[id] == pending[id])
            && (forall id :: id in after && id in CancelIds(e.id) ==> after[id] == e.id)
            && (forall k :: 0 <= k <= 1 ==> (NotificationId(e.id, k) in after <==> isFuture(e, k)))
    ensures AfterSchedule(AfterSchedule(pending, e, isFuture), e, isFuture) == AfterSchedule(pending, e, isFuture)
  {
    var after := AfterSchedule(pending, e, isFuture);
    forall k | 0 <= k <= 1 ensures NotificationId(e.id, k) in after <==> isFuture(e, k) {
      assert NotificationId(e.id, 1) == NotificationId(e.id, 0) + OffsetStride;
    }
    var twice := AfterSchedule(after, e, isFuture);
    assert after - CancelIds(e.id) == pending - CancelIds(e.id);
    assert twice == after;
  }

  /** What `rescheduleAllExpenses` does to the pending notifications, one
      expense after the other; `granted` is the answer of the permission
      check. */
  function AfterReschedule(pending: map<int, string>, es: seq<FixedExpense>, granted: bool,
                           isFuture: (FixedExpense, int) -> bool): map<int, string>
  {
    if es == [] then pending
    else
      var before := AfterReschedule(pending, es[..|es| - 1], granted, isFuture);
      var e := es[|es| - 1];
      if Eligible(e) && granted then AfterSchedule(before, e, isFuture) else before
  }

  /** The entry for `id` differs between two pending lists. */
  predicate Changed(p: map<int, string>, q: map<int, string>, id: int) {
    (id in p) != (id in q) || (id in p && id in q && p[id] != q[id])
  }

  /** Rescheduling changes an entry only at an id of an active expense with
      notifications on; with no such expense, or without permission,
      nothing changes. */
  lemma {:induction false} RescheduleOnlyEligible(pending: map<int, string>, es: seq<FixedExpense>, granted: bool,
                                                  isFuture: (FixedExpense, int) -> bool, id: int)
    requires Changed(pending, AfterReschedule(pending, es, granted, isFuture), id)
    ensures granted
    ensures exists i :: 0 <= i < |es| && Eligible(es[i]) && id in CancelIds(es[i].id)
  {
    var after := AfterReschedule(pending, es, granted, isFuture);
    if es == [] {
      assert false;
    } else {
      var prefix := es[..|es| - 1];
      var e := es[|es| - 1];
      var before := AfterReschedule(pending, prefix, granted, isFuture);
      if Eligible(e) && granted && id in CancelIds(e.id) {
      } else {
        if Eligible(e) && granted {
          ScheduleTouchesOwnIds(before, e, isFuture);
        }
        assert !Changed(before, after, id);
        RescheduleOnlyEligible(pending, prefix, granted, isFuture, id);
        var i :| 0 <= i < |prefix| && Eligible(prefix[i]) && id in CancelIds(prefix[i].id);
        assert es[i] == prefix[i];
      }
    }
  }

  class NotificationService {

    /** The notifications pending with the platform, by id, each with the
        expense id it carries in `extra`. */
    var pending: map<int, string>

    constructor()
      ensures pending == map[]
    {
      pending := map[];
    }

    /** `cancelExpenseNotifications`: cancel the ids of offsets 0 and 1. */
    method CancelExpenseNotifications(expenseId: string)
      modifies this
      ensures pending == old(pending) - CancelIds(expenseId)
    {
      var id0 := GenerateNotificationId(expenseId, 0);
      var id1 := GenerateNotificationId(expenseId, 1);
      pending := pending - {id0, id1};
    }

    /** `scheduleExpenseNotification`: nothing for an inactive expense, one
        with notifications off or without permission; otherwise cancel the
        expense's ids and schedule each offset (this month, next month)
        whose notification date `isFuture` says is still ahead. */
    method ScheduleExpenseNotification(e: FixedExpense, granted: bool, isFuture: (FixedExpense, int) -> bool)
      modifies this
      ensures !(Eligible(e) && granted) ==> pending == old(pending)
      ensures Eligible(e) && granted ==> pending == AfterSchedule(old(pending), e, isFuture)
    {
      if !e.notifications || !e.isActive {
        return;
      }
      if !granted {
        return;
      }
      CancelExpenseNotifications(e.id);
      var monthOffset := 0;
      while monthOffset <= 1
        invariant 0 <= monthOffset <= 2
        invariant pending == (if monthOffset == 0 then old(pending) - CancelIds(e.id)
                              else if monthOffset == 1 then AfterScheduleFirst(old(pending), e, isFuture)
                              else AfterSchedule(old(pending), e, isFuture))
      {
        if isFuture(e, monthOffset) {
          var id := GenerateNotificationId(e.id, monthOffset);
          pending := pending[id := e.id];
        }
        monthOffset := monthOffset + 1;
      }
    }

    /** `rescheduleAllExpenses`: schedule each active expense with
        notifications on, in order. */
    method RescheduleAllExpenses(es: seq<FixedExpense>, granted: bool, isFuture: (FixedExpense, int) -> bool)
      modifies this
      ensures pending == AfterReschedule(old(pending), es, granted, isFuture)
    {
      var i := 0;
      while i < |es|
        invariant 0 <= i <= |es|
        invariant pending == AfterReschedule(old(pending), es[..i], granted, isFuture)
      {
        assert es[..i + 1][..i] == es[..i];
        if es[i].notifications && es[i].isActive {
          ScheduleExpenseNotification(es[i], granted, isFuture);
        }
        i := i + 1;
      }
      assert es[..i] == es;
    }
  }
}
