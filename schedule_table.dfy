/** The schedule table of the dashboard: the cells of a row (time,
    time zone, currencies), the empty state, the delete button's face, and
    the two-click delete confirmation with its three-second auto-cancel.
    Time is a millisecond clock that only the model advances. */
module ScheduleTable {
  import opened Common
  import opened Text
  import opened Domain

  /** `String(n)` for any integer. */
  function IntToString(n: int): string {
    if n < 0 then "-" + NatToString(-n) else NatToString(n)
  }

  /** `String(n).padStart(2, "0")`. */
  function TwoDigits(n: int): string {
    PadStart(IntToString(n), 2, '0')
  }

  /** The time cell, `HH:MM`. */
  function TimeCell(hour: int, minute: int): string {
    TwoDigits(hour) + ":" + TwoDigits(minute)
  }

  /** A number below 100 takes exactly two digits and reads back as
      itself. */
  lemma TwoDigitsRoundTrip(n: int)
    requires 0 <= n < 100
    ensures |TwoDigits(n)| == 2 && IsDigit(TwoDigits(n)[0]) && IsDigit(TwoDigits(n)[1])
    ensures DecimalValue(TwoDigits(n)) == n
  {
    DecimalRoundTrip(n);
    var s := NatToString(n);
    if n < 10 {
      assert s == [Digit(n)];
      var t := TwoDigits(n);
      assert t == ['0', Digit(n)];
      assert t[..1] == ['0'];
      assert DecimalValue(t[..1]) == 0 by {
        assert t[..1][..0] == [];
      }
    } else {
      assert NatToString(n / 10) == [Digit(n / 10)];
    }
  }

  /** For an hour and minute of a schedule the cell is five characters,
      a colon in the middle, and each side reads back as its number. */
  lemma TimeCellShape(hour: int, minute: int)
    requires 0 <= hour < 100 && 0 <= minute < 100
    ensures var c := TimeCell(hour, minute);
      |c| == 5 && c[2] == ':' && DecimalValue(c[..2]) == hour && DecimalValue(c[3..]) == minute
  {
    TwoDigitsRoundTrip(hour);
    TwoDigitsRoundTrip(minute);
    AroundColon(TwoDigits(hour), TwoDigits(minute));
  }

  lemma AroundColon(a: string, b: string)
    requires |a| == 2 && |b| == 2
    ensures var c := a + ":" + b;
      |c| == 5 && c[2] == ':' && c[..2] == a && c[3..] == b
  {
  }

  /** `timeZone.replace(/_/g, " ")`. */
  function ZoneLabel(zone: string): (r: string)
    ensures |r| == |zone|
    ensures forall i :: 0 <= i < |r| ==> r[i] == (if zone[i] == '_' then ' ' else zone[i])
  {
    seq(|zone|, i requires 0 <= i < |zone| => if zone[i] == '_' then ' ' else zone[i])
  }

  /** The currency cell: "All", or the first three currencies and a
      "+n" badge for the rest. */
  datatype CurrencyCell = AllCurrencies | Currencies(shown: seq<string>, more: Option<string>)

  const ShownCurrencies: nat := 3

  function CurrencyCellOf(currency: seq<string>): (c: CurrencyCell)
    ensures currency == [] <==> c == AllCurrencies
    ensures c.Currencies? ==>
      c.shown == currency[..if |currency| < ShownCurrencies then |currency| else ShownCurrencies]
      && (c.more.Some? <==> |currency| > ShownCurrencies)
      && (c.more.Some? ==> c.more.value == "+" + NatToString(|currency| - ShownCurrencies))
  {
    if |currency| == 0 then AllCurrencies
    else
      Currencies(currency[..if |currency| < ShownCurrencies then |currency| else ShownCurrencies],
                 if |currency| > ShownCurrencies then Some("+" + NatToString(|currency| - ShownCurrencies)) else None)
  }

  /** The cell accounts for every currency: those shown plus the number
      on the badge make the whole list, and the shown ones are its prefix. */
  lemma CurrencyCellCountsAll(currency: seq<string>)
    requires currency != []
    ensures var c := CurrencyCellOf(currency);
      |c.shown| + (if c.more.Some? then DecimalValue(c.more.value[1..]) else 0) == |currency|
      && c.shown == currency[..|c.shown|]
  {
    var c := CurrencyCellOf(currency);
    if c.more.Some? {
      DecimalRoundTrip(|currency| - ShownCurrencies);
      assert c.more.value[1..] == NatToString(|currency| - ShownCurrencies);
    }
  }

  /** A row of the table. */
  datatype RowView = RowView(
    key: string,
    time: string,
    zone: string,
    frequency: string,
    market: string,
    impact: seq<string>,
    currency: CurrencyCell)

  function Row(s: Schedule): RowView {
    RowView(s.id, TimeCell(s.hour, s.minute), ZoneLabel(s.timeZone), s.frequency, s.market, s.impact,
            CurrencyCellOf(s.currency))
  }

  /** What the component renders. */
  datatype TableView = EmptyState | Table(rows: seq<RowView>)

  function Render(schedules: seq<Schedule>): (v: TableView)
    ensures schedules == [] <==> v == EmptyState
    ensures v.Table? ==> |v.rows| == |schedules|
    ensures v.Table? ==>
      forall k :: 0 <= k < |schedules| ==> v.rows[k] == Row(schedules[k]) && v.rows[k].key == schedules[k].id
  {
    if |schedules| == 0 then EmptyState
    else Table(seq(|schedules|, k requires 0 <= k < |schedules| => Row(schedules[k])))
  }

  /** The delete button's face. */
  datatype ButtonFace = Spinner | Caption(text: string)

  /** A spinner while this schedule is being deleted, else "Confirm?" while
      it is armed, else "Delete"; the button is disabled exactly while it
      shows the spinner. */
  function DeleteButtonFace(id: string, isDeleting: Option<string>, armed: Option<string>): (f: ButtonFace)
    ensures f == Spinner <==> isDeleting == Some(id)
    ensures f == Caption("Confirm?") <==> isDeleting != Some(id) && armed == Some(id)
    ensures f == Caption("Delete") <==> isDeleting != Some(id) && armed != Some(id)
  {
    if isDeleting == Some(id) then Spinner
    else if armed == Some(id) then Caption("Confirm?")
    else Caption("Delete")
  }

  const AutoCancelMs: int := 3000

  /** The confirmation state: the armed id, the deadlines of the pending
      auto-cancel timers, and the clock. */
  datatype Confirm = Confirm(armed: Option<string>, timers: seq<int>, clock: int)

  /** `handleDeleteClick`, as written: a click on the armed id deletes it
      and disarms; any other click arms that id and starts one more timer
      (earlier timers are never cleared). */
  function Click(s: Confirm, id: string): (r: (Confirm, Option<string>))
    ensures r.1 == Some(id) <==> s.armed == Some(id)
    ensures r.1.None? ==> r.1 != Some(id) && r.0.armed == Some(id)
    ensures r.1.Some? ==> r.1 == Some(id) && r.0.armed.None?
    ensures r.0.clock == s.clock
  {
    if s.armed == Some(id) then (s.(armed := None), Some(id))
    else (s.(armed := Some(id), timers := s.timers + [s.clock + AutoCancelMs]), None)
  }

  /** The deadlines still pending at `t`. */
  function Pending(timers: seq<int>, t: int): (r: seq<int>)
    ensures forall d :: d in r <==> d in timers && d > t
    ensures |r| <= |timers|
    ensures |r| == |timers| <==> forall k :: 0 <= k < |timers| ==> timers[k] > t
    decreases |timers|
  {
    if timers == [] then []
    else (if timers[0] > t then [timers[0]] else []) + Pending(timers[1..], t)
  }

  /** Time passes to `t`: every timer due by then fires and disarms. */
  function Advance(s: Confirm, t: int): (r: Confirm)
    requires t >= s.clock
    ensures r.clock == t
    ensures r.timers == Pending(s.timers, t)
    ensures (exists d :: d in s.timers && d <= t) ==> r.armed.None?
    ensures (forall d :: d in s.timers ==> d > t) ==> r.armed == s.armed
  {
    var rest := Pending(s.timers, t);
    assert (exists d :: d in s.timers && d <= t) ==> |rest| < |s.timers| by {
      if d :| d in s.timers && d <= t {
        var k :| 0 <= k < |s.timers| && s.timers[k] == d;
      }
    }
    assert (forall d :: d in s.timers ==> d > t) ==> |rest| == |s.timers| by {
      if forall d :: d in s.timers ==> d > t {
        assert forall k :: 0 <= k < |s.timers| ==> s.timers[k] in s.timers;
      }
    }
    Confirm(if |rest| < |s.timers| then None else s.armed, rest, t)
  }

  /** The discrepancy: an earlier timer disarms a later arming early.
      Clicking "a" at 0 and "b" at 1000 leaves "b" disarmed at 3000, two
      seconds after it was armed instead of three. */
  lemma EarlierTimerCutsArming()
    ensures var s1 := Click(Confirm(None, [], 0), "a").0;
      var s2 := Advance(s1, 1000).(clock := 1000);
      var s3 := Click(s2, "b").0;
      s3.armed == Some("b") && Advance(s3, 3000).armed.None?
  {
    var s1 := Click(Confirm(None, [], 0), "a").0;
    assert s1.timers == [3000];
    var s2 := Advance(s1, 1000);
    assert s2.timers == [3000];
    var s3 := Click(s2, "b").0;
    assert 3000 in s3.timers;
  }

  /** `handleDeleteClick` as evidently intended: arming restarts the
      auto-cancel (the previous timer is cleared), and deleting clears it. */
  function ClickRestarting(s: Confirm, id: string): (r: (Confirm, Option<string>))
    ensures r.1 == Some(id) <==> s.armed == Some(id)
    ensures r.1.None? ==> r.0.armed == Some(id) && r.0.timers == [s.clock + AutoCancelMs]
    ensures r.1.Some? ==> r.0.armed.None? && r.0.timers == []
  {
    if s.armed == Some(id) then (s.(armed := None, timers := []), Some(id))
    else (s.(armed := Some(id), timers := [s.clock + AutoCancelMs]), None)
  }

  /** With the restarting click an arming lasts exactly the three seconds:
      still armed just before, disarmed at the deadline. */
  lemma ArmingLastsAutoCancel(s: Confirm, id: string, t: int)
    requires s.armed != Some(id)
    requires s.clock <= t
    ensures var armedState := ClickRestarting(s, id).0;
      (t < s.clock + AutoCancelMs ==> Advance(armedState, t).armed == Some(id))
      && (t >= s.clock + AutoCancelMs ==> Advance(armedState, t).armed.None?)
  {
    var a := ClickRestarting(s, id).0;
    assert a.timers == [s.clock + AutoCancelMs];
    assert s.clock + AutoCancelMs in a.timers;
  }

  /** The component's confirmation state, updated in place by clicks and
      by the timers as time passes. */
  class DeleteConfirmation {
    var armed: Option<string>
    var timers: seq<int>
    var clock: int

    function State(): Confirm
      reads this
    {
      Confirm(armed, timers, clock)
    }

    constructor (now: int)
      ensures State() == Confirm(None, [], now)
    {
      armed := None;
      timers := [];
      clock := now;
    }

    /** A click on a schedule's delete button; `deleted` is the id handed
        to `onDelete`, if any. */
    method HandleDeleteClick(id: string) returns (deleted: Option<string>)
      modifies this
      ensures (State(), deleted) == Click(old(State()), id)
    {
      if armed == Some(id) {
        deleted := Some(id);
        armed := None;
      } else {
        deleted := None;
        armed := Some(id);
        timers := timers + [clock + AutoCancelMs];
      }
    }

    /** Time passes to `t`: the timers due fire one by one, each setting
        the armed id to null. */
    method AdvanceTo(t: int)
      requires t >= clock
      modifies this
      ensures State() == Advance(old(State()), t)
    {
      var rest: seq<int> := [];
      var fired := false;
      ghost var s0 := State();
      for i := 0 to |timers|
        invariant timers == s0.timers && clock == s0.clock
        invariant rest == Pending(timers[..i], t)
        invariant fired <==> |rest| < i
        invariant armed == (if fired then None else s0.armed)
      {
        PendingAppend(timers[..i], timers[i], t);
        assert timers[..i + 1] == timers[..i] + [timers[i]];
        if timers[i] > t {
          rest := rest + [timers[i]];
        } else {
          armed := None;
          fired := true;
        }
      }
      assert timers[..|timers|] == timers;
      timers := rest;
      clock := t;
    }
  }

  lemma {:induction false} PendingAppend(timers: seq<int>, d: int, t: int)
    ensures Pending(timers + [d], t) == Pending(timers, t) + (if d > t then [d] else [])
    decreases |timers|
  {
    if timers == [] {
      assert [d][1..] == [];
    } else {
      var head := if timers[0] > t then [timers[0]] else [];
      var last := if d > t then [d] else [];
      assert (timers + [d])[1..] == timers[1..] + [d];
      assert Pending(timers + [d], t) == head + Pending(timers[1..] + [d], t);
      PendingAppend(timers[1..], d, t);
      assert head + (Pending(timers[1..], t) + last) == (head + Pending(timers[1..], t)) + last;
    }
  }
}
