/** The daily series of the cost history (`build`), and that every day shows what the zone's
    resources held at the end of that day. */
module CostSeries {
  import opened LedgerModel
  import opened LedgerRuns
  import opened LedgerSafety
  import opened Budgets
  import opened CostHistory

  /** Timestamps count microseconds. */
  const DAY: nat := 86_400_000_000

  function DayOf(at: Time): nat { at / DAY }

  function EndOf(day: nat): Time { (day + 1) * DAY - 1 }

  datatype Mover = Mover(resource: ResId, change: int, at: Time)

  /** What a resource's changes add up to by the end of a day. */
  function SumByDay(steps: seq<Delta>, day: int): int {
    if steps == [] then 0
    else
      var d := steps[|steps| - 1];
      SumByDay(steps[..|steps| - 1], day) + if DayOf(d.at) <= day then d.amount else 0
  }

  lemma {:induction false} ByDayIsUpTo(steps: seq<Delta>, day: nat)
    ensures SumByDay(steps, day) == SumUpTo(steps, EndOf(day))
  {
    if steps != [] {
      ByDayIsUpTo(steps[..|steps| - 1], day);
      DayEnds(steps[|steps| - 1].at, day);
    }
  }

  lemma DayEnds(at: Time, day: nat)
    ensures DayOf(at) <= day <==> at <= EndOf(day)
  {
    assert at == DAY * DayOf(at) + at % DAY;
  }

  function HistoryOf(db: Db, r: ResId, stop: Time): (int, seq<Delta>)
    requires r in db.rows
  {
    History(NotChecks(AllOf(db.order, db.ops, r)), db.rows[r], stop)
  }

  /** One resource's line, and the lines of several resources added up. */
  function LineAt(db: Db, r: ResId, stop: Time, day: int): int
    requires r in db.rows
  {
    var replay := HistoryOf(db, r, stop);
    replay.0 + SumByDay(replay.1, day)
  }

  function LinesAt(db: Db, ids: seq<ResId>, stop: Time, day: int): int
    requires forall r :: r in ids ==> r in db.rows
  {
    if ids == [] then 0
    else LinesAt(db, ids[..|ids| - 1], stop, day) + LineAt(db, ids[|ids| - 1], stop, day)
  }

  function Total(deltas: seq<int>): int {
    if deltas == [] then 0 else Total(deltas[..|deltas| - 1]) + deltas[|deltas| - 1]
  }

  lemma {:induction false} TotalUpdate(deltas: seq<int>, k: nat, amount: int, upto: nat)
    requires k < |deltas| && upto <= |deltas|
    ensures Total(deltas[k := deltas[k] + amount][..upto]) == Total(deltas[..upto]) + if k < upto then amount else 0
  {
    if upto > 0 {
      TotalUpdate(deltas, k, amount, upto - 1);
      assert deltas[..upto][..upto - 1] == deltas[..upto - 1];
      var after := deltas[k := deltas[k] + amount];
      assert after[..upto][..upto - 1] == after[..upto - 1];
    }
  }

  lemma {:induction false} TotalOfZeros(deltas: seq<int>)
    requires forall i :: 0 <= i < |deltas| ==> deltas[i] == 0
    ensures Total(deltas) == 0
  {
    if deltas != [] { TotalOfZeros(deltas[..|deltas| - 1]); }
  }

  /** Adding the changes of one resource to `base` and to the buckets: every day but the last then
      shows them up to that day, and the last shows them all. */
  ghost predicate Booked(base0: int, was: seq<int>, base: int, now: seq<int>, steps: seq<Delta>, first: int) {
    && |now| == |was|
    && forall d {:trigger now[..d + 1]} :: 0 <= d < |now| ==>
         base + Total(now[..d + 1])
         == base0 + Total(was[..d + 1])
            + if d == |now| - 1 then SumUpToAll(steps) else SumByDay(steps, first + d)
  }

  lemma BookBefore(base0: int, was: seq<int>, base: int, now: seq<int>, steps: seq<Delta>, d: Delta, first: int)
    requires Booked(base0, was, base, now, steps, first) && DayOf(d.at) < first
    ensures Booked(base0, was, base + d.amount, now, steps + [d], first)
  {
    assert (steps + [d])[..|steps|] == steps;
  }

  lemma BookDay(base0: int, was: seq<int>, base: int, now: seq<int>, steps: seq<Delta>, d: Delta, first: int, k: nat)
    requires Booked(base0, was, base, now, steps, first) && k < |now| && DayOf(d.at) >= first
    requires k == if DayOf(d.at) - first < |now| - 1 then DayOf(d.at) - first else |now| - 1
    ensures Booked(base0, was, base, now[k := now[k] + d.amount], steps + [d], first)
  {
    assert (steps + [d])[..|steps|] == steps;
    var after := now[k := now[k] + d.amount];
    forall day {:trigger after[..day + 1]} | 0 <= day < |now|
      ensures Total(after[..day + 1]) == Total(now[..day + 1]) + if k < day + 1 then d.amount else 0
    {
      TotalUpdate(now, k, d.amount, day + 1);
    }
  }

  /** `at` is the time of the latest change in the period that begins with day `first`, if any. */
  ghost predicate LatestIn(steps: seq<Delta>, first: int, at: Option<Time>) {
    && (at.Some? <==> exists i :: 0 <= i < |steps| && DayOf(steps[i].at) >= first)
    && (at.Some? ==> exists i :: 0 <= i < |steps| && DayOf(steps[i].at) >= first && steps[i].at == at.value)
    && (forall i :: 0 <= i < |steps| && DayOf(steps[i].at) >= first ==> at.Some? && steps[i].at <= at.value)
  }

  lemma LatestNext(steps: seq<Delta>, i: nat, first: int, at: Option<Time>)
    requires i < |steps| && LatestIn(steps[..i], first, at)
    ensures LatestIn(steps[..i + 1], first,
                     if DayOf(steps[i].at) < first then at
                     else Some(if at.None? || at.value < steps[i].at then steps[i].at else at.value))
  {
    var more := steps[..i + 1];
    assert more == steps[..i] + [steps[i]];
    assert forall k :: 0 <= k < i ==> more[k] == steps[..i][k];
    assert more[i] == steps[i];
  }

  /** One pass over a resource's changes. */
  method Book(steps: seq<Delta>, first: int, base0: int, deltas: array<int>)
    returns (base: int, net: int, changed: Option<Time>)
    requires deltas.Length > 0
    modifies deltas
    ensures Booked(base0, old(deltas[..]), base, deltas[..], steps, first)
    ensures base == base0 + SumByDay(steps, first - 1)
    ensures net == SumUpToAll(steps) - SumByDay(steps, first - 1)
    ensures changed.None? ==> net == 0
    ensures LatestIn(steps, first, changed)
  {
    hide Booked, LatestIn;
    NoneLatest(first);
    base, net, changed := base0, 0, None;
    assert steps[..0] == [];
    NothingBooked(base, deltas[..], first);
    for i := 0 to |steps|
      invariant Booked(base0, old(deltas[..]), base, deltas[..], steps[..i], first)
      invariant base == base0 + SumByDay(steps[..i], first - 1)
      invariant net == SumUpToAll(steps[..i]) - SumByDay(steps[..i], first - 1)
      invariant changed.None? ==> net == 0
      invariant LatestIn(steps[..i], first, changed)
    {
      var step := steps[i];
      LatestNext(steps, i, first, changed);
      assert steps[..i + 1] == steps[..i] + [step];
      assert (steps[..i] + [step])[..i] == steps[..i];
      ghost var now := deltas[..];
      if DayOf(step.at) < first {
        BookBefore(base0, old(deltas[..]), base, now, steps[..i], step, first);
        base := base + step.amount;
      } else {
        var day := DayOf(step.at) - first;
        var k := if day < deltas.Length - 1 then day else deltas.Length - 1;
        BookDay(base0, old(deltas[..]), base, now, steps[..i], step, first, k);
        deltas[k] := deltas[k] + step.amount;
        assert deltas[..] == now[k := now[k] + step.amount];
        net := net + step.amount;
        changed := Some(if changed.None? || changed.value < step.at then step.at else changed.value);
      }
    }
    assert steps[..|steps|] == steps;
  }

  lemma NoneLatest(first: int)
    ensures LatestIn([], first, None)
  {
  }

  lemma NothingBooked(base: int, deltas: seq<int>, first: int)
    ensures Booked(base, deltas, base, deltas, [], first)
  {
    var none: seq<Delta> := [];
    assert SumUpToAll(none) == 0 && forall day :: SumByDay(none, day) == 0;
  }

  /** What the buckets show once the resources `ids` have been added. The last bucket shows the
      current total, whatever the last day is. */
  ghost predicate Shows(base: int, deltas: seq<int>, db: Db, ids: seq<ResId>, stop: Time, first: int)
    requires forall r :: r in ids ==> r in db.rows
  {
    forall d {:trigger deltas[..d + 1]} :: 0 <= d < |deltas| ==>
      base + Total(deltas[..d + 1])
      == if d == |deltas| - 1 then HeldNow(db, ids) else LinesAt(db, ids, stop, first + d)
  }

  function HeldNow(db: Db, ids: seq<ResId>): int
    requires forall r :: r in ids ==> r in db.rows
  {
    if ids == [] then 0 else HeldNow(db, ids[..|ids| - 1]) + Held(db.rows[ids[|ids| - 1]])
  }

  lemma ShowsNext(base: int, was: seq<int>, base1: int, now: seq<int>, db: Db, ids: seq<ResId>,
                  i: nat, stop: Time, first: int)
    requires (forall r :: r in ids ==> r in db.rows) && i < |ids|
    requires Shows(base, was, db, ids[..i], stop, first)
    requires var replay := HistoryOf(db, ids[i], stop);
             Booked(base + replay.0, was, base1, now, replay.1, first)
    ensures Shows(base1, now, db, ids[..i + 1], stop, first)
  {
    hide HistoryOf;
    assert ids[..i + 1][..i] == ids[..i];
    ReplayEndsAtRow(AllOf(db.order, db.ops, ids[i]), db.rows[ids[i]], stop);
    EndOfHistory(db, ids[i], stop);
    forall d {:trigger now[..d + 1]} | 0 <= d < |now|
      ensures base1 + Total(now[..d + 1])
              == if d == |now| - 1 then HeldNow(db, ids[..i + 1]) else LinesAt(db, ids[..i + 1], stop, first + d)
    {
      assert base + Total(was[..d + 1])
             == if d == |was| - 1 then HeldNow(db, ids[..i]) else LinesAt(db, ids[..i], stop, first + d);
    }
  }

  lemma EndOfHistory(db: Db, r: ResId, stop: Time)
    requires r in db.rows
    ensures var replay := HistoryOf(db, r, stop); replay.0 + SumUpToAll(replay.1) == Held(db.rows[r])
  {
    ReplayEndsAtRow(AllOf(db.order, db.ops, r), db.rows[r], stop);
  }

  ghost predicate MoversSay(movers: seq<Mover>, db: Db, ids: seq<ResId>, stop: Time, first: int)
    requires forall r :: r in ids ==> r in db.rows
  {
    && (forall m :: m in movers ==>
          m.resource in ids && m.change != 0
          && m.change == Held(db.rows[m.resource]) - LineAt(db, m.resource, stop, first - 1)
          && LatestIn(HistoryOf(db, m.resource, stop).1, first, Some(m.at)))
    && (forall r :: r in ids && (forall m :: m in movers ==> m.resource != r) ==>
          LineAt(db, r, stop, first - 1) == Held(db.rows[r]))
    && (Distinct(ids) ==> forall i, j :: 0 <= i < j < |movers| ==> movers[i].resource != movers[j].resource)
  }

  predicate Distinct(ids: seq<ResId>) { forall i, j :: 0 <= i < j < |ids| ==> ids[i] != ids[j] }

  lemma DistinctNext(ids: seq<ResId>, i: nat)
    requires i < |ids| && Distinct(ids[..i + 1])
    ensures Distinct(ids[..i]) && ids[i] !in ids[..i]
  {
    assert forall k :: 0 <= k <= i ==> ids[..i + 1][k] == ids[k];
  }

  lemma MoversNext(movers: seq<Mover>, net: int, at: Time, db: Db, ids: seq<ResId>, i: nat, stop: Time, first: int)
    requires (forall r :: r in ids ==> r in db.rows) && i < |ids|
    requires MoversSay(movers, db, ids[..i], stop, first)
    requires net == Held(db.rows[ids[i]]) - LineAt(db, ids[i], stop, first - 1)
    requires net != 0 ==> LatestIn(HistoryOf(db, ids[i], stop).1, first, Some(at))
    ensures MoversSay(if net != 0 then movers + [Mover(ids[i], net, at)] else movers,
                      db, ids[..i + 1], stop, first)
  {
    hide LineAt, LatestIn, HistoryOf;
    assert ids[..i + 1] == ids[..i] + [ids[i]];
    if Distinct(ids[..i + 1]) { DistinctNext(ids, i); }
    var after := if net != 0 then movers + [Mover(ids[i], net, at)] else movers;
    forall r | r in ids[..i + 1] && (forall m :: m in after ==> m.resource != r)
      ensures LineAt(db, r, stop, first - 1) == Held(db.rows[r])
    {
      if net != 0 { assert after[|after| - 1].resource == ids[i]; }
    }
  }

  /** The running sum over the buckets. */
  method Series(base: int, deltas: array<int>, legacy: Cost) returns (series: seq<int>)
    ensures |series| == deltas.Length
    ensures forall d :: 0 <= d < deltas.Length ==> series[d] == base + Total(deltas[..][..d + 1]) + legacy
  {
    series := [];
    var running := base;
    assert deltas[..0] == [];
    for index := 0 to deltas.Length
      invariant |series| == index && running == base + Total(deltas[..index])
      invariant forall d :: 0 <= d < index ==> series[d] == base + Total(deltas[..d + 1]) + legacy
    {
      assert deltas[..index + 1][..index] == deltas[..index];
      running := running + deltas[index];
      series := series + [running + legacy];
    }
    assert forall d {:trigger series[d]} :: 0 <= d < deltas.Length ==> deltas[..][..d + 1] == deltas[..d + 1];
  }

  /** `build`: the value at the end of each of `days` days, ending with the day of `stop`, and the
      resources whose reservation changed. The last day's value is replaced by the current total:
      `computed` is the value it replaces. */
  method Build(db: Db, ids: seq<ResId>, stop: Time, days: nat, legacy: Cost, nowTotal: Cost)
    returns (series: seq<int>, movers: seq<Mover>, computed: int)
    requires days > 0 && forall r :: r in ids ==> r in db.rows
    ensures |series| == days && series[days - 1] == nowTotal + legacy
    ensures computed == HeldNow(db, ids) + legacy
    ensures forall d :: 0 <= d < days - 1 ==>
      series[d] == legacy + LinesAt(db, ids, stop, DayOf(stop) - days + 1 + d)
    ensures MoversSay(movers, db, ids, stop, DayOf(stop) - days + 1)
  {
    hide Booked, MoversSay, HistoryOf, LatestIn;
    var first := DayOf(stop) - (days - 1);
    var deltas := new int[days](_ => 0);
    var base := 0;
    movers := [];
    NothingShown(deltas[..], db, stop, first);
    assert ids[..0] == [];
    for i := 0 to |ids|
      invariant Shows(base, deltas[..], db, ids[..i], stop, first)
      invariant MoversSay(movers, db, ids[..i], stop, first)
    {
      ghost var base0, was := base, deltas[..];
      var net, changed;
      base, net, changed := Add(db, ids[i], stop, first, base, deltas);
      ShowsNext(base0, was, base, deltas[..], db, ids, i, stop, first);
      MoversNext(movers, net, if changed.Some? then changed.value else 0, db, ids, i, stop, first);
      if net != 0 {
        movers := movers + [Mover(ids[i], net, changed.value)];
      }
    }
    assert ids[..|ids|] == ids;
    series := Series(base, deltas, legacy);
    ghost var buckets := deltas[..];
    assert forall d {:trigger buckets[..d + 1]} :: 0 <= d < days ==>
      series[d] == base + Total(buckets[..d + 1]) + legacy;
    LastShows(base, buckets, db, ids, stop, first, days - 1);
    assert buckets[..days] == buckets;
    computed := series[days - 1];
    series := series[days - 1 := nowTotal + legacy];
  }

  lemma {:induction false} LastShows(base: int, deltas: seq<int>, db: Db, ids: seq<ResId>,
                                     stop: Time, first: int, last: nat)
    requires forall r :: r in ids ==> r in db.rows
    requires Shows(base, deltas, db, ids, stop, first) && last + 1 == |deltas|
    ensures base + Total(deltas) == HeldNow(db, ids)
  {
    assert deltas[..last + 1] == deltas;
  }

  lemma NothingShown(deltas: seq<int>, db: Db, stop: Time, first: int)
    requires forall i :: 0 <= i < |deltas| ==> deltas[i] == 0
    ensures Shows(0, deltas, db, [], stop, first) && MoversSay([], db, [], stop, first)
  {
    forall d {:trigger deltas[..d + 1]} | 0 <= d < |deltas| ensures Total(deltas[..d + 1]) == 0 {
      TotalOfZeros(deltas[..d + 1]);
    }
  }

  /** The body of the outer loop. */
  method Add(db: Db, r: ResId, stop: Time, first: int, base0: int, deltas: array<int>)
    returns (base: int, net: int, changed: Option<Time>)
    requires r in db.rows && deltas.Length > 0
    modifies deltas
    ensures var replay := HistoryOf(db, r, stop);
            Booked(base0 + replay.0, old(deltas[..]), base, deltas[..], replay.1, first)
    ensures net == Held(db.rows[r]) - LineAt(db, r, stop, first - 1)
    ensures changed.None? ==> net == 0
    ensures LatestIn(HistoryOf(db, r, stop).1, first, changed)
  {
    hide LatestIn, Booked, History, NotChecks, AllOf;
    var initial, steps := Replay(AllOf(db.order, db.ops, r), db.rows[r], stop);
    EndOfHistory(db, r, stop);
    base, net, changed := Book(steps, first, base0 + initial, deltas);
  }

  /** Whatever the operations say, a replay ends at what the row holds. */
  lemma {:induction false} ReplayEndsAtRow(all: seq<Op>, row: Row, stop: Time)
    ensures var replay := History(NotChecks(all), row, stop);
            replay.0 + SumUpToAll(replay.1) == Held(row)
  {
    hide ReplayAll;
    var ops := NotChecks(all);
    if ops != [] {
      LastIsValue(ops);
      var m := ReplayAll(ops);
      var d := Delta(stop, Held(row) as int - m.last as int);
      assert (m.steps + [d])[..|m.steps|] == m.steps;
    }
  }

  // ----- Every day is exact -----

  /** Rows never go away, and never change zone. */
  ghost predicate Stays(before: Db, after: Db) {
    forall r :: r in before.rows ==> r in after.rows && after.rows[r].zone == before.rows[r].zone
  }

  lemma ChangeStays(db: Db, change: Change, t: Time)
    requires Sound(db) && Legal(db, change, t)
    ensures Stays(db, Apply(db, change, t))
  {
    match change
    case Moves(op, events, clean) => MoveIsMoved(db, op, events, t, clean);
    case _ =>
  }

  lemma {:induction false} ZonesStay(run: seq<Timed>, moment: Time)
    ensures Stays(Run(START, Past(run, moment)).db, Run(START, run).db)
  {
    hide Next, FirstChange, SecondChange, Legal, Apply;
    if run != [] && run[|run| - 1].at > moment {
      var earlier, last := run[..|run| - 1], run[|run| - 1];
      ZonesStay(earlier, moment);
      EveryRunIsSound(earlier);
      var w := Run(START, earlier);
      NextMakes(w, last.step, last.at);
      var first := FirstChange(w, last.step, last.at);
      ChangeStays(w.db, first, last.at);
      ChangeStays(Apply(w.db, first, last.at), SecondChange(w, last.step, last.at), last.at);
    }
  }

  function HeldThen(db: Db, ids: seq<ResId>): int {
    if ids == [] then 0 else HeldThen(db, ids[..|ids| - 1]) + HeldBy(db, ids[|ids| - 1])
  }

  function Known(db: Db, ids: seq<ResId>): set<ResId> { set r | r in ids && r in db.rows }

  lemma {:induction false} HeldIsSum(db: Db, ids: seq<ResId>)
    requires forall i, j :: 0 <= i < j < |ids| ==> ids[i] != ids[j]
    ensures HeldThen(db, ids) == SumHeld(db.rows, Known(db, ids))
  {
    if ids != [] {
      var earlier, last := ids[..|ids| - 1], ids[|ids| - 1];
      HeldIsSum(db, earlier);
      var mine := Known(db, ids);
      if last in db.rows {
        SumWithout(db.rows, mine, last);
        assert mine - {last} == Known(db, earlier);
      } else {
        assert mine == Known(db, earlier);
      }
    }
  }

  lemma {:induction false} LinesAreHistory(run: seq<Timed>, ids: seq<ResId>, stop: Time, day: nat)
    requires Chronological(run) && forall r :: r in ids ==> r in Run(START, run).db.rows
    ensures LinesAt(Run(START, run).db, ids, stop, day)
            == HeldThen(Run(START, Past(run, EndOf(day))).db, ids)
  {
    hide Run, StepsOf, Past;
    if ids != [] {
      var r := ids[|ids| - 1];
      LinesAreHistory(run, ids[..|ids| - 1], stop, day);
      NoCorrectionIsNeeded(run, r, stop);
      HistoryAgrees(run, r, EndOf(day));
      ByDayIsUpTo(StepsOf(Run(START, run).db, r), day);
    }
  }

  lemma {:induction false} NowIsThen(db: Db, ids: seq<ResId>)
    requires forall r :: r in ids ==> r in db.rows
    ensures HeldNow(db, ids) == HeldThen(db, ids)
  {
    if ids != [] { NowIsThen(db, ids[..|ids| - 1]); }
  }

  /** For every run: scanning all resources of a zone, the series shows for each day exactly what
      `_reserved` counted at the end of that day, and the total that replaces the last value
      replaces it by itself. */
  lemma {:induction false} EveryDayIsExact(run: seq<Timed>, ids: seq<ResId>, zone: Zone, stop: Time, day: nat)
    requires Chronological(run)
    requires forall i, j :: 0 <= i < j < |ids| ==> ids[i] != ids[j]
    requires forall r :: r in ids <==> r in InZone(Run(START, run).db.rows, zone)
    ensures LinesAt(Run(START, run).db, ids, stop, day)
            == Reserved(Run(START, Past(run, EndOf(day))).db.rows, zone, None)
    ensures HeldNow(Run(START, run).db, ids) == Reserved(Run(START, run).db.rows, zone, None)
  {
    hide Run, Past, HeldThen, LinesAt, HeldNow;
    var now, past := Run(START, run).db, Run(START, Past(run, EndOf(day))).db;
    LinesAreHistory(run, ids, stop, day);
    ZonesStay(run, EndOf(day));
    HeldIsSum(past, ids);
    assert Known(past, ids) == InZone(past.rows, zone) - {};
    NowIsThen(now, ids);
    HeldIsSum(now, ids);
    assert Known(now, ids) == InZone(now.rows, zone) - {};
  }
}
