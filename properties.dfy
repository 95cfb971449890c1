/**
 * What the tracker promises about its machines, proved of the functions in
 * `Occupancy`.
 */
module OccupancyProperties {
  import Clock
  import opened Occupancy

  /**
   * A dashboard pass keeps exactly the records still running at their own
   * clock reading, unchanged, and never touches a machine it does not list.
   */
  lemma {:induction false} SweepKeepsRunningRecords(store: Store, names: seq<string>, nows: seq<int>)
    requires |names| == |nows|
    requires Distinct(names)
    ensures var r := Sweep(store, names, nows);
      && (forall k :: 0 <= k < |names| ==> (names[k] in r <==> BusyAt(store, names[k], nows[k])))
      && (forall m :: m in r ==> m in store && r[m] == store[m])
      && (forall m :: m in store && m !in names ==> m in r)
  {
    if names != [] {
      var first := AfterView(store, names[0], nows[0]);
      var tailNames, tailNows := names[1..], nows[1..];
      assert Distinct(tailNames);
      SweepKeepsRunningRecords(first, tailNames, tailNows);
      var r := Sweep(store, names, nows);
      assert r == Sweep(first, tailNames, tailNows);
      assert names[0] !in tailNames by {
        forall k | 0 <= k < |tailNames| ensures tailNames[k] != names[0] {
          assert tailNames[k] == names[k + 1];
        }
      }
      forall k | 0 <= k < |names|
        ensures names[k] in r <==> BusyAt(store, names[k], nows[k])
      {
        if k > 0 {
          assert names[k] == tailNames[k - 1] && nows[k] == tailNows[k - 1];
          assert names[k] != names[0];
          assert names[k] in first <==> names[k] in store;
        }
      }
      forall m | m in store && m !in names ensures m in r {
        assert names == [names[0]] + tailNames;
      }
    }
  }

  /** Running a second pass with the same readings changes nothing more. */
  lemma SweepIdempotent(store: Store, names: seq<string>, nows: seq<int>)
    requires |names| == |nows|
    requires Distinct(names)
    ensures Sweep(Sweep(store, names, nows), names, nows) == Sweep(store, names, nows)
  {
  }

  /** The cleanup a view performs never changes what that view reports. */
  lemma ViewReportsUnchanged(store: Store, machine: string, now: int)
    ensures var s := StatusOf(store, machine, now);
            var after := StatusOf(AfterView(store, machine, now), machine, now);
            (s.InUse? ==> after == s) && (!s.InUse? ==> after == Free)
  {
  }

  /**
   * Once a view has found a machine free, viewing it again at any time finds
   * no record, reports it free and deletes nothing more.
   */
  lemma ViewCleanupIdempotent(store: Store, machine: string, now: int, later: int)
    requires !StatusOf(store, machine, now).InUse?
    ensures var once := AfterView(store, machine, now);
      && machine !in once
      && StatusOf(once, machine, later) == Free
      && AfterView(once, machine, later) == once
  {
  }

  /**
   * Power Cut on a running machine adds exactly fifteen minutes: the report
   * at the same instant is the old one with fifteen more minutes remaining
   * and a finish time fifteen minutes later, and the machine stays in use.
   */
  lemma PowerCutAddsFifteenMinutes(store: Store, machine: string, now: int)
    requires BusyAt(store, machine, now)
    ensures var s := StatusOf(store, machine, now);
      && BusyAt(AfterPowerCut(store, machine, now), machine, now)
      && StatusOf(AfterPowerCut(store, machine, now), machine, now)
         == s.(remainingMins := s.remainingMins + 15, freeAt := s.freeAt + 15 * 60)
  {
  }

  /** After Finish Early the machine is reported free at every time. */
  lemma FinishEarlyFrees(store: Store, machine: string, now: int, later: int)
    ensures StatusOf(AfterFinishEarly(store, machine, now), machine, later) == Free
  {
  }

  /**
   * Each operation on one machine leaves every other machine's report, at
   * any time, as it was.
   */
  lemma OtherMachinesUnaffected(store: Store, machine: string, other: string, now: int, t: int)
    requires other != machine
    ensures StatusOf(AfterView(store, machine, now), other, t) == StatusOf(store, other, t)
    ensures StatusOf(AfterPowerCut(store, machine, now), other, t) == StatusOf(store, other, t)
    ensures StatusOf(AfterFinishEarly(store, machine, now), other, t) == StatusOf(store, other, t)
  {
  }

  /**
   * A start with a name makes the selected machine report in use from the
   * first clock reading until, but not including, `duration` minutes later,
   * with the full duration remaining at that first reading; at the end time
   * itself the timer has run out.
   */
  lemma StartRunsForDuration(store: Store, form: StartForm, now1: int, now2: int, t: int)
    requires ValidDuration(form.duration)
    requires form.name != ""
    ensures var r := AfterStart(store, form, now1, now2);
      && (BusyAt(r, form.machine, t) <==> t < now1 + form.duration * 60)
      && StatusOf(r, form.machine, now1)
         == InUse(form.name, form.designation, form.comment, form.duration, now1 + form.duration * 60)
      && StatusOf(r, form.machine, now1 + form.duration * 60) == FreeAfterTimer
  {
  }

  /**
   * The start and end times come from two separate clock readings, so the
   * stored span equals the chosen duration only when the readings agree.
   */
  lemma StartSpanMatchesDurationOnlyOnEqualReadings(store: Store, form: StartForm, now1: int, now2: int)
    requires ValidDuration(form.duration)
    requires form.name != ""
    ensures var rec := AfterStart(store, form, now1, now2)[form.machine];
      rec.endTime - rec.startTime == form.duration * 60 <==> now1 == now2
  {
  }
}
