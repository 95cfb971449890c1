/**
 * The `machines` collection as the running app sees it: one object whose
 * documents the dashboard and the start form read, update and delete in
 * place. Every method takes raw UTC clock readings and converts them to IST
 * as the app does; its effect is stated through the functions of
 * `Occupancy`, whose properties `OccupancyProperties` proves.
 */
module Collection {
  import Clock
  import opened Occupancy
  import OccupancyProperties

  class MachineCollection {
    /** Machine name to its document; a machine without one is free. */
    var docs: Store

    constructor ()
      ensures docs == map[]
    {
      docs := map[];
    }

    /**
     * The dashboard's look at one machine, reading the clock once: report
     * the machine, and delete its document if the timer has run out.
     */
    method View(machine: string, utcNow: int) returns (status: Status)
      modifies this
      ensures status == StatusOf(old(docs), machine, Clock.IstTime(utcNow))
      ensures docs == AfterView(old(docs), machine, Clock.IstTime(utcNow))
    {
      var now := Clock.IstTime(utcNow);
      if machine in docs {
        var rec := docs[machine];
        if now < rec.endTime {
          var remaining := Clock.WholeMinutes(rec.endTime - now);
          status := InUse(rec.userName, rec.designation, rec.comment, remaining, rec.endTime);
        } else {
          status := FreeAfterTimer;
          docs := docs - {machine};
        }
      } else {
        status := Free;
      }
    }

    /**
     * The dashboard pass in which "Power Cut" is pressed for `machine`: if
     * the machine is still in use at this reading, its end time moves fifteen
     * minutes later; otherwise the button is not there and the pass only
     * views the machine.
     */
    method Extend(machine: string, utcNow: int) returns (status: Status)
      modifies this
      ensures status == StatusOf(old(docs), machine, Clock.IstTime(utcNow))
      ensures docs == AfterPowerCut(old(docs), machine, Clock.IstTime(utcNow))
    {
      status := View(machine, utcNow);
      if status.InUse? {
        var rec := docs[machine];
        docs := docs[machine := rec.(endTime := rec.endTime + Clock.Minutes(PowerCutMinutes))];
      }
    }

    /**
     * The dashboard pass in which "Finish Early" is pressed for `machine`:
     * if the machine is in use its document is deleted; otherwise the pass
     * only views it, which deletes an expired document.
     */
    method Finish(machine: string, utcNow: int) returns (status: Status)
      modifies this
      ensures status == StatusOf(old(docs), machine, Clock.IstTime(utcNow))
      ensures docs == AfterFinishEarly(old(docs), machine, Clock.IstTime(utcNow))
    {
      status := View(machine, utcNow);
      if status.InUse? {
        docs := docs - {machine};
      }
    }

    /**
     * The start form's submit handler. `utcEnd` is the clock reading the end
     * time is computed from and `utcStart` the later, separate reading stored
     * as the start time. Without a name nothing is written.
     */
    method Start(machine: string, name: string, designation: Designation, duration: int,
                 comment: string, utcEnd: int, utcStart: int) returns (started: bool)
      requires ValidDuration(duration)
      modifies this
      ensures started <==> name != ""
      ensures docs == AfterStart(old(docs), StartForm(name, designation, machine, duration, comment),
                                 Clock.IstTime(utcEnd), Clock.IstTime(utcStart))
    {
      started := name != "";
      if started {
        var endTime := Clock.IstTime(utcEnd) + Clock.Minutes(duration);
        docs := docs[machine := Record(name, designation, Clock.IstTime(utcStart), endTime, comment)];
      }
    }

    /**
     * One pass of the dashboard over every configured machine, in order:
     * the reports, and the collection with every expired document deleted.
     * `utcNows[k]` is the clock reading for the k-th machine; the app takes
     * it only when that machine has a document, and without one it is unused.
     */
    method RefreshDashboard(utcNows: seq<int>) returns (statuses: seq<Status>)
      requires |utcNows| == |Machines|
      modifies this
      ensures |statuses| == |Machines|
      ensures forall k :: 0 <= k < |Machines| ==>
        statuses[k] == StatusOf(old(docs), Machines[k], Clock.IstTime(utcNows[k]))
      ensures docs == Sweep(old(docs), Machines, Clock.IstTimes(utcNows))
      ensures forall k :: 0 <= k < |Machines| ==> (Machines[k] in docs <==> statuses[k].InUse?)
    {
      ghost var nows := Clock.IstTimes(utcNows);
      MachinesDistinct();
      statuses := [];
      var i := 0;
      while i < |Machines|
        invariant 0 <= i <= |Machines|
        invariant |statuses| == i
        invariant forall k :: 0 <= k < i ==>
          statuses[k] == StatusOf(old(docs), Machines[k], nows[k])
        invariant forall k :: i <= k < |Machines| ==> SameRecord(docs, old(docs), Machines[k])
        invariant Sweep(docs, Machines[i..], nows[i..]) == Sweep(old(docs), Machines, nows)
      {
        ghost var before := docs;
        SameRecordSameStatus(docs, old(docs), Machines[i], nows[i]);
        var status := View(Machines[i], utcNows[i]);
        assert Machines[i..][1..] == Machines[i + 1..] && nows[i..][1..] == nows[i + 1..];
        assert Sweep(docs, Machines[i + 1..], nows[i + 1..]) == Sweep(before, Machines[i..], nows[i..]);
        forall k | i < k < |Machines| ensures SameRecord(docs, old(docs), Machines[k]) {
          assert Machines[k] != Machines[i];
          assert SameRecord(docs, before, Machines[k]);
        }
        statuses := statuses + [status];
        i := i + 1;
      }
      OccupancyProperties.SweepKeepsRunningRecords(old(docs), Machines, nows);
    }
  }
}
