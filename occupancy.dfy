/**
 * The occupancy state machine of the hostel laundry tracker, as values.
 *
 * The `machines` collection maps a machine name to at most one record:
 * who started it, when, and when it is due to finish. A machine with a
 * record whose end time is still ahead is in use; otherwise it is free.
 * Every function below takes the collection as it stands and IST clock
 * readings in seconds, and gives what the dashboard reports or the
 * collection the next write leaves behind.
 */
module Occupancy {
  import Clock

  /** The four choices of the start form's designation box. */
  datatype Designation = PhdScholar | JrfSrf | Staff | Visitor

  /** One document of the `machines` collection. Times are IST seconds. */
  datatype Record = Record(
    userName: string,
    designation: Designation,
    startTime: int,
    endTime: int,
    comment: string)

  type Store = map<string, Record>

  /** The configured machines, in dashboard order. */
  const Machines: seq<string> := ["Washing Machine 1", "Washing Machine 2", "Dryer 1"]

  /** Minutes a "Power Cut" adds to the running cycle. */
  const PowerCutMinutes: int := 15

  /** Bounds of the duration slider on the start form. */
  const MinDuration: int := 15
  const MaxDuration: int := 120

  /** What the dashboard shows for one machine. */
  datatype Status =
    | Free                    // no record at all
    | FreeAfterTimer          // a record whose timer has run out
    | InUse(userName: string, designation: Designation, comment: string,
            remainingMins: int, freeAt: int)

  /** The fields of a submitted start form. */
  datatype StartForm = StartForm(
    name: string,
    designation: Designation,
    machine: string,
    duration: int,
    comment: string)

  predicate ValidDuration(duration: int) {
    MinDuration <= duration <= MaxDuration
  }

  /** A machine is in use exactly while `now` is strictly before its end time. */
  predicate BusyAt(store: Store, machine: string, now: int) {
    machine in store && now < store[machine].endTime
  }

  predicate Distinct(names: seq<string>) {
    forall i, j :: 0 <= i < j < |names| ==> names[i] != names[j]
  }

  /** The configured machine names are pairwise different. */
  lemma MachinesDistinct()
    ensures Distinct(Machines)
  {
  }

  /** `a` and `b` hold the same record, or both none, for `machine`. */
  predicate SameRecord(a: Store, b: Store, machine: string) {
    (machine in a <==> machine in b) && (machine in a ==> a[machine] == b[machine])
  }

  /** A machine's report depends on its own record only. */
  lemma SameRecordSameStatus(a: Store, b: Store, machine: string, now: int)
    requires SameRecord(a, b, machine)
    ensures StatusOf(a, machine, now) == StatusOf(b, machine, now)
  {
  }

  /** The dashboard's report for `machine` at IST time `now`. */
  function StatusOf(store: Store, machine: string, now: int): (s: Status)
    ensures s.InUse? <==> BusyAt(store, machine, now)
    ensures s.Free? <==> machine !in store
    ensures s.InUse? ==>
      var r := store[machine];
      && s.userName == r.userName && s.designation == r.designation
      && s.comment == r.comment && s.freeAt == r.endTime
      && 0 <= s.remainingMins * 60 <= r.endTime - now < (s.remainingMins + 1) * 60
  {
    if machine !in store then Free
    else
      var r := store[machine];
      if now < r.endTime then
        InUse(r.userName, r.designation, r.comment, Clock.WholeMinutes(r.endTime - now), r.endTime)
      else
        FreeAfterTimer
  }

  /**
   * The collection after the dashboard has looked at `machine` at `now`:
   * a record whose timer has run out is deleted, nothing else changes.
   */
  function AfterView(store: Store, machine: string, now: int): (r: Store)
    ensures machine in r <==> BusyAt(store, machine, now)
    ensures forall k :: k in r ==> k in store && r[k] == store[k]
    ensures forall k :: k in store && k != machine ==> k in r
  {
    if machine in store && !(now < store[machine].endTime) then store - {machine}
    else store
  }

  /**
   * The collection after "Power Cut" is pressed for `machine` in a dashboard
   * pass reading the clock at `now`. The button only exists while the machine
   * is in use; then only its end time moves, by exactly fifteen minutes.
   * Otherwise the pass does what a plain view does.
   */
  function AfterPowerCut(store: Store, machine: string, now: int): (r: Store)
    ensures BusyAt(store, machine, now) ==>
      && r.Keys == store.Keys
      && r[machine] == store[machine].(endTime := store[machine].endTime + 15 * 60)
      && forall k :: k in store && k != machine ==> r[k] == store[k]
    ensures !BusyAt(store, machine, now) ==> r == AfterView(store, machine, now)
  {
    if BusyAt(store, machine, now) then
      var rec := store[machine];
      store[machine := rec.(endTime := rec.endTime + Clock.Minutes(PowerCutMinutes))]
    else
      AfterView(store, machine, now)
  }

  /**
   * The collection after "Finish Early" is pressed for `machine` in a
   * dashboard pass reading the clock at `now`. While in use the record is
   * deleted by the button; otherwise the pass's own cleanup deletes an
   * expired record. Either way the machine is left without a record.
   */
  function AfterFinishEarly(store: Store, machine: string, now: int): (r: Store)
    ensures r == store - {machine}
  {
    if BusyAt(store, machine, now) then store - {machine}
    else AfterView(store, machine, now)
  }

  /**
   * The collection after the start form is submitted. The end time comes
   * from the first clock reading `now1`, the start time from a second,
   * separate reading `now2`. An empty name changes nothing; otherwise the
   * selected machine's record is replaced whether or not it is in use.
   */
  function AfterStart(store: Store, form: StartForm, now1: int, now2: int): (r: Store)
    requires ValidDuration(form.duration)
    ensures form.name == "" ==> r == store
    ensures form.name != "" ==>
      && r.Keys == store.Keys + {form.machine}
      && r[form.machine].userName == form.name
      && r[form.machine].designation == form.designation
      && r[form.machine].comment == form.comment
      && r[form.machine].startTime == now2
      && r[form.machine].endTime == now1 + form.duration * 60
      && forall k :: k in store && k != form.machine ==> r[k] == store[k]
  {
    if form.name == "" then store
    else
      var endTime := now1 + Clock.Minutes(form.duration);
      store[form.machine := Record(form.name, form.designation, now2, endTime, form.comment)]
  }

  /**
   * One dashboard pass: each machine in `names` is viewed in turn, the
   * k-th with its own clock reading `nows[k]`. A pass only ever deletes.
   */
  function Sweep(store: Store, names: seq<string>, nows: seq<int>): (r: Store)
    requires |names| == |nows|
    ensures forall m :: m in r ==> m in store && r[m] == store[m]
    decreases |names|
  {
    if names == [] then store
    else Sweep(AfterView(store, names[0], nows[0]), names[1..], nows[1..])
  }
}
