/**
 Trucks and the own-truck jobs they are given to: claimed by compare-and-set, released when a job is
 delivered or cancelled. A job's row is used again when its order arranges transport anew.
 */
module Trucks {
  import opened Money

  datatype Availability = Available | Busy | Offline

  datatype JobStatus = Requested | Quoted | Accepted | PickedUp | InTransit | Delivered | Cancelled

  datatype Job = Job(truck: int, status: JobStatus)

  datatype Yard = Yard(trucks: seq<Availability>, jobs: seq<Job>)

  predicate IsActive(s: JobStatus) {
    s == Accepted || s == PickedUp || s == InTransit
  }

  predicate IsTruck(y: Yard, t: int) {
    0 <= t < |y.trucks|
  }

  predicate IsActiveOn(y: Yard, i: int, t: int) {
    0 <= i < |y.jobs| && y.jobs[i].truck == t && IsActive(y.jobs[i].status)
  }

  /** An available truck has no active job, and no truck has two. */
  ghost predicate Exclusive(y: Yard) {
    && (forall i, t :: IsActiveOn(y, i, t) ==> IsTruck(y, t) && y.trucks[t] != Available)
    && (forall i, j, t :: IsActiveOn(y, i, t) && IsActiveOn(y, j, t) ==> i == j)
  }

  // --------------------------------------------------------------------------
  // Operations
  // --------------------------------------------------------------------------

  function Claim(trucks: seq<Availability>, t: int): Option<seq<Availability>> {
    if 0 <= t < |trucks| && trucks[t] == Available then Some(trucks[t := Busy]) else None
  }

  function Release(trucks: seq<Availability>, t: int): seq<Availability> {
    if 0 <= t < |trucks| && trucks[t] == Busy then trucks[t := Available] else trucks
  }

  predicate HasActiveJob(y: Yard, t: int) {
    exists i :: 0 <= i < |y.jobs| && IsActiveOn(y, i, t)
  }

  predicate MayMove(a: JobStatus, b: JobStatus) {
    match a
    case Requested => b in {Accepted, Quoted, Cancelled}
    case Quoted => b in {Accepted, Cancelled}
    case Accepted => b in {PickedUp, Cancelled}
    case PickedUp => b == InTransit
    case InTransit => b == Delivered
    case Delivered => b == Delivered
    case Cancelled => false
  }

  /** A status update in flight, with the job's row as it was read. */
  datatype Call = Call(job: int, next: JobStatus, at: Job)

  datatype Step =
    | AddTruck
    | SetAvailability(truck: int, availability: Availability)
    | CreateJob(truck: int)
    | RecreateJob(job: int, truck: int)
    | CancelJob(job: int)
    | Read(job: int, next: JobStatus)
    | Run(call: int)

  datatype World = World(yard: Yard, calls: seq<Call>)

  const START: World := World(Yard([], []), [])

  predicate Releases(s: JobStatus) {
    s == Delivered || s == Cancelled
  }

  /** The status is written whatever it is by now, and the truck that was read is released. */
  function Commit(y: Yard, c: Call): Yard
    requires 0 <= c.job < |y.jobs|
  {
    Yard(if Releases(c.next) then Release(y.trucks, c.at.truck) else y.trucks,
         y.jobs[c.job := y.jobs[c.job].(status := c.next)])
  }

  function Next(w: World, step: Step): World {
    var y := w.yard;
    match step
    case AddTruck => w.(yard := y.(trucks := y.trucks + [Available]))
    case SetAvailability(t, a) =>
      if IsTruck(y, t) && !(a == Available && HasActiveJob(y, t)) then w.(yard := y.(trucks := y.trucks[t := a])) else w
    case CreateJob(t) =>
      (match Claim(y.trucks, t)
       case None => w
       case Some(trucks) => w.(yard := Yard(trucks, y.jobs + [Job(t, Accepted)])))
    case RecreateJob(i, t) =>
      if 0 <= i < |y.jobs| && y.jobs[i].status == Cancelled then
        (match Claim(y.trucks, t)
         case None => w
         case Some(trucks) => w.(yard := Yard(trucks, y.jobs[i := Job(t, Accepted)])))
      else w
    case CancelJob(i) =>
      if 0 <= i < |y.jobs| && !Releases(y.jobs[i].status)
      then w.(yard := Yard(Release(y.trucks, y.jobs[i].truck), y.jobs[i := y.jobs[i].(status := Cancelled)])) else w
    case Read(i, next) =>
      if 0 <= i < |y.jobs| && MayMove(y.jobs[i].status, next) then w.(calls := w.calls + [Call(i, next, y.jobs[i])]) else w
    case Run(i) =>
      if 0 <= i < |w.calls| && 0 <= w.calls[i].job < |y.jobs| then w.(yard := Commit(y, w.calls[i])) else w
  }

  function After(steps: seq<Step>): World {
    if steps == [] then START else Next(After(steps[..|steps| - 1]), steps[|steps| - 1])
  }

  // --------------------------------------------------------------------------
  // Exactly when a status update keeps trucks exclusive
  // --------------------------------------------------------------------------

  /** Another job than `i` is active on truck t. */
  predicate OtherIsActive(y: Yard, i: int, t: int) {
    exists j :: 0 <= j < |y.jobs| && j != i && IsActiveOn(y, j, t)
  }

  /** What the update would have to check in its transaction. */
  predicate Fits(y: Yard, c: Call)
    requires 0 <= c.job < |y.jobs|
  {
    var now := y.jobs[c.job];
    if Releases(c.next) then IsTruck(y, c.at.truck) && y.trucks[c.at.truck] == Busy ==> !OtherIsActive(y, c.job, c.at.truck)
    else if IsActive(c.next) then
      IsActive(now.status) ||
      (IsTruck(y, now.truck) && y.trucks[now.truck] != Available && !OtherIsActive(y, c.job, now.truck))
    else true
  }

  lemma OthersUnchanged(y: Yard, c: Call, j: int, t: int)
    requires 0 <= c.job < |y.jobs| && j != c.job
    ensures IsActiveOn(Commit(y, c), j, t) <==> IsActiveOn(y, j, t)
  {
  }

  lemma FittingCommitKeepsExclusive(y: Yard, c: Call)
    requires Exclusive(y) && 0 <= c.job < |y.jobs| && Fits(y, c)
    ensures Exclusive(Commit(y, c))
  {
    var z := Commit(y, c);
    forall i, t | IsActiveOn(z, i, t) ensures IsTruck(z, t) && z.trucks[t] != Available {
      if i != c.job {
        OthersUnchanged(y, c, i, t);
      } else if IsActive(y.jobs[i].status) {
        assert IsActiveOn(y, i, t);
      }
    }
    forall i, j, t | IsActiveOn(z, i, t) && IsActiveOn(z, j, t) ensures i == j {
      if i != c.job { OthersUnchanged(y, c, i, t); }
      if j != c.job { OthersUnchanged(y, c, j, t); }
      if IsActive(y.jobs[c.job].status) {
        assert IsActiveOn(y, c.job, y.jobs[c.job].truck);
      }
    }
  }

  lemma UnfittingCommitBreaksExclusive(y: Yard, c: Call)
    requires Exclusive(y) && 0 <= c.job < |y.jobs| && !Fits(y, c)
    ensures !Exclusive(Commit(y, c))
  {
    var z := Commit(y, c);
    if Releases(c.next) {
      var j :| 0 <= j < |y.jobs| && j != c.job && IsActiveOn(y, j, c.at.truck);
      assert IsActiveOn(z, j, c.at.truck);
      assert z.trucks[c.at.truck] == Available;
    } else {
      var t := y.jobs[c.job].truck;
      assert IsActiveOn(z, c.job, t);
      if OtherIsActive(y, c.job, t) {
        var j :| 0 <= j < |y.jobs| && j != c.job && IsActiveOn(y, j, t);
        assert IsActiveOn(z, j, t);
      }
    }
  }

  /** However late it comes, a status update keeps trucks exclusive exactly when it fits. */
  lemma UpdateKeepsExclusiveIff(y: Yard, c: Call)
    requires Exclusive(y) && 0 <= c.job < |y.jobs|
    ensures Exclusive(Commit(y, c)) <==> Fits(y, c)
  {
    if Fits(y, c) {
      FittingCommitKeepsExclusive(y, c);
    } else {
      UnfittingCommitBreaksExclusive(y, c);
    }
  }

  predicate Waits(s: JobStatus) {
    s == Requested || s == Quoted
  }

  /** Own-truck jobs are created accepted, so none is ever waiting for a truck. */
  ghost predicate NoneWaits(y: Yard) {
    forall i :: 0 <= i < |y.jobs| ==> !Waits(y.jobs[i].status)
  }

  /** An update on a row nobody touched since it was read fits, unless it delivers a delivered job again. */
  lemma UndisturbedUpdateFits(y: Yard, c: Call)
    requires Exclusive(y) && 0 <= c.job < |y.jobs|
    requires c.at == y.jobs[c.job] && MayMove(c.at.status, c.next) && c.at.status != Delivered && !Waits(c.at.status)
    ensures Fits(y, c)
  {
    assert IsActiveOn(y, c.job, c.at.truck);
  }

  // --------------------------------------------------------------------------
  // Whole runs
  // --------------------------------------------------------------------------

  lemma AvailabilityKeepsExclusive(w: World, step: Step)
    requires Exclusive(w.yard) && (step.AddTruck? || step.SetAvailability?)
    ensures Exclusive(Next(w, step).yard)
  {
    var y, z := w.yard, Next(w, step).yard;
    forall i, t | IsActiveOn(z, i, t) ensures IsTruck(z, t) && z.trucks[t] != Available {
      assert IsActiveOn(y, i, t);
    }
    assert forall i, t :: IsActiveOn(z, i, t) ==> IsActiveOn(y, i, t);
  }

  /** A job is given only a truck that nobody works with. */
  lemma ClaimKeepsExclusive(w: World, step: Step)
    requires Exclusive(w.yard) && (step.CreateJob? || step.RecreateJob?)
    ensures Exclusive(Next(w, step).yard)
  {
    var y, z := w.yard, Next(w, step).yard;
    var touched := if step.CreateJob? then |y.jobs| else step.job;
    forall i, t | IsActiveOn(z, i, t) && i != touched ensures IsActiveOn(y, i, t) {
    }
    forall i, t | IsActiveOn(z, i, t) ensures IsTruck(z, t) && z.trucks[t] != Available {
      if i != touched {
        assert IsActiveOn(y, i, t);
      }
    }
  }

  lemma CancelKeepsExclusive(w: World, i: int)
    requires Exclusive(w.yard) && NoneWaits(w.yard)
    ensures Exclusive(Next(w, CancelJob(i)).yard)
  {
    var y, z := w.yard, Next(w, CancelJob(i)).yard;
    if 0 <= i < |y.jobs| && !Releases(y.jobs[i].status) {
      assert IsActiveOn(y, i, y.jobs[i].truck);
      forall j, t | IsActiveOn(z, j, t) ensures IsActiveOn(y, j, t) && IsTruck(z, t) && z.trucks[t] != Available {
        assert IsActiveOn(y, j, t);
      }
    }
  }

  /** The step commits a status update that was read earlier. */
  predicate Updates(w: World, step: Step) {
    step.Run? && 0 <= step.call < |w.calls| && 0 <= w.calls[step.call].job < |w.yard.jobs|
  }

  /** Release(BUSY) of a truck whose job is already over would free somebody else's truck: a second delivery. */
  predicate IsOrderly(w: World, step: Step) {
    Updates(w, step) ==>
      w.calls[step.call].at == w.yard.jobs[w.calls[step.call].job] && w.calls[step.call].at.status != Delivered
  }

  predicate AllOrderly(steps: seq<Step>) {
    steps == [] || (AllOrderly(steps[..|steps| - 1]) && IsOrderly(After(steps[..|steps| - 1]), steps[|steps| - 1]))
  }

  predicate IsAdmitted(c: Call) {
    MayMove(c.at.status, c.next) && !Waits(c.at.status)
  }

  ghost predicate Sound(w: World) {
    Exclusive(w.yard) && NoneWaits(w.yard) && forall i :: 0 <= i < |w.calls| ==> IsAdmitted(w.calls[i])
  }

  predicate IsFitting(w: World, step: Step) {
    Updates(w, step) ==> Fits(w.yard, w.calls[step.call])
  }

  predicate AllFit(steps: seq<Step>) {
    steps == [] || (AllFit(steps[..|steps| - 1]) && IsFitting(After(steps[..|steps| - 1]), steps[|steps| - 1]))
  }

  lemma StepIsSoundIff(w: World, step: Step)
    requires Sound(w)
    ensures Sound(Next(w, step)) <==> IsFitting(w, step)
  {
    match step
    case Run(i) =>
      if Updates(w, step) {
        assert IsAdmitted(w.calls[i]);
        UpdateKeepsExclusiveIff(w.yard, w.calls[i]);
      }
    case AddTruck => AvailabilityKeepsExclusive(w, step);
    case SetAvailability(_, _) => AvailabilityKeepsExclusive(w, step);
    case Read(_, _) =>
    case CancelJob(i) => CancelKeepsExclusive(w, i);
    case _ => ClaimKeepsExclusive(w, step);
  }

  /** Truck exclusivity, in every run whose updates meet the missing guard when they commit, however late that is. */
  lemma {:induction false} TrucksAreExclusiveWhenAllFit(steps: seq<Step>)
    requires AllFit(steps)
    ensures Sound(After(steps)) && Exclusive(After(steps).yard)
  {
    if steps != [] {
      TrucksAreExclusiveWhenAllFit(steps[..|steps| - 1]);
      StepIsSoundIff(After(steps[..|steps| - 1]), steps[|steps| - 1]);
    }
  }

  /** A run stays sound at every step exactly when all its updates fit: no weaker guard will do. */
  ghost predicate AlwaysSound(steps: seq<Step>) {
    Sound(After(steps)) && (steps == [] || AlwaysSound(steps[..|steps| - 1]))
  }

  lemma {:induction false} AlwaysSoundIffAllFit(steps: seq<Step>)
    ensures AlwaysSound(steps) <==> AllFit(steps)
  {
    if steps != [] {
      var before := steps[..|steps| - 1];
      AlwaysSoundIffAllFit(before);
      if AlwaysSound(before) {
        StepIsSoundIff(After(before), steps[|steps| - 1]);
      }
    }
  }

  lemma {:induction false} OrderlyRunsFit(steps: seq<Step>)
    requires AllOrderly(steps)
    ensures AllFit(steps)
  {
    if steps != [] {
      var before, step := steps[..|steps| - 1], steps[|steps| - 1];
      OrderlyRunsFit(before);
      TrucksAreExclusiveWhenAllFit(before);
      var w := After(before);
      if Updates(w, step) {
        assert IsAdmitted(w.calls[step.call]);
        UndisturbedUpdateFits(w.yard, w.calls[step.call]);
      }
    }
  }

  /** In particular in every run whose updates are undisturbed and deliver no job twice. */
  lemma {:induction false} TrucksAreExclusive(steps: seq<Step>)
    requires AllOrderly(steps)
    ensures Sound(After(steps)) && Exclusive(After(steps).yard)
  {
    OrderlyRunsFit(steps);
    TrucksAreExclusiveWhenAllFit(steps);
  }

  /** An active job keeps its truck until it is delivered or cancelled, whatever the step. */
  lemma ActiveJobKeepsItsTruck(w: World, step: Step, i: int)
    requires 0 <= i < |w.yard.jobs| && IsActive(w.yard.jobs[i].status)
    ensures var y := Next(w, step).yard;
      && |w.yard.jobs| <= |y.jobs| && y.jobs[i].truck == w.yard.jobs[i].truck
      && (y.jobs[i].status != w.yard.jobs[i].status ==> step == CancelJob(i) || Updates(w, step))
  {
  }

  /** A truck is made available as asked unless it has an active job; every other truck stays as it is. */
  lemma AvailabilityIsSetIff(w: World, t: int, a: Availability)
    ensures var v := Next(w, SetAvailability(t, a));
      && v.calls == w.calls && v.yard.jobs == w.yard.jobs
      && v.yard.trucks ==
           if 0 <= t < |w.yard.trucks| &&
              (a == Available ==> forall i :: 0 <= i < |w.yard.jobs| ==> !IsActiveOn(w.yard, i, t))
           then w.yard.trucks[t := a] else w.yard.trucks
  {
  }

  /** A job starts accepted, with a truck that was free; a job's row is used again only after it was cancelled. */
  lemma JobStartsIff(w: World, i: int, t: int)
    ensures var free := 0 <= t < |w.yard.trucks| && w.yard.trucks[t] == Available;
      && Next(w, CreateJob(t)) ==
           (if free then w.(yard := Yard(w.yard.trucks[t := Busy], w.yard.jobs + [Job(t, Accepted)])) else w)
      && Next(w, RecreateJob(i, t)) ==
           if free && 0 <= i < |w.yard.jobs| && w.yard.jobs[i].status == Cancelled
           then w.(yard := Yard(w.yard.trucks[t := Busy], w.yard.jobs[i := Job(t, Accepted)])) else w
  {
  }

  /** A cancelled order ends a job that is neither delivered nor cancelled, and its truck is free if it was busy. */
  lemma JobIsCancelledIff(w: World, i: int)
    requires 0 <= i < |w.yard.jobs|
    ensures var j, v := w.yard.jobs[i], Next(w, CancelJob(i));
      if j.status == Delivered || j.status == Cancelled then v == w
      else
        && v.calls == w.calls && v.yard.jobs == w.yard.jobs[i := Job(j.truck, Cancelled)]
        && |v.yard.trucks| == |w.yard.trucks|
        && forall t :: 0 <= t < |w.yard.trucks| ==>
             v.yard.trucks[t] == if t == j.truck && w.yard.trucks[t] == Busy then Available else w.yard.trucks[t]
  {
  }

  // --------------------------------------------------------------------------
  // Two runs that lose exclusivity
  // --------------------------------------------------------------------------

  lemma AfterOne(steps: seq<Step>, step: Step)
    ensures After(steps + [step]) == Next(After(steps), step)
  {
    assert (steps + [step])[..|steps|] == steps;
  }

  /** A job is delivered, its truck starts another, and the first is marked delivered again. */
  const DELIVERED_ONCE: seq<Step> :=
    [AddTruck, CreateJob(0), Read(0, PickedUp), Run(0), Read(0, InTransit), Run(1), Read(0, Delivered), Run(2)]

  const DELIVERED_TWICE: seq<Step> :=
    DELIVERED_ONCE + [CreateJob(0), Read(0, Delivered), Run(3), CreateJob(0)]

  lemma PickedUpOnce()
    ensures var w := After([AddTruck, CreateJob(0), Read(0, PickedUp), Run(0)]);
      w.yard == Yard([Busy], [Job(0, PickedUp)]) && |w.calls| == 1
  {
    var s1: seq<Step> := [AddTruck];
    var s2 := s1 + [CreateJob(0)];
    var s3 := s2 + [Read(0, PickedUp)];
    assert [AddTruck, CreateJob(0), Read(0, PickedUp), Run(0)] == s3 + [Run(0)];
    AfterOne([], AddTruck);
    assert [] + [AddTruck] == s1;
    AfterOne(s1, CreateJob(0));
    assert After(s2).yard == Yard([Busy], [Job(0, Accepted)]);
    AfterOne(s2, Read(0, PickedUp));
    AfterOne(s3, Run(0));
  }

  lemma DeliveredOnce()
    ensures After(DELIVERED_ONCE).yard == Yard([Available], [Job(0, Delivered)]) && |After(DELIVERED_ONCE).calls| == 3
  {
    PickedUpOnce();
    var s4: seq<Step> := [AddTruck, CreateJob(0), Read(0, PickedUp), Run(0)];
    var s5 := s4 + [Read(0, InTransit)];
    var s6 := s5 + [Run(1)];
    var s7 := s6 + [Read(0, Delivered)];
    assert DELIVERED_ONCE == s7 + [Run(2)];
    AfterOne(s4, Read(0, InTransit));
    AfterOne(s5, Run(1));
    assert After(s6).yard == Yard([Busy], [Job(0, InTransit)]);
    AfterOne(s6, Read(0, Delivered));
    AfterOne(s7, Run(2));
  }

  /** The second delivery frees a truck at work, which is then given to a third job as well. */
  lemma SecondDeliveryFreesABusyTruck()
    ensures var y := After(DELIVERED_TWICE).yard;
      y.jobs == [Job(0, Delivered), Job(0, Accepted), Job(0, Accepted)] && !Exclusive(y)
  {
    DeliveredOnce();
    var s1 := DELIVERED_ONCE + [CreateJob(0)];
    var s2 := s1 + [Read(0, Delivered)];
    var s3 := s2 + [Run(3)];
    assert DELIVERED_TWICE == s3 + [CreateJob(0)];
    AfterOne(DELIVERED_ONCE, CreateJob(0));
    assert After(s1).yard == Yard([Busy], [Job(0, Delivered), Job(0, Accepted)]);
    AfterOne(s1, Read(0, Delivered));
    AfterOne(s2, Run(3));
    assert After(s3).yard == Yard([Available], [Job(0, Delivered), Job(0, Accepted)]);
    AfterOne(s3, CreateJob(0));
    var y := After(DELIVERED_TWICE).yard;
    assert IsActiveOn(y, 1, 0) && IsActiveOn(y, 2, 0);
  }

  /** The same job is cancelled by two requests that both read it accepted; in between its truck is taken again. */
  const CANCELLED_TWICE: seq<Step> :=
    [AddTruck, CreateJob(0), Read(0, Cancelled), Read(0, Cancelled), Run(0), CreateJob(0), Run(1)]

  lemma SecondCancellationFreesABusyTruck()
    ensures var y := After(CANCELLED_TWICE).yard;
      y == Yard([Available], [Job(0, Cancelled), Job(0, Accepted)]) && !Exclusive(y)
  {
    var s1: seq<Step> := [AddTruck];
    var s2 := s1 + [CreateJob(0)];
    var s3 := s2 + [Read(0, Cancelled)];
    var s4 := s3 + [Read(0, Cancelled)];
    var s5 := s4 + [Run(0)];
    var s6 := s5 + [CreateJob(0)];
    assert CANCELLED_TWICE == s6 + [Run(1)];
    AfterOne([], AddTruck);
    assert [] + [AddTruck] == s1;
    AfterOne(s1, CreateJob(0));
    assert After(s2).yard == Yard([Busy], [Job(0, Accepted)]);
    AfterOne(s2, Read(0, Cancelled));
    AfterOne(s3, Read(0, Cancelled));
    AfterOne(s4, Run(0));
    assert After(s5).yard == Yard([Available], [Job(0, Cancelled)]);
    AfterOne(s5, CreateJob(0));
    AfterOne(s6, Run(1));
    assert IsActiveOn(After(CANCELLED_TWICE).yard, 1, 0);
  }

  // --------------------------------------------------------------------------
  // The handlers, as they run
  // --------------------------------------------------------------------------

  class TruckYard {
    var trucks: seq<Availability>
    var jobs: seq<Job>

    function Rows(): Yard
      reads this
    {
      Yard(trucks, jobs)
    }

    constructor ()
      ensures Rows() == START.yard
    {
      trucks, jobs := [], [];
    }

    method ClaimAvailableTruck(t: int) returns (claimed: bool)
      modifies this`trucks
      ensures claimed == Claim(old(trucks), t).Some?
      ensures trucks == if claimed then Claim(old(trucks), t).value else old(trucks)
    {
      claimed := 0 <= t < |trucks| && trucks[t] == Available;
      if claimed {
        trucks := trucks[t := Busy];
      }
    }

    method ReleaseTruck(t: int)
      modifies this`trucks
      ensures trucks == Release(old(trucks), t)
    {
      if 0 <= t < |trucks| && trucks[t] == Busy {
        trucks := trucks[t := Available];
      }
    }

    method ChangeAvailability(t: int, availability: Availability) returns (refused: bool)
      modifies this`trucks
      ensures Rows() == Next(World(old(Rows()), []), SetAvailability(t, availability)).yard
      ensures refused == (!IsTruck(old(Rows()), t) || (availability == Available && HasActiveJob(old(Rows()), t)))
      ensures refused ==> trucks == old(trucks)
      ensures !refused ==> |trucks| == |old(trucks)| && trucks[t] == availability
      ensures !refused ==> forall i :: 0 <= i < |trucks| && i != t ==> trucks[i] == old(trucks)[i]
    {
      refused := true;
      if !(0 <= t < |trucks|) {
        return;
      }
      if availability == Available {
        if HasActiveJob(Rows(), t) {
          return;
        }
      }
      trucks := trucks[t := availability];
      refused := false;
    }

    method CreateOwnTruckJob(t: int) returns (created: bool)
      modifies this
      ensures Rows() == Next(World(old(Rows()), []), CreateJob(t)).yard
      ensures created == Claim(old(trucks), t).Some?
    {
      created := ClaimAvailableTruck(t);
      if created {
        jobs := jobs + [Job(t, Accepted)];
      }
    }

    method UpdateStatus(c: Call)
      requires 0 <= c.job < |jobs|
      modifies this
      ensures Rows() == Commit(old(Rows()), c)
    {
      jobs := jobs[c.job := jobs[c.job].(status := c.next)];
      if c.next == Delivered {
        ReleaseTruck(c.at.truck);
      }
      if c.next == Cancelled {
        ReleaseTruck(c.at.truck);
      }
    }
  }
}
