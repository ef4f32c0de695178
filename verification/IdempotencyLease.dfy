/**
 The idempotency middleware as a lease protocol: create a record, or find one and replay it, refuse,
 or take it over once its lease has ended; run the handler; complete the record or delete it.
 Any number of calls interleave between these database operations.
 */
module IdempotencyLease {
  import opened Money

  /** `hash` is the fingerprint; a response body of null is replayed as an empty object. */
  datatype Body = NoBody | EmptyObject | Content(bytes: int)

  datatype Record = Record(id: int, hash: int, completed: bool, code: int, body: Body, expiresAt: int)

  /** One record a key: user, scope and key hash are unique together. */
  type Table = map<int, Record>

  /** `now` is read when the request arrives and used for everything after. */
  datatype Call = Call(key: int, hash: int, now: int, phase: Phase)

  datatype Phase =
    | Arrived
    | Taken
    | Lapsed(id: int)
    | Running(id: int, lease: int)
    | Refused
    | Replayed(code: int, body: Body)
    | Succeeded(code: int, body: Body)
    | Failed(code: int)
    | Dead

  datatype World = World(clock: int, table: Table, calls: seq<Call>, nextId: int)

  datatype Step =
    | Tick(elapsed: int)
    | Arrive(key: int, hash: int)
    | Create(call: int)
    | Find(call: int)
    | TakeOver(call: int)
    | WriteBack(call: int, code: int, body: Body)
    | Die(call: int)

  const START: World := World(0, map[], [], 0)

  // --------------------------------------------------------------------------
  // Database operations
  // --------------------------------------------------------------------------

  predicate IsAt(t: Table, key: int, id: int) {
    key in t && t[key].id == id
  }

  /** create: refused by the unique constraint when the key has a record. */
  function CreateRecord(t: Table, key: int, id: int, hash: int, expiresAt: int): Option<Table> {
    if key in t then None else Some(t[key := Record(id, hash, false, 0, NoBody, expiresAt)])
  }

  /** updateMany where id, still processing, lease ended by `now`. */
  function Renew(t: Table, key: int, id: int, now: int, expiresAt: int): Option<Table> {
    if IsAt(t, key, id) && !t[key].completed && t[key].expiresAt <= now
    then Some(t[key := t[key].(expiresAt := expiresAt)]) else None
  }

  /** update where id; the error when the record is gone is only logged. */
  function Complete(t: Table, key: int, id: int, code: int, body: Body): Table {
    if IsAt(t, key, id) then t[key := t[key].(completed := true, code := code, body := body)] else t
  }

  function Delete(t: Table, key: int, id: int): Table {
    if IsAt(t, key, id) then t - {key} else t
  }

  predicate IsSuccess(code: int) {
    200 <= code < 400
  }

  function WrittenBack(t: Table, key: int, id: int, code: int, body: Body): Table {
    if IsSuccess(code) then Complete(t, key, id, code, body) else Delete(t, key, id)
  }

  function Replay(body: Body): Body {
    if body == NoBody then EmptyObject else body
  }

  /** What the middleware makes of the record it found. */
  function Found(t: Table, c: Call): Phase {
    if c.key !in t then Refused
    else
      var r := t[c.key];
      if r.hash != c.hash then Refused
      else if r.completed then Replayed(r.code, Replay(r.body))
      else if r.expiresAt > c.now then Refused
      else Lapsed(r.id)
  }

  // --------------------------------------------------------------------------
  // Steps
  // --------------------------------------------------------------------------

  function Become(w: World, i: int, phase: Phase): World
    requires 0 <= i < |w.calls|
  {
    w.(calls := w.calls[i := w.calls[i].(phase := phase)])
  }

  predicate IsCall(w: World, i: int) {
    0 <= i < |w.calls|
  }

  function Next(w: World, step: Step, ttl: int): World {
    match step
    case Tick(elapsed) => w.(clock := w.clock + if elapsed > 0 then elapsed else 0)
    case Arrive(key, hash) => w.(calls := w.calls + [Call(key, hash, w.clock, Arrived)])
    case Create(i) =>
      if IsCall(w, i) && w.calls[i].phase == Arrived then
        var c := w.calls[i];
        match CreateRecord(w.table, c.key, w.nextId, c.hash, c.now + ttl)
        case None => Become(w, i, Taken)
        case Some(t) => Become(w, i, Running(w.nextId, c.now + ttl)).(table := t, nextId := w.nextId + 1)
      else w
    case Find(i) =>
      if IsCall(w, i) && w.calls[i].phase == Taken then Become(w, i, Found(w.table, w.calls[i])) else w
    case TakeOver(i) =>
      if IsCall(w, i) && w.calls[i].phase.Lapsed? then
        var c := w.calls[i];
        match Renew(w.table, c.key, c.phase.id, c.now, c.now + ttl)
        case None => Become(w, i, Refused)
        case Some(t) => Become(w, i, Running(c.phase.id, c.now + ttl)).(table := t)
      else w
    case WriteBack(i, code, body) =>
      if IsCall(w, i) && w.calls[i].phase.Running? then
        var c := w.calls[i];
        Become(w, i, if IsSuccess(code) then Succeeded(code, body) else Failed(code))
          .(table := WrittenBack(w.table, c.key, c.phase.id, code, body))
      else w
    case Die(i) =>
      if IsCall(w, i) && w.calls[i].phase.Running? then Become(w, i, Dead) else w
  }

  function After(steps: seq<Step>, ttl: int): World {
    if steps == [] then START else Next(After(steps[..|steps| - 1], ttl), steps[|steps| - 1], ttl)
  }

  // --------------------------------------------------------------------------
  // What every state keeps
  // --------------------------------------------------------------------------

  predicate IsRunning(w: World, i: int) {
    IsCall(w, i) && w.calls[i].phase.Running?
  }

  predicate HoldsLease(w: World, i: int) {
    IsRunning(w, i) && w.clock < w.calls[i].phase.lease
  }

  predicate HasSucceeded(w: World, i: int) {
    IsCall(w, i) && w.calls[i].phase.Succeeded?
  }

  /** What each phase says about the record of the call's key. */
  ghost predicate CallOk(w: World, i: int)
    requires IsCall(w, i)
  {
    var c, t := w.calls[i], w.table;
    && c.now <= w.clock
    && match c.phase
       case Lapsed(id) => id < w.nextId && (IsAt(t, c.key, id) ==> t[c.key].hash == c.hash)
       case Running(id, lease) =>
         && id < w.nextId
         && (IsAt(t, c.key, id) ==> t[c.key].hash == c.hash && lease <= t[c.key].expiresAt)
         && (w.clock < lease ==> IsAt(t, c.key, id) && !t[c.key].completed && t[c.key].expiresAt == lease)
       case Succeeded(code, body) =>
         c.key in t && t[c.key].completed && t[c.key].hash == c.hash && t[c.key].code == code && t[c.key].body == body
       case Replayed(code, body) =>
         c.key in t && t[c.key].completed && t[c.key].hash == c.hash && t[c.key].code == code && Replay(t[c.key].body) == body
       case _ => true
  }

  predicate OnSameRecord(w: World, i: int, j: int) {
    IsRunning(w, i) && IsRunning(w, j) && i != j &&
    w.calls[i].key == w.calls[j].key && w.calls[i].phase.id == w.calls[j].phase.id
  }

  ghost predicate DifferentLeases(w: World) {
    forall i, j :: OnSameRecord(w, i, j) ==> w.calls[i].phase.lease != w.calls[j].phase.lease
  }

  ghost predicate OneSuccess(w: World) {
    forall i, j :: HasSucceeded(w, i) && HasSucceeded(w, j) && w.calls[i].key == w.calls[j].key ==> i == j
  }

  ghost predicate CompletedBySomebody(w: World, key: int)
    requires key in w.table
  {
    exists i :: HasSucceeded(w, i) && w.calls[i].key == key
  }

  ghost predicate Inv(w: World) {
    && (forall i :: IsCall(w, i) ==> CallOk(w, i))
    && (forall k :: k in w.table ==> w.table[k].id < w.nextId)
    && (forall k :: k in w.table && w.table[k].completed ==> CompletedBySomebody(w, k))
    && DifferentLeases(w)
    && OneSuccess(w)
  }

  // --------------------------------------------------------------------------
  // Steps other than writing back
  // --------------------------------------------------------------------------

  lemma CompletedStays(w: World, v: World)
    requires |w.calls| <= |v.calls|
    requires forall i :: HasSucceeded(w, i) ==> v.calls[i] == w.calls[i]
    requires forall k :: k in w.table && w.table[k].completed ==> CompletedBySomebody(w, k)
    requires forall k :: k in v.table && v.table[k].completed ==> k in w.table && w.table[k].completed
    ensures forall k :: k in v.table && v.table[k].completed ==> CompletedBySomebody(v, k)
  {
    forall k | k in v.table && v.table[k].completed ensures CompletedBySomebody(v, k) {
      assert CompletedBySomebody(w, k);
      var i :| HasSucceeded(w, i) && w.calls[i].key == k;
      assert HasSucceeded(v, i);
    }
  }

  lemma CreateKeepsInv(w: World, i: int, ttl: int)
    requires Inv(w) && ttl > 0 && IsCall(w, i) && w.calls[i].phase == Arrived
    ensures Inv(Next(w, Create(i), ttl))
  {
    var v := Next(w, Create(i), ttl);
    CompletedStays(w, v);
    forall j | IsCall(v, j) ensures CallOk(v, j) {
      assert CallOk(w, j);
    }
    forall a, b | OnSameRecord(v, a, b) ensures v.calls[a].phase.lease != v.calls[b].phase.lease {
      assert CallOk(w, a) && CallOk(w, b);
      assert a != i && b != i ==> OnSameRecord(w, a, b);
    }
    assert forall j :: HasSucceeded(v, j) ==> HasSucceeded(w, j);
  }

  /** A lease that is renewed ends later than every lease before it. */
  lemma TakeOverKeepsInv(w: World, i: int, ttl: int)
    requires Inv(w) && ttl > 0 && IsCall(w, i) && w.calls[i].phase.Lapsed?
    ensures Inv(Next(w, TakeOver(i), ttl))
  {
    var v := Next(w, TakeOver(i), ttl);
    CompletedStays(w, v);
    assert CallOk(w, i);
    forall j | IsCall(v, j) ensures CallOk(v, j) {
      assert CallOk(w, j);
    }
    forall a, b | OnSameRecord(v, a, b) ensures v.calls[a].phase.lease != v.calls[b].phase.lease {
      assert CallOk(w, a) && CallOk(w, b);
      assert a != i && b != i ==> OnSameRecord(w, a, b);
    }
    assert forall j :: HasSucceeded(v, j) ==> HasSucceeded(w, j);
  }

  lemma QuietStepKeepsInv(w: World, step: Step, ttl: int)
    requires Inv(w) && (step.Tick? || step.Arrive? || step.Die?)
    ensures Inv(Next(w, step, ttl))
  {
    var v := Next(w, step, ttl);
    CompletedStays(w, v);
    forall j | IsCall(v, j) ensures CallOk(v, j) {
      assert j < |w.calls| ==> CallOk(w, j);
    }
    assert forall j :: HasSucceeded(v, j) ==> HasSucceeded(w, j) && v.calls[j] == w.calls[j];
    assert forall a, b :: OnSameRecord(v, a, b) ==> OnSameRecord(w, a, b);
  }

  lemma FindKeepsInv(w: World, i: int, ttl: int)
    requires Inv(w)
    ensures Inv(Next(w, Find(i), ttl))
  {
    var v := Next(w, Find(i), ttl);
    CompletedStays(w, v);
    forall j | IsCall(v, j) ensures CallOk(v, j) {
      assert CallOk(w, j);
    }
    assert forall j :: HasSucceeded(v, j) ==> HasSucceeded(w, j) && v.calls[j] == w.calls[j];
    assert forall a, b :: OnSameRecord(v, a, b) ==> OnSameRecord(w, a, b);
  }

  // --------------------------------------------------------------------------
  // Writing back
  // --------------------------------------------------------------------------

  /** The record written is nobody else's: gone, or still processing with no other lease on the key. */
  ghost predicate MayWrite(w: World, i: int)
    requires IsRunning(w, i)
  {
    var c := w.calls[i];
    IsAt(w.table, c.key, c.phase.id) ==>
      !w.table[c.key].completed && forall j :: HoldsLease(w, j) && w.calls[j].key == c.key ==> j == i
  }

  lemma WriteBackKeepsInv(w: World, i: int, code: int, body: Body, ttl: int)
    requires Inv(w) && IsRunning(w, i) && MayWrite(w, i)
    requires IsAt(w.table, w.calls[i].key, w.calls[i].phase.id)
    ensures Inv(Next(w, WriteBack(i, code, body), ttl))
  {
    var v := Next(w, WriteBack(i, code, body), ttl);
    var key := w.calls[i].key;
    assert CallOk(w, i);
    forall j | IsCall(v, j) ensures CallOk(v, j) {
      assert CallOk(w, j);
      if IsRunning(w, j) && w.clock < w.calls[j].phase.lease && w.calls[j].key == key {
        assert HoldsLease(w, j);
      }
    }
    forall k | k in v.table && v.table[k].completed ensures CompletedBySomebody(v, k) {
      if k == key {
        assert HasSucceeded(v, i);
      } else {
        assert CompletedBySomebody(w, k);
        var j :| HasSucceeded(w, j) && w.calls[j].key == k;
        assert HasSucceeded(v, j);
      }
    }
    forall a, b | HasSucceeded(v, a) && HasSucceeded(v, b) && v.calls[a].key == v.calls[b].key ensures a == b {
      assert CallOk(w, a) && CallOk(w, b);
      assert a != i ==> HasSucceeded(w, a);
      assert b != i ==> HasSucceeded(w, b);
    }
    assert forall a, b :: OnSameRecord(v, a, b) ==> OnSameRecord(w, a, b);
  }

  /** A write-back is forgotten when its record is gone and it failed: nothing changes but the caller's phase. */
  lemma LostFailureKeepsInv(w: World, i: int, code: int, body: Body, ttl: int)
    requires Inv(w) && IsRunning(w, i) && !IsSuccess(code)
    requires !IsAt(w.table, w.calls[i].key, w.calls[i].phase.id)
    ensures Inv(Next(w, WriteBack(i, code, body), ttl))
  {
    var v := Next(w, WriteBack(i, code, body), ttl);
    CompletedStays(w, v);
    forall j | IsCall(v, j) ensures CallOk(v, j) {
      assert CallOk(w, j);
    }
    assert forall j :: HasSucceeded(v, j) ==> HasSucceeded(w, j) && v.calls[j] == w.calls[j];
    assert forall a, b :: OnSameRecord(v, a, b) ==> OnSameRecord(w, a, b);
  }

  /** Somebody else's completion or lease is destroyed: then the invariant is broken too. */
  lemma ForeignWriteBreaksInv(w: World, i: int, code: int, body: Body, ttl: int)
    requires Inv(w) && IsRunning(w, i) && !MayWrite(w, i)
    ensures !Inv(Next(w, WriteBack(i, code, body), ttl))
  {
    var v := Next(w, WriteBack(i, code, body), ttl);
    var key := w.calls[i].key;
    if w.table[key].completed {
      assert CompletedBySomebody(w, key);
      var j :| HasSucceeded(w, j) && w.calls[j].key == key;
      assert v.calls[j] == w.calls[j];
      assert HasSucceeded(v, j) && IsCall(v, j);
      if IsSuccess(code) {
        assert HasSucceeded(v, i) && i != j;
      } else {
        assert !CallOk(v, j);
      }
    } else {
      var j :| HoldsLease(w, j) && w.calls[j].key == key && j != i;
      assert v.calls[j] == w.calls[j] && IsCall(v, j) && CallOk(w, j);
      assert !CallOk(v, j);
    }
  }

  lemma UnrecordedSuccessBreaksInv(w: World, i: int, code: int, body: Body, ttl: int)
    requires Inv(w) && IsRunning(w, i) && IsSuccess(code)
    requires !IsAt(w.table, w.calls[i].key, w.calls[i].phase.id)
    ensures !Inv(Next(w, WriteBack(i, code, body), ttl))
  {
    var v := Next(w, WriteBack(i, code, body), ttl);
    var key := w.calls[i].key;
    assert HasSucceeded(v, i) && IsCall(v, i);
    if key in w.table && w.table[key].completed {
      assert CompletedBySomebody(w, key);
      var j :| HasSucceeded(w, j) && w.calls[j].key == key;
      assert v.calls[j] == w.calls[j];
      assert HasSucceeded(v, j) && i != j;
    } else {
      assert !CallOk(v, i);
    }
  }

  /** What a write-back has to find: its own record, or at least no record to spoil and nothing to record. */
  ghost predicate IsProperWrite(w: World, step: Step) {
    step.WriteBack? && IsRunning(w, step.call) ==>
      && MayWrite(w, step.call)
      && (IsSuccess(step.code) ==> IsAt(w.table, w.calls[step.call].key, w.calls[step.call].phase.id))
  }

  /** Whenever it comes, a write-back keeps the protocol intact exactly when it is proper. */
  lemma WriteBackKeepsInvIff(w: World, step: Step, ttl: int)
    requires Inv(w) && step.WriteBack?
    ensures Inv(Next(w, step, ttl)) <==> IsProperWrite(w, step)
  {
    var i := step.call;
    if IsRunning(w, i) {
      if !MayWrite(w, i) {
        ForeignWriteBreaksInv(w, i, step.code, step.body, ttl);
      } else if IsAt(w.table, w.calls[i].key, w.calls[i].phase.id) {
        WriteBackKeepsInv(w, i, step.code, step.body, ttl);
      } else if IsSuccess(step.code) {
        UnrecordedSuccessBreaksInv(w, i, step.code, step.body, ttl);
      } else {
        LostFailureKeepsInv(w, i, step.code, step.body, ttl);
      }
    }
  }

  /** The handler writes back before its lease ends. */
  predicate IsOnTime(w: World, step: Step) {
    step.WriteBack? && IsRunning(w, step.call) ==> HoldsLease(w, step.call)
  }

  lemma OnlyOneLease(w: World, i: int, j: int)
    requires Inv(w) && HoldsLease(w, i) && HoldsLease(w, j) && w.calls[i].key == w.calls[j].key
    ensures i == j
  {
    assert CallOk(w, i) && CallOk(w, j);
    assert i != j ==> OnSameRecord(w, i, j);
  }

  lemma OnTimeIsProper(w: World, step: Step)
    requires Inv(w) && IsOnTime(w, step)
    ensures IsProperWrite(w, step)
  {
    if step.WriteBack? && IsRunning(w, step.call) {
      assert CallOk(w, step.call);
      forall j | HoldsLease(w, j) && w.calls[j].key == w.calls[step.call].key ensures j == step.call {
        OnlyOneLease(w, j, step.call);
      }
    }
  }

  lemma StepKeepsInv(w: World, step: Step, ttl: int)
    requires Inv(w) && ttl > 0 && IsOnTime(w, step)
    ensures Inv(Next(w, step, ttl))
  {
    match step
    case Create(i) => if IsCall(w, i) && w.calls[i].phase == Arrived { CreateKeepsInv(w, i, ttl); }
    case TakeOver(i) => if IsCall(w, i) && w.calls[i].phase.Lapsed? { TakeOverKeepsInv(w, i, ttl); }
    case WriteBack(_, _, _) =>
      OnTimeIsProper(w, step);
      WriteBackKeepsInvIff(w, step, ttl);
    case Find(i) => FindKeepsInv(w, i, ttl);
    case _ => QuietStepKeepsInv(w, step, ttl);
  }

  // --------------------------------------------------------------------------
  // Whole runs
  // --------------------------------------------------------------------------

  predicate AllOnTime(steps: seq<Step>, ttl: int) {
    steps == [] ||
    (AllOnTime(steps[..|steps| - 1], ttl) && IsOnTime(After(steps[..|steps| - 1], ttl), steps[|steps| - 1]))
  }

  lemma {:induction false} RunsKeepInv(steps: seq<Step>, ttl: int)
    requires ttl > 0 && AllOnTime(steps, ttl)
    ensures Inv(After(steps, ttl))
  {
    if steps != [] {
      RunsKeepInv(steps[..|steps| - 1], ttl);
      StepKeepsInv(After(steps[..|steps| - 1], ttl), steps[|steps| - 1], ttl);
    }
  }

  /**
   The idempotency promise. If every handler writes back before its lease ends or never does, then over
   all interleavings at most one unexpired lease is held on a key, and at most one execution succeeds.
   */
  lemma {:induction false} OneHolderAndOneSuccess(steps: seq<Step>, ttl: int, i: int, j: int)
    requires ttl > 0 && AllOnTime(steps, ttl)
    requires IsCall(After(steps, ttl), i) && IsCall(After(steps, ttl), j)
    requires After(steps, ttl).calls[i].key == After(steps, ttl).calls[j].key
    ensures var w := After(steps, ttl);
      && (HoldsLease(w, i) && HoldsLease(w, j) ==> i == j)
      && (HasSucceeded(w, i) && HasSucceeded(w, j) ==> i == j)
      && (HasSucceeded(w, i) ==> !HoldsLease(w, j))
  {
    RunsKeepInv(steps, ttl);
    var w := After(steps, ttl);
    assert CallOk(w, i) && CallOk(w, j);
    if HoldsLease(w, i) && HoldsLease(w, j) {
      OnlyOneLease(w, i, j);
    }
  }

  /** A replay answers with the code and the body of a success; only where there was no body it sends an empty object. */
  predicate Repeats(replay: Phase, success: Phase)
    requires success.Succeeded?
  {
    && replay.Replayed? && replay.code == success.code
    && (success.body != NoBody ==> replay.body == success.body)
    && (success.body == NoBody ==> replay.body == EmptyObject)
  }

  /**
   What a call that finds a record is told: another request's fingerprint and a lease that still runs are refused, a
   completed record is replayed, and a lease that is over can be taken over, which changes nothing but its end.
   */
  lemma FinderIsTold(t: Table, c: Call, expiresAt: int)
    ensures c.key !in t ==> Found(t, c) == Refused
    ensures c.key in t ==>
      var r := t[c.key];
      && (r.hash != c.hash ==> Found(t, c) == Refused)
      && (r.hash == c.hash && r.completed ==> Repeats(Found(t, c), Succeeded(r.code, r.body)))
      && (r.hash == c.hash && !r.completed && c.now < r.expiresAt ==> Found(t, c) == Refused)
      && (r.hash == c.hash && !r.completed && r.expiresAt <= c.now ==>
           Found(t, c) == Lapsed(r.id) && Renew(t, c.key, r.id, c.now, expiresAt) == Some(t[c.key := r.(expiresAt := expiresAt)]))
  {
  }

  /** Of the callers that found a lease over, one takes it; to the others it is not over any more. */
  lemma TakeOverIsLost(w: World, i: int, j: int, ttl: int)
    requires IsCall(w, i) && IsCall(w, j) && i != j && w.calls[i].key == w.calls[j].key && ttl > 0
    requires w.calls[i].phase.Lapsed? && w.calls[j].phase == w.calls[i].phase && w.calls[j].now < w.calls[i].now + ttl
    requires Renew(w.table, w.calls[i].key, w.calls[i].phase.id, w.calls[i].now, w.calls[i].now + ttl).Some?
    ensures var v := Next(Next(w, TakeOver(i), ttl), TakeOver(j), ttl);
      v.calls[i].phase == Running(w.calls[i].phase.id, w.calls[i].now + ttl) && v.calls[j].phase == Refused
  {
  }

  /** A response from 200 to 399 completes its record; any other deletes it; no other key is touched. */
  lemma WriteBackCompletesOrDeletes(t: Table, key: int, id: int, code: int, body: Body)
    requires IsAt(t, key, id)
    ensures var v := WrittenBack(t, key, id, code, body);
      && (200 <= code <= 399 ==> v == t[key := Record(id, t[key].hash, true, code, body, t[key].expiresAt)])
      && (code < 200 || 399 < code ==> key !in v)
      && forall k :: k != key ==> (k in v <==> k in t) && (k in t ==> v[k] == t[k])
  {
  }

  /** Every replay carries the response of the one execution that succeeded, for the same body. */
  lemma {:induction false} ReplaysComeFromTheSuccess(steps: seq<Step>, ttl: int, i: int)
    requires ttl > 0 && AllOnTime(steps, ttl)
    requires IsCall(After(steps, ttl), i) && After(steps, ttl).calls[i].phase.Replayed?
    ensures var w := After(steps, ttl);
      exists j :: HasSucceeded(w, j) && w.calls[j].key == w.calls[i].key && w.calls[j].hash == w.calls[i].hash &&
        Repeats(w.calls[i].phase, w.calls[j].phase)
  {
    RunsKeepInv(steps, ttl);
    var w := After(steps, ttl);
    assert CallOk(w, i);
    assert CompletedBySomebody(w, w.calls[i].key);
    var j :| HasSucceeded(w, j) && w.calls[j].key == w.calls[i].key;
    assert CallOk(w, j);
  }

  /** Once an execution has succeeded, a call that finds the record replays it exactly when its body is the same. */
  lemma {:induction false} LaterCallsReplayOrAreRefused(steps: seq<Step>, ttl: int, j: int, i: int)
    requires ttl > 0 && AllOnTime(steps, ttl)
    requires HasSucceeded(After(steps, ttl), j) && IsCall(After(steps, ttl), i)
    requires After(steps, ttl).calls[i].key == After(steps, ttl).calls[j].key
    ensures var w := After(steps, ttl);
      if w.calls[i].hash == w.calls[j].hash then Repeats(Found(w.table, w.calls[i]), w.calls[j].phase)
      else Found(w.table, w.calls[i]) == Refused
    ensures var w := After(steps, ttl);
      CreateRecord(w.table, w.calls[i].key, w.nextId, w.calls[i].hash, w.calls[i].now + ttl) == None
  {
    RunsKeepInv(steps, ttl);
    assert CallOk(After(steps, ttl), j);
  }

  /** COMPLETED is stable: no step changes or removes a completed record. */
  lemma CompletedIsStable(w: World, step: Step, ttl: int, key: int)
    requires Inv(w) && ttl > 0 && IsOnTime(w, step)
    requires key in w.table && w.table[key].completed
    ensures key in Next(w, step, ttl).table && Next(w, step, ttl).table[key] == w.table[key]
  {
    if step.WriteBack? && IsRunning(w, step.call) {
      assert CallOk(w, step.call);
    }
  }

  // --------------------------------------------------------------------------
  // A handler that outlives its lease
  // --------------------------------------------------------------------------

  lemma AfterOne(steps: seq<Step>, step: Step, ttl: int)
    ensures After(steps + [step], ttl) == Next(After(steps, ttl), step, ttl)
  {
    assert (steps + [step])[..|steps|] == steps;
  }

  const SLOW_START: seq<Step> := [Arrive(1, 7), Create(0), Tick(10), Arrive(1, 7), Create(1)]

  /** The first handler is slow; a second takes its lease over; both write back. */
  const LATE_WRITER: seq<Step> :=
    SLOW_START + [Find(1), TakeOver(1), WriteBack(1, 201, Content(2)), WriteBack(0, 200, Content(1))]

  const SLOW_CALL := Call(1, 7, 0, Running(0, 10))
  const SLOW_RECORD := Record(0, 7, false, 0, NoBody, 10)

  lemma SlowStart()
    ensures After(SLOW_START, 10) == World(10, map[1 := SLOW_RECORD], [SLOW_CALL, Call(1, 7, 10, Taken)], 1)
  {
    var s1: seq<Step> := [Arrive(1, 7)];
    var s2 := s1 + [Create(0)];
    var s3 := s2 + [Tick(10)];
    var s4 := s3 + [Arrive(1, 7)];
    assert SLOW_START == s4 + [Create(1)];
    AfterOne([], Arrive(1, 7), 10);
    assert [] + [Arrive(1, 7)] == s1;
    AfterOne(s1, Create(0), 10);
    assert After(s2, 10) == World(0, map[1 := SLOW_RECORD], [SLOW_CALL], 1);
    AfterOne(s2, Tick(10), 10);
    AfterOne(s3, Arrive(1, 7), 10);
    AfterOne(s4, Create(1), 10);
  }

  /** Both executions succeed, and the completed record is overwritten. */
  lemma LateWriterSucceedsTwice()
    ensures var w := After(LATE_WRITER, 10);
      && HasSucceeded(w, 0) && HasSucceeded(w, 1) && w.calls[0].key == w.calls[1].key
      && 1 in w.table && w.table[1].code == 200 && w.calls[1].phase == Succeeded(201, Content(2))
  {
    SlowStart();
    var s6 := SLOW_START + [Find(1)];
    var s7 := s6 + [TakeOver(1)];
    var s8 := s7 + [WriteBack(1, 201, Content(2))];
    assert LATE_WRITER == s8 + [WriteBack(0, 200, Content(1))];
    AfterOne(SLOW_START, Find(1), 10);
    AfterOne(s6, TakeOver(1), 10);
    assert After(s7, 10).calls == [SLOW_CALL, Call(1, 7, 10, Running(0, 20))];
    AfterOne(s7, WriteBack(1, 201, Content(2)), 10);
    assert After(s8, 10) ==
      World(10, map[1 := Record(0, 7, true, 201, Content(2), 20)], [SLOW_CALL, Call(1, 7, 10, Succeeded(201, Content(2)))], 1);
    AfterOne(s8, WriteBack(0, 200, Content(1)), 10);
  }

  // --------------------------------------------------------------------------
  // The store and the interceptor, as they run
  // --------------------------------------------------------------------------

  class Store {
    var table: Table
    var nextId: int

    constructor ()
      ensures table == START.table && nextId == START.nextId
    {
      table, nextId := map[], 0;
    }

    /** The middleware up to `next()`, when nothing runs in between. */
    method Begin(c: Call, ttl: int) returns (phase: Phase)
      requires c.phase == Arrived
      modifies this
      ensures var w := World(c.now, old(table), [c], old(nextId));
        var v := Next(Next(Next(w, Create(0), ttl), Find(0), ttl), TakeOver(0), ttl);
        table == v.table && nextId == v.nextId && phase == v.calls[0].phase
      ensures c.key in old(table) && old(table)[c.key].completed && old(table)[c.key].hash == c.hash ==>
        table == old(table) && Repeats(phase, Succeeded(old(table)[c.key].code, old(table)[c.key].body))
    {
      var expiresAt := c.now + ttl;
      if c.key !in table {
        table := table[c.key := Record(nextId, c.hash, false, 0, NoBody, expiresAt)];
        phase := Running(nextId, expiresAt);
        nextId := nextId + 1;
        return;
      }
      var record := table[c.key];
      if record.hash != c.hash {
        return Refused;
      }
      if record.completed {
        return Replayed(record.code, Replay(record.body));
      }
      if record.expiresAt > c.now {
        return Refused;
      }
      table := table[c.key := record.(expiresAt := expiresAt)];
      phase := Running(record.id, expiresAt);
    }

    method Update(key: int, id: int, code: int, body: Body)
      modifies this`table
      ensures table == Complete(old(table), key, id, code, body)
    {
      if key in table && table[key].id == id {
        table := table[key := table[key].(completed := true, code := code, body := body)];
      }
    }

    method Remove(key: int, id: int)
      modifies this`table
      ensures table == Delete(old(table), key, id)
    {
      if key in table && table[key].id == id {
        table := table - {key};
      }
    }
  }

  /** The patched response: json and send both report it, and the first report counts. */
  class Interceptor {
    const key: int
    const id: int
    var captured: bool

    constructor (key: int, id: int)
      ensures this.key == key && this.id == id && !captured
    {
      this.key, this.id, captured := key, id, false;
    }

    method Persist(store: Store, code: int, body: Body)
      modifies this, store`table
      ensures captured
      ensures store.table == if old(captured) then old(store.table) else WrittenBack(old(store.table), key, id, code, body)
    {
      if captured {
        return;
      }
      captured := true;
      if code >= 200 && code < 400 {
        store.Update(key, id, code, body);
      } else {
        store.Remove(key, id);
      }
    }

    /** res.json goes through res.send, so both wrappers run; the record is still written once, with the first body. */
    method Json(store: Store, code: int, body: Body, text: Body)
      modifies this, store`table
      ensures captured
      ensures store.table == if old(captured) then old(store.table) else WrittenBack(old(store.table), key, id, code, body)
    {
      Persist(store, code, body);
      Persist(store, code, text);
    }
  }
}
