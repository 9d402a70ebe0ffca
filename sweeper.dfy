/** The idle sweeper: one scheduled pass over every instance that tags
    newly running instances, warns about long-running ones, and stops, in
    one request, those whose auto-stop deadline has passed. */
module Sweeper {
  import opened Basics
  import opened Tags
  import opened Cloud

  /** Hours of running time after which every pass sends a warning. */
  const ALERT_TIME_LIMIT: int := 1

  /** The calls the pass makes for one instance of its snapshot. */
  function Visit(inst: Instance, now: int, codec: TimeCodec): (r: seq<Call>)
    ensures inst.state != Running ==> r == []
    ensures |r| <= 2
  {
    if inst.state != Running then []
    else
      match Lookup(inst.tags, STARTED_TIME_KEY)
      case None => FirstSeen(inst, now, codec)
      case Some(text) =>
        match codec.parse(text)
        case Some(startTime) =>
          if now - startTime > ALERT_TIME_LIMIT * HOUR_MS
          then [SendMessage(RunningTooLong(inst.id, (now - startTime) / HOUR_MS, TagSummary(inst.tags)))]
          else []
        case None => []
  }

  function Visits(insts: seq<Instance>, now: int, codec: TimeCodec): seq<Call> {
    if insts == [] then [] else Visit(insts[0], now, codec) + Visits(insts[1..], now, codec)
  }

  /** A running instance whose `shutdownTime` reads as a time no later than now. */
  predicate DueForStop(inst: Instance, now: int, codec: TimeCodec)
    ensures DueForStop(inst, now, codec) ==> inst.state == Running && Lookup(inst.tags, SHUTDOWN_TIME_KEY).Some?
  {
    inst.state == Running &&
    match Lookup(inst.tags, SHUTDOWN_TIME_KEY)
    case None => false
    case Some(text) =>
      match codec.parse(text)
      case None => false
      case Some(deadline) => deadline <= now
  }

  /** `instancesToStop` after visiting `insts`. */
  function Batch(insts: seq<Instance>, now: int, codec: TimeCodec): (r: seq<string>)
    ensures |r| <= |insts|
  {
    if insts == [] then []
    else (if DueForStop(insts[0], now, codec) then [insts[0].id] else []) + Batch(insts[1..], now, codec)
  }

  function StopRequest(batch: seq<string>): seq<Call> {
    if batch == [] then [] else [StopInstances(batch)]
  }

  /** Every call a pass over `rs` makes when nothing is rejected. */
  function Plan(rs: seq<Reservation>, now: int, codec: TimeCodec): seq<Call> {
    [DescribeAll] + Visits(Flatten(rs), now, codec) + StopRequest(Batch(Flatten(rs), now, codec))
  }

  /** The body returned by a pass: `Processed N instances` and the ids stopped. */
  datatype Report = Report(processed: nat, stoppedInstances: seq<string>)

  /** The calls for a running instance seen for the first time: tag it with
      the time of this pass, then announce it. */
  function FirstSeen(inst: Instance, now: int, codec: TimeCodec): seq<Call> {
    [CreateTag(inst.id, STARTED_TIME_KEY, codec.format(now)),
     SendMessage(NewInstanceStarted(inst.id, TagSummary(inst.tags)))]
  }

  /** Issues `calls` in order and stops at the first one rejected, naming its service. */
  method IssueInOrder(cloud: Provider, calls: seq<Call>) returns (ok: bool, failed: Api)
    modifies cloud
    ensures var run := Perform(old(cloud.fleet), cloud.down, calls);
      cloud.trace == old(cloud.trace) + run.issued && cloud.fleet == run.fleet && ok == run.completed &&
      (!ok ==> run.issued != [] && failed == ApiOf(run.issued[|run.issued| - 1]))
  {
    ghost var rs := cloud.fleet;
    ok, failed := true, Ec2Describe;
    var k := 0;
    while k < |calls|
      invariant 0 <= k <= |calls|
      invariant Perform(rs, cloud.down, calls[..k]) == Run(calls[..k], cloud.fleet, true)
      invariant cloud.trace == old(cloud.trace) + calls[..k]
    {
      ghost var fleetBefore := cloud.fleet;
      assert calls[..k + 1] == calls[..k] + [calls[k]];
      ok := cloud.Issue(calls[k]);
      ConcatAssoc(old(cloud.trace), calls[..k], [calls[k]]);
      if !ok {
        assert calls == calls[..k] + [calls[k]] + calls[k + 1..];
        PerformHalt(rs, cloud.down, calls[..k], fleetBefore, [calls[k]], calls[k + 1..]);
        return false, ApiOf(calls[k]);
      }
      PerformResume(rs, cloud.down, calls[..k], fleetBefore, [calls[k]]);
      k := k + 1;
    }
    assert calls[..k] == calls;
  }

  /** The tagging and alerting half of the loop body for one instance of the
      snapshot; `failed` names the service that rejected a call. */
  method VisitInstance(cloud: Provider, instance: Instance, now: int, codec: TimeCodec)
    returns (ok: bool, failed: Api)
    modifies cloud
    ensures var run := Perform(old(cloud.fleet), cloud.down, Visit(instance, now, codec));
      cloud.trace == old(cloud.trace) + run.issued && cloud.fleet == run.fleet && ok == run.completed &&
      (!ok ==> run.issued != [] && failed == ApiOf(run.issued[|run.issued| - 1]))
  {
    var calls: seq<Call> := [];
    if instance.state == Running {
      match Lookup(instance.tags, STARTED_TIME_KEY) {
        case None =>
          calls := FirstSeen(instance, now, codec);
        case Some(text) =>
          var startTime := codec.parse(text);
          if startTime.Some? && now - startTime.value > ALERT_TIME_LIMIT * HOUR_MS {
            var hours := (now - startTime.value) / HOUR_MS;
            calls := [SendMessage(RunningTooLong(instance.id, hours, TagSummary(instance.tags)))];
          }
      }
    }
    assert calls == Visit(instance, now, codec);
    ok, failed := IssueInOrder(cloud, calls);
  }

  lemma {:induction false} VisitsAppend(a: seq<Instance>, b: seq<Instance>, now: int, codec: TimeCodec)
    ensures Visits(a + b, now, codec) == Visits(a, now, codec) + Visits(b, now, codec)
  {
    if a == [] {
      assert a + b == b;
    } else {
      calc {
        Visits(a + b, now, codec);
        Visit((a + b)[0], now, codec) + Visits((a + b)[1..], now, codec);
        { assert (a + b)[0] == a[0]; assert (a + b)[1..] == a[1..] + b; }
        Visit(a[0], now, codec) + Visits(a[1..] + b, now, codec);
        { VisitsAppend(a[1..], b, now, codec); }
        Visit(a[0], now, codec) + (Visits(a[1..], now, codec) + Visits(b, now, codec));
        (Visit(a[0], now, codec) + Visits(a[1..], now, codec)) + Visits(b, now, codec);
      }
    }
  }

  lemma {:induction false} BatchAppend(a: seq<Instance>, b: seq<Instance>, now: int, codec: TimeCodec)
    ensures Batch(a + b, now, codec) == Batch(a, now, codec) + Batch(b, now, codec)
  {
    if a == [] {
      assert a + b == b;
    } else {
      var head := if DueForStop(a[0], now, codec) then [a[0].id] else [];
      calc {
        Batch(a + b, now, codec);
        { assert (a + b)[0] == a[0]; assert (a + b)[1..] == a[1..] + b; }
        head + Batch(a[1..] + b, now, codec);
        { BatchAppend(a[1..], b, now, codec); }
        head + (Batch(a[1..], now, codec) + Batch(b, now, codec));
        (head + Batch(a[1..], now, codec)) + Batch(b, now, codec);
      }
    }
  }

  /** Visiting one more instance appends its own calls. */
  lemma VisitsSnoc(done: seq<Instance>, next: Instance, now: int, codec: TimeCodec)
    ensures Visits(done + [next], now, codec) == Visits(done, now, codec) + Visit(next, now, codec)
  {
    assert [next][1..] == [];
    assert Visits([next], now, codec) == Visit(next, now, codec) + [];
    VisitsAppend(done, [next], now, codec);
  }

  /** Visiting one more instance appends its id when it is due, and nothing else. */
  lemma BatchSnoc(done: seq<Instance>, next: Instance, now: int, codec: TimeCodec)
    ensures Batch(done + [next], now, codec) ==
      Batch(done, now, codec) + (if DueForStop(next, now, codec) then [next.id] else [])
  {
    assert [next][1..] == [];
    assert Batch([next], now, codec) == (if DueForStop(next, now, codec) then [next.id] else []) + [];
    BatchAppend(done, [next], now, codec);
  }

  /** How the inner loop's prefix grows by one instance. */
  lemma InstanceStep(instances: seq<Instance>, j: int, now: int, codec: TimeCodec)
    requires 0 <= j < |instances|
    ensures Visits(instances[..j + 1], now, codec) == Visits(instances[..j], now, codec) + Visit(instances[j], now, codec)
    ensures Batch(instances[..j + 1], now, codec) ==
      Batch(instances[..j], now, codec) + (if DueForStop(instances[j], now, codec) then [instances[j].id] else [])
    ensures Visits(instances, now, codec) == Visits(instances[..j + 1], now, codec) + Visits(instances[j + 1..], now, codec)
  {
    assert instances[..j + 1] == instances[..j] + [instances[j]];
    VisitsSnoc(instances[..j], instances[j], now, codec);
    BatchSnoc(instances[..j], instances[j], now, codec);
    assert instances == instances[..j + 1] + instances[j + 1..];
    VisitsAppend(instances[..j + 1], instances[j + 1..], now, codec);
  }

  /** How the outer loop's remaining work shrinks by one reservation. */
  lemma ReservationStep(snapshot: seq<Reservation>, i: int, now: int, codec: TimeCodec)
    requires 0 <= i < |snapshot|
    ensures var instances := snapshot[i].instances;
      var later := Flatten(snapshot[i + 1..]);
      Visits(Flatten(snapshot[i..]), now, codec) == Visits(instances, now, codec) + Visits(later, now, codec) &&
      Batch(Flatten(snapshot[i..]), now, codec) == Batch(instances, now, codec) + Batch(later, now, codec)
  {
    assert snapshot[i..][0] == snapshot[i] && snapshot[i..][1..] == snapshot[i + 1..];
    VisitsAppend(snapshot[i].instances, Flatten(snapshot[i + 1..]), now, codec);
    BatchAppend(snapshot[i].instances, Flatten(snapshot[i + 1..]), now, codec);
  }

  /** The inner loop's run after instance `j` went through: one more visit done. */
  lemma InstanceResume(rs: seq<Reservation>, down: set<Api>, instances: seq<Instance>, j: int, now: int,
                       codec: TimeCodec, issued: seq<Call>, fleet: seq<Reservation>)
    requires 0 <= j < |instances|
    requires issued == Visits(instances[..j], now, codec)
    requires Perform(rs, down, issued) == Run(issued, fleet, true)
    requires Perform(fleet, down, Visit(instances[j], now, codec)).completed
    ensures var step := Perform(fleet, down, Visit(instances[j], now, codec));
      step.issued == Visit(instances[j], now, codec) &&
      issued + step.issued == Visits(instances[..j + 1], now, codec) &&
      Perform(rs, down, issued + step.issued) == Run(issued + step.issued, step.fleet, true)
    ensures Batch(instances[..j + 1], now, codec) ==
      Batch(instances[..j], now, codec) + (if DueForStop(instances[j], now, codec) then [instances[j].id] else [])
  {
    InstanceStep(instances, j, now, codec);
    PerformResume(rs, down, issued, fleet, Visit(instances[j], now, codec));
  }

  /** The inner loop's run after instance `j` was rejected: the whole
      reservation's run ends there. */
  lemma InstanceHalt(rs: seq<Reservation>, down: set<Api>, instances: seq<Instance>, j: int, now: int,
                     codec: TimeCodec, issued: seq<Call>, fleet: seq<Reservation>)
    requires 0 <= j < |instances|
    requires issued == Visits(instances[..j], now, codec)
    requires Perform(rs, down, issued) == Run(issued, fleet, true)
    requires !Perform(fleet, down, Visit(instances[j], now, codec)).completed
    ensures var step := Perform(fleet, down, Visit(instances[j], now, codec));
      Perform(rs, down, Visits(instances, now, codec)) == Run(issued + step.issued, step.fleet, false) &&
      step.issued != [] && (issued + step.issued)[|issued + step.issued| - 1] == step.issued[|step.issued| - 1]
  {
    InstanceStep(instances, j, now, codec);
    PerformHalt(rs, down, issued, fleet, Visit(instances[j], now, codec), Visits(instances[j + 1..], now, codec));
  }

  /** The inner loop of a pass, over the instances of one reservation;
      `due` collects the ids to stop. */
  method VisitReservation(cloud: Provider, instances: seq<Instance>, now: int, codec: TimeCodec)
    returns (ok: bool, failed: Api, due: seq<string>)
    modifies cloud
    ensures var run := Perform(old(cloud.fleet), cloud.down, Visits(instances, now, codec));
      cloud.trace == old(cloud.trace) + run.issued && cloud.fleet == run.fleet && ok == run.completed &&
      (!ok ==> run.issued != [] && failed == ApiOf(run.issued[|run.issued| - 1]))
    ensures ok ==> due == Batch(instances, now, codec)
  {
    ghost var rs := cloud.fleet;
    ghost var issued: seq<Call> := [];
    ok, failed, due := true, Ec2Describe, [];
    var j := 0;
    while j < |instances|
      invariant 0 <= j <= |instances|
      invariant ok
      invariant issued == Visits(instances[..j], now, codec)
      invariant due == Batch(instances[..j], now, codec)
      invariant Perform(rs, cloud.down, issued) == Run(issued, cloud.fleet, true)
      invariant cloud.trace == old(cloud.trace) + issued
    {
      var instance := instances[j];
      ghost var fleetBefore := cloud.fleet;
      ghost var step := Perform(fleetBefore, cloud.down, Visit(instance, now, codec));
      ok, failed := VisitInstance(cloud, instance, now, codec);
      ConcatAssoc(old(cloud.trace), issued, step.issued);
      if !ok {
        InstanceHalt(rs, cloud.down, instances, j, now, codec, issued, fleetBefore);
        return;
      }
      InstanceResume(rs, cloud.down, instances, j, now, codec, issued, fleetBefore);
      issued := issued + step.issued;
      if DueForStop(instance, now, codec) {
        due := due + [instance.id];
      }
      j := j + 1;
    }
    assert instances[..j] == instances;
  }

  /** The outer loop of a pass, over the reservations of the snapshot;
      `instancesToStop` collects the ids to stop. */
  method VisitSnapshot(cloud: Provider, snapshot: seq<Reservation>, now: int, codec: TimeCodec)
    returns (ok: bool, failed: Api, instancesToStop: seq<string>)
    modifies cloud
    ensures var run := Perform(old(cloud.fleet), cloud.down, Visits(Flatten(snapshot), now, codec));
      cloud.trace == old(cloud.trace) + run.issued && cloud.fleet == run.fleet && ok == run.completed &&
      (!ok ==> run.issued != [] && failed == ApiOf(run.issued[|run.issued| - 1]))
    ensures ok ==> instancesToStop == Batch(Flatten(snapshot), now, codec)
  {
    ghost var rs := cloud.fleet;
    ghost var issued: seq<Call> := [];
    ok, failed, instancesToStop := true, Ec2Describe, [];
    assert snapshot[0..] == snapshot;
    var i := 0;
    while i < |snapshot|
      invariant 0 <= i <= |snapshot|
      invariant ok
      invariant issued + Visits(Flatten(snapshot[i..]), now, codec) == Visits(Flatten(snapshot), now, codec)
      invariant instancesToStop + Batch(Flatten(snapshot[i..]), now, codec) == Batch(Flatten(snapshot), now, codec)
      invariant Perform(rs, cloud.down, issued) == Run(issued, cloud.fleet, true)
      invariant cloud.trace == old(cloud.trace) + issued
    {
      var instances := snapshot[i].instances;
      ghost var visits := Visits(instances, now, codec);
      ghost var rest := Visits(Flatten(snapshot[i + 1..]), now, codec);
      ghost var fleetBefore := cloud.fleet;
      ghost var step := Perform(fleetBefore, cloud.down, visits);
      ReservationStep(snapshot, i, now, codec);
      ConcatAssoc(issued, visits, rest);
      var due;
      ok, failed, due := VisitReservation(cloud, instances, now, codec);
      if !ok {
        assert Visits(Flatten(snapshot), now, codec) == issued + visits + rest;
        PerformHalt(rs, cloud.down, issued, fleetBefore, visits, rest);
        ConcatAssoc(old(cloud.trace), issued, step.issued);
        return;
      }
      PerformResume(rs, cloud.down, issued, fleetBefore, visits);
      ConcatAssoc(old(cloud.trace), issued, visits);
      ConcatAssoc(instancesToStop, due, Batch(Flatten(snapshot[i + 1..]), now, codec));
      issued := issued + visits;
      instancesToStop := instancesToStop + due;
      i := i + 1;
    }
    assert snapshot[i..] == [];
    assert issued + [] == issued && instancesToStop + [] == instancesToStop;
  }

  /** The single batched stop, sent only when some instance is due. */
  method StopDue(cloud: Provider, instancesToStop: seq<string>) returns (ok: bool, failed: Api)
    modifies cloud
    ensures var run := Perform(old(cloud.fleet), cloud.down, StopRequest(instancesToStop));
      cloud.trace == old(cloud.trace) + run.issued && cloud.fleet == run.fleet && ok == run.completed &&
      (!ok ==> run.issued != [] && failed == ApiOf(run.issued[|run.issued| - 1]))
  {
    ok, failed := true, Ec2Stop;
    if |instancesToStop| > 0 {
      ok, failed := IssueInOrder(cloud, [StopInstances(instancesToStop)]);
    } else {
      assert cloud.trace == old(cloud.trace) + [];
    }
  }

  /** The scheduled handler: describe everything, visit the snapshot, then
      stop the due instances. A rejected call ends the pass with an error
      naming its service (rethrown); what was done before it stays done. */
  method Sweep(cloud: Provider, now: int, codec: TimeCodec) returns (r: Result<Report, Api>)
    modifies cloud
    ensures var run := Perform(old(cloud.fleet), cloud.down, Plan(old(cloud.fleet), now, codec));
      cloud.trace == old(cloud.trace) + run.issued && cloud.fleet == run.fleet &&
      (r.Ok? <==> run.completed) &&
      (r.Err? ==> run.issued != [] && r.error == ApiOf(run.issued[|run.issued| - 1]))
    ensures var batch := Batch(Flatten(old(cloud.fleet)), now, codec);
      r.Ok? ==> r.value == Report(|batch|, batch)
  {
    ghost var rs, before := cloud.fleet, cloud.trace;
    ghost var visits := Visits(Flatten(rs), now, codec);
    ghost var stopping := StopRequest(Batch(Flatten(rs), now, codec));
    assert Plan(rs, now, codec) == [DescribeAll] + visits + stopping;
    ConcatAssoc([DescribeAll], visits, stopping);
    var ok := cloud.Issue(DescribeAll);
    if !ok {
      PerformStopped(rs, cloud.down, [DescribeAll], visits + stopping);
      return Err(Ec2Describe);
    }
    PerformStep(rs, cloud.down, [], DescribeAll);
    assert [] + [DescribeAll] == [DescribeAll];
    var snapshot := cloud.fleet;
    ghost var visited := Perform(snapshot, cloud.down, visits);
    var failed, instancesToStop;
    ok, failed, instancesToStop := VisitSnapshot(cloud, snapshot, now, codec);
    ConcatAssoc(before, [DescribeAll], visited.issued);
    if !ok {
      PerformHalt(rs, cloud.down, [DescribeAll], snapshot, visits, stopping);
      return Err(failed);
    }
    PerformResume(rs, cloud.down, [DescribeAll], snapshot, visits);
    ghost var issued := [DescribeAll] + visits;
    ghost var fleetBefore := cloud.fleet;
    ghost var stopped := Perform(fleetBefore, cloud.down, stopping);
    ok, failed := StopDue(cloud, instancesToStop);
    ConcatAssoc(before, issued, stopped.issued);
    if !ok {
      PerformHalt(rs, cloud.down, issued, fleetBefore, stopping, []);
      assert issued + stopping + [] == issued + stopping;
      return Err(failed);
    }
    PerformResume(rs, cloud.down, issued, fleetBefore, stopping);
    return Ok(Report(|instancesToStop|, instancesToStop));
  }

  // Properties of a pass.

  lemma {:induction false} VisitsMember(insts: seq<Instance>, now: int, codec: TimeCodec, c: Call)
    ensures c in Visits(insts, now, codec) <==> exists k :: 0 <= k < |insts| && c in Visit(insts[k], now, codec)
  {
    if insts != [] {
      VisitsMember(insts[1..], now, codec, c);
      if c in Visits(insts[1..], now, codec) {
        var k :| 0 <= k < |insts[1..]| && c in Visit(insts[1..][k], now, codec);
        assert c in Visit(insts[k + 1], now, codec);
      }
      if exists k :: 0 <= k < |insts| && c in Visit(insts[k], now, codec) {
        var k :| 0 <= k < |insts| && c in Visit(insts[k], now, codec);
        if k > 0 {
          assert c in Visit(insts[1..][k - 1], now, codec);
        }
      }
    }
  }

  /** The pass makes no calls but tag writes and notifications before the stop. */
  lemma VisitsOnlyTagAndNotify(insts: seq<Instance>, now: int, codec: TimeCodec)
    ensures forall c :: c in Visits(insts, now, codec) ==> c.CreateTag? || c.SendMessage?
  {
    forall c | c in Visits(insts, now, codec) ensures c.CreateTag? || c.SendMessage? {
      VisitsMember(insts, now, codec, c);
    }
  }

  /** The only tag a pass writes is `startedTime`, set to the time of the
      pass, and it writes it exactly for the running instances that lack it. */
  lemma StartedTagWrites(insts: seq<Instance>, now: int, codec: TimeCodec, id: string, key: string, value: string)
    ensures CreateTag(id, key, value) in Visits(insts, now, codec) <==>
      key == STARTED_TIME_KEY && value == codec.format(now) &&
      exists k :: 0 <= k < |insts| && insts[k].id == id && insts[k].state == Running &&
        Lookup(insts[k].tags, STARTED_TIME_KEY).None?
  {
    VisitsMember(insts, now, codec, CreateTag(id, key, value));
  }

  /** A new-instance notice goes out exactly for each running instance seen
      without `startedTime`, carrying its tag summary. */
  lemma Announcements(insts: seq<Instance>, now: int, codec: TimeCodec, id: string, info: string)
    ensures SendMessage(NewInstanceStarted(id, info)) in Visits(insts, now, codec) <==>
      exists k :: 0 <= k < |insts| && insts[k].id == id && insts[k].state == Running &&
        Lookup(insts[k].tags, STARTED_TIME_KEY).None? && info == TagSummary(insts[k].tags)
  {
    VisitsMember(insts, now, codec, SendMessage(NewInstanceStarted(id, info)));
  }

  /** The time `startedTime` reads as, when it is present and valid. */
  function StartedAt(inst: Instance, codec: TimeCodec): Option<int> {
    match Lookup(inst.tags, STARTED_TIME_KEY)
    case None => None
    case Some(text) => codec.parse(text)
  }

  /** Whether one visit warns, and with what. */
  lemma WarningFor(inst: Instance, now: int, codec: TimeCodec, id: string, hours: int, info: string)
    ensures SendMessage(RunningTooLong(id, hours, info)) in Visit(inst, now, codec) <==>
      inst.id == id && inst.state == Running && StartedAt(inst, codec).Some? &&
      now - StartedAt(inst, codec).value > ALERT_TIME_LIMIT * HOUR_MS &&
      hours * HOUR_MS <= now - StartedAt(inst, codec).value < (hours + 1) * HOUR_MS &&
      info == TagSummary(inst.tags)
  {
    if StartedAt(inst, codec).Some? {
      FloorHours(now - StartedAt(inst, codec).value, hours);
    }
  }

  /** A running-too-long warning goes out exactly for each running instance
      whose `startedTime` reads as more than one hour before the pass; the
      hours it reports are the elapsed time rounded down. */
  lemma Warnings(insts: seq<Instance>, now: int, codec: TimeCodec, id: string, hours: int, info: string)
    ensures SendMessage(RunningTooLong(id, hours, info)) in Visits(insts, now, codec) <==>
      exists k :: 0 <= k < |insts| && insts[k].id == id && insts[k].state == Running &&
        StartedAt(insts[k], codec).Some? &&
        now - StartedAt(insts[k], codec).value > ALERT_TIME_LIMIT * HOUR_MS &&
        hours * HOUR_MS <= now - StartedAt(insts[k], codec).value < (hours + 1) * HOUR_MS &&
        info == TagSummary(insts[k].tags)
    ensures SendMessage(RunningTooLong(id, hours, info)) in Visits(insts, now, codec) ==> hours >= ALERT_TIME_LIMIT
  {
    VisitsMember(insts, now, codec, SendMessage(RunningTooLong(id, hours, info)));
    forall k | 0 <= k < |insts| {
      WarningFor(insts[k], now, codec, id, hours, info);
    }
  }

  /** The integer quotient by an hour is the elapsed time rounded down. */
  lemma FloorHours(elapsed: int, hours: int)
    ensures hours == elapsed / HOUR_MS <==> hours * HOUR_MS <= elapsed < (hours + 1) * HOUR_MS
  {
    var q := elapsed / HOUR_MS;
    assert q * HOUR_MS <= elapsed < (q + 1) * HOUR_MS;
  }

  /** An instance joins the stop batch exactly when it is running and its
      deadline has passed; the batch is never longer than the snapshot. */
  lemma {:induction false} BatchMembership(insts: seq<Instance>, now: int, codec: TimeCodec, id: string)
    ensures id in Batch(insts, now, codec) <==>
      exists k :: 0 <= k < |insts| && insts[k].id == id && DueForStop(insts[k], now, codec)
    ensures |Batch(insts, now, codec)| <= |insts|
  {
    if insts != [] {
      BatchMembership(insts[1..], now, codec, id);
      if id in Batch(insts[1..], now, codec) {
        var k :| 0 <= k < |insts[1..]| && insts[1..][k].id == id && DueForStop(insts[1..][k], now, codec);
        assert insts[k + 1].id == id && DueForStop(insts[k + 1], now, codec);
      }
      if exists k :: 0 <= k < |insts| && insts[k].id == id && DueForStop(insts[k], now, codec) {
        var k :| 0 <= k < |insts| && insts[k].id == id && DueForStop(insts[k], now, codec);
        if k > 0 {
          assert insts[1..][k - 1] == insts[k];
        }
      }
    }
  }

  /** A pass sends at most one stop request: it is the last call, it carries
      the whole batch, and it is made exactly when the batch is not empty. */
  lemma SingleStop(rs: seq<Reservation>, now: int, codec: TimeCodec)
    ensures var plan := Plan(rs, now, codec);
      var batch := Batch(Flatten(rs), now, codec);
      (forall i :: 0 <= i < |plan| - 1 ==> !plan[i].StopInstances?) &&
      (plan[|plan| - 1].StopInstances? <==> batch != []) &&
      (batch != [] ==> plan[|plan| - 1] == StopInstances(batch))
  {
    var visits := Visits(Flatten(rs), now, codec);
    var stopping := StopRequest(Batch(Flatten(rs), now, codec));
    VisitsOnlyTagAndNotify(Flatten(rs), now, codec);
    var plan := Plan(rs, now, codec);
    assert plan == [DescribeAll] + visits + stopping;
    forall i | 0 <= i < 1 + |visits| ensures !plan[i].StopInstances? {
      if i > 0 {
        assert plan[i] == visits[i - 1];
        assert visits[i - 1] in visits;
      }
    }
    if stopping == [] {
      assert plan == [DescribeAll] + visits;
    }
  }

  /** A deadline whose formatted text `parse` reads back: an instance that
      runs with it is stopped exactly once the deadline has passed. */
  lemma DueAfterDeadline(inst: Instance, deadline: int, now: int, codec: TimeCodec)
    requires codec.parse(codec.format(deadline)) == Some(deadline)
    requires inst.state == Running
    requires Lookup(inst.tags, SHUTDOWN_TIME_KEY) == Some(codec.format(deadline))
    ensures DueForStop(inst, now, codec) <==> deadline <= now
  {
    assert codec.parse(codec.format(deadline)) == Some(deadline);
  }

  /** Without a `shutdownTime` tag an instance is never stopped by a pass. */
  lemma NoDeadlineNoStop(insts: seq<Instance>, now: int, codec: TimeCodec, id: string)
    requires forall k :: 0 <= k < |insts| && insts[k].id == id ==> Lookup(insts[k].tags, SHUTDOWN_TIME_KEY).None?
    ensures id !in Batch(insts, now, codec)
  {
    BatchMembership(insts, now, codec, id);
  }

  /** Every call of the visits is a tag write or a message, and every tag
      write names an instance of the fleet. */
  lemma VisitsKnown(rs: seq<Reservation>, now: int, codec: TimeCodec)
    ensures forall c :: c in Visits(Flatten(rs), now, codec) ==>
      (c.CreateTag? || c.SendMessage?) && Targets(c) <= Ids(rs)
  {
    var insts := Flatten(rs);
    VisitsOnlyTagAndNotify(insts, now, codec);
    forall c | c in Visits(insts, now, codec) ensures Targets(c) <= Ids(rs) {
      if c.CreateTag? {
        StartedTagWrites(insts, now, codec, c.id, c.key, c.value);
        var k :| 0 <= k < |insts| && insts[k].id == c.id;
        assert insts[k] in insts;
      }
    }
  }

  /** Every id in the batch names an instance of the fleet. */
  lemma BatchKnown(rs: seq<Reservation>, now: int, codec: TimeCodec)
    ensures forall x :: x in Batch(Flatten(rs), now, codec) ==> x in Ids(rs)
  {
    var insts := Flatten(rs);
    forall x | x in Batch(insts, now, codec) ensures x in Ids(rs) {
      BatchMembership(insts, now, codec, x);
      var k :| 0 <= k < |insts| && insts[k].id == x && DueForStop(insts[k], now, codec);
      assert insts[k] in insts;
    }
  }

  /** With EC2 and Telegram reachable, a pass always runs to the end. */
  lemma SweepCompletes(rs: seq<Reservation>, down: set<Api>, now: int, codec: TimeCodec)
    requires Ec2Describe !in down && Ec2CreateTags !in down && TelegramSend !in down && Ec2Stop !in down
    ensures Perform(rs, down, Plan(rs, now, codec)).completed
  {
    var visits := Visits(Flatten(rs), now, codec);
    var batch := Batch(Flatten(rs), now, codec);
    var plan := Plan(rs, now, codec);
    VisitsKnown(rs, now, codec);
    BatchKnown(rs, now, codec);
    forall i | 0 <= i < |plan| ensures ApiOf(plan[i]) !in down && Targets(plan[i]) <= Ids(rs) {
      if 0 < i <= |visits| {
        assert plan[i] == visits[i - 1];
        assert plan[i] in visits;
      }
    }
    PerformCompletes(rs, down, plan);
  }
}
