/** The instance controller: one HTTP request (list, start, start1h, stop or
    status) turned into provider calls, an optional DNS update and a response. */
module Ec2Control {
  import opened Basics
  import opened Tags
  import opened Cloud

  /** Describes issued by waitForPublicIp before it gives up (5 s apart). */
  const MAX_ATTEMPTS: nat := 30
  /** Time to live of the A record written by updateDNS, in seconds. */
  const DNS_TTL: nat := 300

  /** The query-string parameters; each may be absent. */
  datatype Request = Request(
    action: Option<string>, instanceId: Option<string>, domain: Option<string>, hostedZoneId: Option<string>)

  /** Why a start could not update DNS: the address never appeared, or a call was rejected. */
  datatype Fault = IpTimeout | CallFailed(api: Api)

  datatype InstanceView = InstanceView(instanceId: string, state: InstanceState, publicIp: Option<string>)

  /** The response bodies, one per message the handler can send, without their wording. */
  datatype Body =
    | Listing(instances: seq<InstanceView>)
    | MissingInstanceId
    | StartedDnsSkipped
    | StartedDnsUpdated(address: string)
    | StartedDnsFailed(error: Fault)
    | ExtendedDnsSkipped(wasRunning: bool, shutdownAt: int)
    | Extended(wasRunning: bool, shutdownAt: int, publicIp: Option<string>)
    | ExtendFailed(error: Fault)
    | StopRequested
    | Status(instance: InstanceView)
    | ServerError

  datatype Response = Response(statusCode: int, body: Body)

  function View(inst: Instance): InstanceView {
    InstanceView(inst.id, inst.state, inst.publicIp)
  }

  function Views(insts: seq<Instance>): seq<InstanceView> {
    seq(|insts|, k requires 0 <= k < |insts| => View(insts[k]))
  }

  /** The `list` body: reservations.flatMap(r => r.Instances.map(view)).
      It has one entry per instance of the fleet, in the fleet's order. */
  function ListAll(rs: seq<Reservation>): (r: seq<InstanceView>)
    ensures |r| == |Flatten(rs)|
    ensures forall k :: 0 <= k < |r| ==> r[k] == View(Flatten(rs)[k])
  {
    if rs == [] then [] else Views(rs[0].instances) + ListAll(rs[1..])
  }

  /** updateDNS's guard and change batch: nothing unless domain, zone and
      address are all given, otherwise one UPSERT of an A record named after
      the domain, pointing at the address, with a 300 s TTL, in that zone. */
  function DnsChange(domain: Option<string>, hostedZoneId: Option<string>, publicIp: Option<string>): (r: Option<RecordChange>)
    ensures r.Some? <==> Given(domain) && Given(hostedZoneId) && Given(publicIp)
    ensures r.Some? ==> r.value.action == "UPSERT" && r.value.recordType == "A" && r.value.ttl == DNS_TTL
    ensures r.Some? ==> r.value.name == domain.value && r.value.value == publicIp.value && r.value.hostedZoneId == hostedZoneId.value
  {
    if !Given(domain) || !Given(hostedZoneId) || !Given(publicIp) then None
    else Some(RecordChange("UPSERT", domain.value, "A", DNS_TTL, publicIp.value, hostedZoneId.value))
  }

  /** The change for an address the poll found (never empty). */
  function Upsert(domain: Option<string>, hostedZoneId: Option<string>, address: string): seq<Call> {
    match DnsChange(domain, hostedZoneId, Some(address))
    case Some(change) => [ChangeRecord(change)]
    case None => []
  }

  method UpdateDns(cloud: Provider, domain: Option<string>, hostedZoneId: Option<string>, publicIp: Option<string>)
    returns (ok: bool)
    modifies cloud
    ensures cloud.fleet == old(cloud.fleet)
    ensures var change := DnsChange(domain, hostedZoneId, publicIp);
      cloud.trace == old(cloud.trace) + (if change.Some? then [ChangeRecord(change.value)] else []) &&
      ok == (change.None? || Route53Change !in cloud.down)
  {
    var change := DnsChange(domain, hostedZoneId, publicIp);
    if change.None? {
      return true;
    }
    ok := cloud.Issue(ChangeRecord(change.value));
  }

  /** What waitForPublicIp returns and how many describes it issued. */
  datatype Polled = Polled(result: Result<string, Fault>, describes: nat)

  /** The poll from attempt `k` on, every describe answered; `address(j)` is
      the public address the j-th describe reports. */
  function PollFrom(address: nat -> Option<string>, k: nat): (p: Polled)
    requires k <= MAX_ATTEMPTS
    ensures k <= p.describes <= MAX_ATTEMPTS
    ensures p.result.Err? ==> p.result == Err(IpTimeout) && p.describes == MAX_ATTEMPTS
    decreases MAX_ATTEMPTS - k
  {
    if k == MAX_ATTEMPTS then Polled(Err(IpTimeout), MAX_ATTEMPTS)
    else if Given(address(k)) then Polled(Ok(address(k).value), k + 1)
    else PollFrom(address, k + 1)
  }

  /** The poll against the provider: a rejected describe ends it at once;
      otherwise it sees the addresses `address` reports. */
  function Poll(rs: seq<Reservation>, down: set<Api>, id: string, address: nat -> Option<string>): Polled {
    if Fails(rs, down, DescribeOne(id)) then Polled(Err(CallFailed(Ec2Describe)), 1)
    else PollFrom(address, 0)
  }

  function Describes(id: string, n: nat): (r: seq<Call>)
    ensures |r| == n && forall j :: 0 <= j < n ==> r[j] == DescribeOne(id)
  {
    seq(n, _ => DescribeOne(id))
  }

  lemma {:induction false} PollFromMeaning(address: nat -> Option<string>, k: nat)
    requires k <= MAX_ATTEMPTS
    decreases MAX_ATTEMPTS - k
    ensures var p := PollFrom(address, k);
      k <= p.describes <= MAX_ATTEMPTS &&
      (k < MAX_ATTEMPTS ==> k < p.describes) &&
      (p.result.Ok? ==>
        Given(address(p.describes - 1)) && address(p.describes - 1).value == p.result.value &&
        forall j :: k <= j < p.describes - 1 ==> !Given(address(j))) &&
      (p.result.Err? ==>
        p.result.error == IpTimeout && p.describes == MAX_ATTEMPTS &&
        forall j :: k <= j < MAX_ATTEMPTS ==> !Given(address(j)))
  {
    if k < MAX_ATTEMPTS && !Given(address(k)) {
      PollFromMeaning(address, k + 1);
    }
  }

  /** waitForPublicIp with every describe answered: at most 30 describes; it
      returns the first non-empty address observed, and times out exactly
      when none of the 30 observations had one. */
  lemma PollMeaning(address: nat -> Option<string>)
    ensures var p := PollFrom(address, 0);
      1 <= p.describes <= MAX_ATTEMPTS &&
      (p.result.Ok? <==> exists j :: 0 <= j < MAX_ATTEMPTS && Given(address(j))) &&
      (p.result.Ok? ==>
        Given(address(p.describes - 1)) && address(p.describes - 1).value == p.result.value &&
        forall j :: 0 <= j < p.describes - 1 ==> !Given(address(j))) &&
      (p.result.Err? ==> p.result == Err(IpTimeout) && p.describes == MAX_ATTEMPTS)
  {
    PollFromMeaning(address, 0);
  }

  /** waitForPublicIp: a bounded loop of describes by id. */
  method WaitForPublicIp(cloud: Provider, id: string, address: nat -> Option<string>)
    returns (r: Result<string, Fault>)
    modifies cloud
    ensures var p := Poll(old(cloud.fleet), cloud.down, id, address);
      r == p.result && cloud.trace == old(cloud.trace) + Describes(id, p.describes)
    ensures cloud.fleet == old(cloud.fleet)
  {
    var attempts := 0;
    while attempts < MAX_ATTEMPTS
      invariant 0 <= attempts <= MAX_ATTEMPTS
      invariant cloud.fleet == old(cloud.fleet)
      invariant cloud.trace == old(cloud.trace) + Describes(id, attempts)
      invariant attempts > 0 ==> !Fails(cloud.fleet, cloud.down, DescribeOne(id))
      invariant PollFrom(address, attempts) == PollFrom(address, 0)
    {
      var ok := cloud.Issue(DescribeOne(id));
      assert Describes(id, attempts) + [DescribeOne(id)] == Describes(id, attempts + 1);
      if !ok {
        return Err(CallFailed(Ec2Describe));
      }
      var seen := address(attempts);
      if Given(seen) {
        return Ok(seen.value);
      }
      attempts := attempts + 1;
    }
    return Err(IpTimeout);
  }

  /** addShutdownTag: writes the deadline as ISO-8601 text. */
  method AddShutdownTag(cloud: Provider, id: string, shutdownTime: int, codec: TimeCodec) returns (ok: bool)
    modifies cloud
    ensures var c := CreateTag(id, SHUTDOWN_TIME_KEY, codec.format(shutdownTime));
      ok == !Fails(old(cloud.fleet), cloud.down, c) && cloud.trace == old(cloud.trace) + [c] &&
      cloud.fleet == if ok then Effect(old(cloud.fleet), c) else old(cloud.fleet)
  {
    ok := cloud.Issue(CreateTag(id, SHUTDOWN_TIME_KEY, codec.format(shutdownTime)));
  }

  /** removeShutdownTag: cancels any auto-stop. */
  method RemoveShutdownTag(cloud: Provider, id: string) returns (ok: bool)
    modifies cloud
    ensures var c := DeleteTag(id, SHUTDOWN_TIME_KEY);
      ok == !Fails(old(cloud.fleet), cloud.down, c) && cloud.trace == old(cloud.trace) + [c] &&
      cloud.fleet == if ok then Effect(old(cloud.fleet), c) else old(cloud.fleet)
  {
    ok := cloud.Issue(DeleteTag(id, SHUTDOWN_TIME_KEY));
  }

  /** The try-block of `start` and of `start1h` after a start: wait for an
      address, then update DNS with it. */
  method AwaitAndUpdateDns(cloud: Provider, id: string, domain: Option<string>, hostedZoneId: Option<string>,
                           address: nat -> Option<string>) returns (r: Result<string, Fault>)
    requires Given(domain) && Given(hostedZoneId)
    modifies cloud
    ensures cloud.fleet == old(cloud.fleet)
    ensures var p := Poll(old(cloud.fleet), cloud.down, id, address);
      cloud.trace == old(cloud.trace) + Describes(id, p.describes) +
                     (if p.result.Ok? then Upsert(domain, hostedZoneId, p.result.value) else []) &&
      r == if p.result.Ok? && Route53Change in cloud.down then Err(CallFailed(Route53Change)) else p.result
  {
    r := WaitForPublicIp(cloud, id, address);
    if r.Err? {
      return;
    }
    PollMeaning(address);
    var ok := UpdateDns(cloud, domain, hostedZoneId, Some(r.value));
    if !ok {
      r := Err(CallFailed(Route53Change));
    }
  }

  /** `list`: one describe of everything, no change. */
  method HandleList(cloud: Provider) returns (resp: Response)
    modifies cloud
    ensures cloud.fleet == old(cloud.fleet) && cloud.trace == old(cloud.trace) + [DescribeAll]
    ensures resp == if Ec2Describe in cloud.down then Response(500, ServerError)
                    else Response(200, Listing(ListAll(old(cloud.fleet))))
  {
    var ok := cloud.Issue(DescribeAll);
    if !ok {
      return Response(500, ServerError);
    }
    resp := Response(200, Listing(ListAll(cloud.fleet)));
  }

  /** The calls `start` always issues first. */
  function StartPlan(id: string): seq<Call> {
    [StartInstances([id]), DeleteTag(id, SHUTDOWN_TIME_KEY)]
  }

  /** `start`: start, cancel the auto-stop, then (with domain and zone)
      wait for an address and update DNS. A failed wait or DNS update is
      reported with status 200, and the start is never undone. */
  method HandleStart(cloud: Provider, id: string, domain: Option<string>, hostedZoneId: Option<string>,
                     address: nat -> Option<string>) returns (resp: Response)
    modifies cloud
    ensures |cloud.trace| >= |old(cloud.trace)| + 1 &&
      cloud.trace[..|old(cloud.trace)| + 1] == old(cloud.trace) + [StartInstances([id])]
    ensures var run := Perform(old(cloud.fleet), cloud.down, StartPlan(id));
      cloud.fleet == run.fleet &&
      (resp.statusCode == 500 <==> !run.completed) &&
      (!run.completed ==> resp.body == ServerError && cloud.trace == old(cloud.trace) + run.issued)
    ensures var run := Perform(old(cloud.fleet), cloud.down, StartPlan(id));
      run.completed && !(Given(domain) && Given(hostedZoneId)) ==>
        resp == Response(200, StartedDnsSkipped) && cloud.trace == old(cloud.trace) + StartPlan(id)
    ensures var run := Perform(old(cloud.fleet), cloud.down, StartPlan(id));
      var p := Poll(run.fleet, cloud.down, id, address);
      run.completed && Given(domain) && Given(hostedZoneId) ==>
        cloud.trace == old(cloud.trace) + StartPlan(id) + Describes(id, p.describes) +
                       (if p.result.Ok? then Upsert(domain, hostedZoneId, p.result.value) else []) &&
        resp == Response(200,
          if p.result.Err? then StartedDnsFailed(p.result.error)
          else if Route53Change in cloud.down then StartedDnsFailed(CallFailed(Route53Change))
          else StartedDnsUpdated(p.result.value))
  {
    ghost var rs, before := cloud.fleet, cloud.trace;
    ghost var start, cancel := StartInstances([id]), DeleteTag(id, SHUTDOWN_TIME_KEY);
    assert StartPlan(id) == [start] + [cancel];
    PerformStep(rs, cloud.down, [], start);
    assert [] + [start] == [start];
    var ok := cloud.Issue(StartInstances([id]));
    if !ok {
      PerformStopped(rs, cloud.down, [start], [cancel]);
      return Response(500, ServerError);
    }
    PerformStep(rs, cloud.down, [start], cancel);
    ok := RemoveShutdownTag(cloud, id);
    ConcatAssoc(before, [start], [cancel]);
    assert cloud.trace == before + StartPlan(id);
    if !ok {
      return Response(500, ServerError);
    }
    assert Perform(rs, cloud.down, StartPlan(id)) == Run(StartPlan(id), cloud.fleet, true);
    if !Given(domain) || !Given(hostedZoneId) {
      return Response(200, StartedDnsSkipped);
    }
    var polled := AwaitAndUpdateDns(cloud, id, domain, hostedZoneId, address);
    if polled.Err? {
      return Response(200, StartedDnsFailed(polled.error));
    }
    return Response(200, StartedDnsUpdated(polled.value));
  }

  /** The instance's state as the first describe of `start1h` reports it. */
  predicate WasRunning(rs: seq<Reservation>, id: string) {
    var found := Find(Flatten(rs), id);
    found.Some? && found.value.state == Running
  }

  /** The address that describe reports. */
  function KnownAddress(rs: seq<Reservation>, id: string): Option<string> {
    match Find(Flatten(rs), id)
    case Some(inst) => inst.publicIp
    case None => None
  }

  /** The calls `start1h` makes after its describe: a start unless the
      instance runs, then the deadline tag. */
  function ExtendTail(wasRunning: bool, id: string, shutdownTime: int, codec: TimeCodec): seq<Call> {
    (if wasRunning then [] else [StartInstances([id])]) + [CreateTag(id, SHUTDOWN_TIME_KEY, codec.format(shutdownTime))]
  }

  /** The calls `start1h` issues before any DNS work: describe, start only
      if not running, then the deadline one hour from now. */
  function ExtendPlan(rs: seq<Reservation>, id: string, now: int, codec: TimeCodec): (r: seq<Call>)
    ensures |r| >= 2 && r[0] == DescribeOne(id)
    ensures r[|r| - 1] == CreateTag(id, SHUTDOWN_TIME_KEY, codec.format(now + HOUR_MS))
    ensures StartInstances([id]) in r <==> !WasRunning(rs, id)
  {
    [DescribeOne(id)] + ExtendTail(WasRunning(rs, id), id, now + HOUR_MS, codec)
  }

  /** The optional start and the deadline tag of `start1h`. */
  method StartAndTag(cloud: Provider, id: string, wasRunning: bool, shutdownTime: int, codec: TimeCodec)
    returns (ok: bool)
    modifies cloud
    ensures var run := Perform(old(cloud.fleet), cloud.down, ExtendTail(wasRunning, id, shutdownTime, codec));
      cloud.fleet == run.fleet && cloud.trace == old(cloud.trace) + run.issued && ok == run.completed
  {
    ghost var rs, before := cloud.fleet, cloud.trace;
    ghost var tag := CreateTag(id, SHUTDOWN_TIME_KEY, codec.format(shutdownTime));
    ghost var done: seq<Call> := [];
    if !wasRunning {
      PerformStep(rs, cloud.down, [], StartInstances([id]));
      assert [] + [StartInstances([id])] == [StartInstances([id])];
      ok := cloud.Issue(StartInstances([id]));
      done := [StartInstances([id])];
      if !ok {
        PerformStopped(rs, cloud.down, done, [tag]);
        return;
      }
    }
    assert ExtendTail(wasRunning, id, shutdownTime, codec) == done + [tag];
    PerformStep(rs, cloud.down, done, tag);
    ConcatAssoc(before, done, [tag]);
    ok := AddShutdownTag(cloud, id, shutdownTime, codec);
  }

  /** The first half of `start1h`: describe, start unless running, then
      write the deadline. */
  method ScheduleStop(cloud: Provider, id: string, now: int, codec: TimeCodec)
    returns (ok: bool, wasRunning: bool, known: Option<string>)
    modifies cloud
    ensures var run := Perform(old(cloud.fleet), cloud.down, ExtendPlan(old(cloud.fleet), id, now, codec));
      cloud.fleet == run.fleet && cloud.trace == old(cloud.trace) + run.issued && ok == run.completed
    ensures ok ==> cloud.trace == old(cloud.trace) + ExtendPlan(old(cloud.fleet), id, now, codec)
    ensures ok ==> wasRunning == WasRunning(old(cloud.fleet), id) && known == KnownAddress(old(cloud.fleet), id)
  {
    ghost var rs, before := cloud.fleet, cloud.trace;
    ghost var describe := DescribeOne(id);
    ghost var tail := ExtendTail(WasRunning(rs, id), id, now + HOUR_MS, codec);
    assert ExtendPlan(rs, id, now, codec) == [describe] + tail;
    wasRunning, known := false, None;
    ok := cloud.Issue(DescribeOne(id));
    if !ok {
      PerformStopped(rs, cloud.down, [describe], tail);
      return;
    }
    PerformStep(rs, cloud.down, [], describe);
    assert [] + [describe] == [describe];
    FindKnown(rs, id);
    var instance := Find(Flatten(cloud.fleet), id).value;
    wasRunning, known := instance.state == Running, instance.publicIp;
    var shutdownTime := now + HOUR_MS;
    ghost var fleetBefore := cloud.fleet;
    ghost var rest := Perform(fleetBefore, cloud.down, tail);
    ok := StartAndTag(cloud, id, wasRunning, shutdownTime, codec);
    ConcatAssoc(before, [describe], rest.issued);
    if ok {
      PerformResume(rs, cloud.down, [describe], fleetBefore, tail);
    } else {
      PerformHalt(rs, cloud.down, [describe], fleetBefore, tail, []);
      assert [describe] + tail + [] == [describe] + tail;
    }
  }

  /** `start1h`: start unless running, (re)set the deadline to now + 1 h,
      then update DNS from a fresh address (after a start) or from the
      address already known (when it was running). */
  method HandleStart1h(cloud: Provider, id: string, domain: Option<string>, hostedZoneId: Option<string>,
                       now: int, codec: TimeCodec, address: nat -> Option<string>) returns (resp: Response)
    modifies cloud
    ensures |cloud.trace| >= |old(cloud.trace)| + 1 &&
      cloud.trace[..|old(cloud.trace)| + 1] == old(cloud.trace) + [DescribeOne(id)]
    ensures var run := Perform(old(cloud.fleet), cloud.down, ExtendPlan(old(cloud.fleet), id, now, codec));
      cloud.fleet == run.fleet &&
      (resp.statusCode == 500 <==> !run.completed) &&
      (!run.completed ==> resp.body == ServerError && cloud.trace == old(cloud.trace) + run.issued)
    ensures var plan := ExtendPlan(old(cloud.fleet), id, now, codec);
      var run := Perform(old(cloud.fleet), cloud.down, plan);
      run.completed && !(Given(domain) && Given(hostedZoneId)) ==>
        resp == Response(200, ExtendedDnsSkipped(WasRunning(old(cloud.fleet), id), now + HOUR_MS)) &&
        cloud.trace == old(cloud.trace) + plan
    ensures var plan := ExtendPlan(old(cloud.fleet), id, now, codec);
      var run := Perform(old(cloud.fleet), cloud.down, plan);
      var p := Poll(run.fleet, cloud.down, id, address);
      run.completed && Given(domain) && Given(hostedZoneId) && !WasRunning(old(cloud.fleet), id) ==>
        cloud.trace == old(cloud.trace) + plan + Describes(id, p.describes) +
                       (if p.result.Ok? then Upsert(domain, hostedZoneId, p.result.value) else []) &&
        resp == Response(200,
          if p.result.Err? then ExtendFailed(p.result.error)
          else if Route53Change in cloud.down then ExtendFailed(CallFailed(Route53Change))
          else Extended(false, now + HOUR_MS, Some(p.result.value)))
    ensures var plan := ExtendPlan(old(cloud.fleet), id, now, codec);
      var run := Perform(old(cloud.fleet), cloud.down, plan);
      var known := KnownAddress(old(cloud.fleet), id);
      var change := DnsChange(domain, hostedZoneId, known);
      run.completed && Given(domain) && Given(hostedZoneId) && WasRunning(old(cloud.fleet), id) ==>
        cloud.trace == old(cloud.trace) + plan + (if change.Some? then [ChangeRecord(change.value)] else []) &&
        resp == Response(200,
          if change.Some? && Route53Change in cloud.down then ExtendFailed(CallFailed(Route53Change))
          else Extended(true, now + HOUR_MS, known))
  {
    ghost var k := |cloud.trace| + 1;
    ghost var before, run := cloud.trace, Perform(cloud.fleet, cloud.down, ExtendPlan(cloud.fleet, id, now, codec));
    PerformPrefix(cloud.fleet, cloud.down, ExtendPlan(cloud.fleet, id, now, codec));
    var ok, isRunning, known := ScheduleStop(cloud, id, now, codec);
    PrefixFirst(before, run.issued);
    if !ok {
      return Response(500, ServerError);
    }
    var shutdownTime := now + HOUR_MS;
    if !Given(domain) || !Given(hostedZoneId) {
      return Response(200, ExtendedDnsSkipped(isRunning, shutdownTime));
    }
    ghost var mid := cloud.trace;
    if !isRunning {
      ghost var p := Poll(cloud.fleet, cloud.down, id, address);
      var polled := AwaitAndUpdateDns(cloud, id, domain, hostedZoneId, address);
      PrefixKept(mid, Describes(id, p.describes), k);
      PrefixKept(mid + Describes(id, p.describes),
                 if p.result.Ok? then Upsert(domain, hostedZoneId, p.result.value) else [], k);
      if polled.Err? {
        return Response(200, ExtendFailed(polled.error));
      }
      return Response(200, Extended(false, shutdownTime, Some(polled.value)));
    }
    ghost var change := DnsChange(domain, hostedZoneId, known);
    ok := UpdateDns(cloud, domain, hostedZoneId, known);
    PrefixKept(mid, if change.Some? then [ChangeRecord(change.value)] else [], k);
    if !ok {
      return Response(200, ExtendFailed(CallFailed(Route53Change)));
    }
    return Response(200, Extended(true, shutdownTime, known));
  }

  /** `stop`: one stop request, no tag change, no DNS work. */
  method HandleStop(cloud: Provider, id: string) returns (resp: Response)
    modifies cloud
    ensures var c := StopInstances([id]);
      cloud.trace == old(cloud.trace) + [c] &&
      (Fails(old(cloud.fleet), cloud.down, c) ==>
        resp == Response(500, ServerError) && cloud.fleet == old(cloud.fleet)) &&
      (!Fails(old(cloud.fleet), cloud.down, c) ==>
        resp == Response(200, StopRequested) && cloud.fleet == Effect(old(cloud.fleet), c))
  {
    var ok := cloud.Issue(StopInstances([id]));
    if !ok {
      return Response(500, ServerError);
    }
    resp := Response(200, StopRequested);
  }

  /** The default action: report one instance. */
  method HandleStatus(cloud: Provider, id: string) returns (resp: Response)
    modifies cloud
    ensures cloud.fleet == old(cloud.fleet) && cloud.trace == old(cloud.trace) + [DescribeOne(id)]
    ensures Fails(old(cloud.fleet), cloud.down, DescribeOne(id)) ==> resp == Response(500, ServerError)
    ensures !Fails(old(cloud.fleet), cloud.down, DescribeOne(id)) ==>
      Find(Flatten(old(cloud.fleet)), id).Some? &&
      resp == Response(200, Status(View(Find(Flatten(old(cloud.fleet)), id).value)))
  {
    var ok := cloud.Issue(DescribeOne(id));
    if !ok {
      return Response(500, ServerError);
    }
    FindKnown(cloud.fleet, id);
    resp := Response(200, Status(View(Find(Flatten(cloud.fleet), id).value)));
  }

  /** The actions that name an instance, dispatched on `action`; any
      action other than `start`, `start1h` and `stop` reports status. */
  method HandleInstance(cloud: Provider, action: Option<string>, id: string, domain: Option<string>,
                        hostedZoneId: Option<string>, now: int, codec: TimeCodec, address: nat -> Option<string>)
    returns (resp: Response)
    modifies cloud
    ensures resp.statusCode == 200 || resp.statusCode == 500
    ensures action == Some("start") ==>
      |cloud.trace| >= |old(cloud.trace)| + 1 &&
      cloud.trace[..|old(cloud.trace)| + 1] == old(cloud.trace) + [StartInstances([id])]
    ensures action == Some("start1h") ==>
      |cloud.trace| >= |old(cloud.trace)| + 1 &&
      cloud.trace[..|old(cloud.trace)| + 1] == old(cloud.trace) + [DescribeOne(id)]
    ensures action == Some("stop") ==> cloud.trace == old(cloud.trace) + [StopInstances([id])]
    ensures action !in {Some("start"), Some("start1h"), Some("stop")} ==>
      cloud.fleet == old(cloud.fleet) && cloud.trace == old(cloud.trace) + [DescribeOne(id)]
  {
    if action == Some("start") {
      resp := HandleStart(cloud, id, domain, hostedZoneId, address);
    } else if action == Some("start1h") {
      resp := HandleStart1h(cloud, id, domain, hostedZoneId, now, codec, address);
    } else if action == Some("stop") {
      resp := HandleStop(cloud, id);
    } else {
      resp := HandleStatus(cloud, id);
    }
  }

  /** The handler: `list` needs no instance id; every other action without
      one is answered 400 before any call. */
  method Handle(cloud: Provider, req: Request, now: int, codec: TimeCodec, address: nat -> Option<string>)
    returns (resp: Response)
    modifies cloud
    ensures resp.statusCode == 200 || resp.statusCode == 400 || resp.statusCode == 500
    ensures resp.statusCode == 400 <==> req.action != Some("list") && !Given(req.instanceId)
    ensures resp.statusCode == 400 ==>
      resp.body == MissingInstanceId && cloud.trace == old(cloud.trace) && cloud.fleet == old(cloud.fleet)
    ensures req.action == Some("list") ==>
      cloud.fleet == old(cloud.fleet) && cloud.trace == old(cloud.trace) + [DescribeAll]
    ensures req.action == Some("start") && Given(req.instanceId) ==>
      |cloud.trace| >= |old(cloud.trace)| + 1 &&
      cloud.trace[..|old(cloud.trace)| + 1] == old(cloud.trace) + [StartInstances([req.instanceId.value])]
    ensures req.action == Some("start1h") && Given(req.instanceId) ==>
      |cloud.trace| >= |old(cloud.trace)| + 1 &&
      cloud.trace[..|old(cloud.trace)| + 1] == old(cloud.trace) + [DescribeOne(req.instanceId.value)]
    ensures req.action == Some("stop") && Given(req.instanceId) ==>
      cloud.trace == old(cloud.trace) + [StopInstances([req.instanceId.value])]
    ensures req.action !in {Some("list"), Some("start"), Some("start1h"), Some("stop")} && Given(req.instanceId) ==>
      cloud.fleet == old(cloud.fleet) && cloud.trace == old(cloud.trace) + [DescribeOne(req.instanceId.value)]
  {
    if req.action == Some("list") {
      resp := HandleList(cloud);
      return;
    }
    if !Given(req.instanceId) {
      return Response(400, MissingInstanceId);
    }
    resp := HandleInstance(cloud, req.action, req.instanceId.value, req.domain, req.hostedZoneId, now, codec, address);
  }

  lemma StartFleet(rs: seq<Reservation>, down: set<Api>, id: string)
    requires Perform(rs, down, StartPlan(id)).completed
    ensures Perform(rs, down, StartPlan(id)).fleet
         == Effect(Effect(rs, StartInstances([id])), DeleteTag(id, SHUTDOWN_TIME_KEY))
  {
    var plan := StartPlan(id);
    PerformReplay(rs, down, plan);
    var started := Effect(rs, plan[0]);
    assert Replay(rs, plan) == Replay(started, plan[1..]);
    assert Replay(started, plan[1..]) == Replay(Effect(started, plan[1]), []);
  }

  /** After a `start` whose start and tag deletion went through, the
      instance carries no `shutdownTime` tag, whether or not it had one; its
      other tags, and every other instance, are as before. */
  lemma StartCancelsShutdown(rs: seq<Reservation>, down: set<Api>, id: string)
    requires Perform(rs, down, StartPlan(id)).completed
    ensures var before, after := Flatten(rs), Flatten(Perform(rs, down, StartPlan(id)).fleet);
      |after| == |before| &&
      forall k :: 0 <= k < |after| ==>
        after[k].id == before[k].id &&
        (after[k].id == id ==>
          Lookup(after[k].tags, SHUTDOWN_TIME_KEY) == None &&
          forall key :: key != SHUTDOWN_TIME_KEY ==> Lookup(after[k].tags, key) == Lookup(before[k].tags, key)) &&
        (after[k].id != id ==> after[k] == before[k])
  {
    StartFleet(rs, down, id);
    var start, delete := StartInstances([id]), DeleteTag(id, SHUTDOWN_TIME_KEY);
    var started := Effect(rs, start);
    FlattenEffect(rs, start);
    FlattenEffect(started, delete);
    var before, mid, after := Flatten(rs), Flatten(started), Flatten(Effect(started, delete));
    forall k | 0 <= k < |after|
      ensures after[k].id == before[k].id
      ensures after[k].id == id ==>
        Lookup(after[k].tags, SHUTDOWN_TIME_KEY) == None &&
        forall key :: key != SHUTDOWN_TIME_KEY ==> Lookup(after[k].tags, key) == Lookup(before[k].tags, key)
      ensures after[k].id != id ==> after[k] == before[k]
    {
      assert mid[k].id == before[k].id && mid[k].tags == before[k].tags;
      assert before[k].id != id ==> mid[k] == before[k];
      assert after[k] == Touch(mid[k], delete);
    }
  }

  /** What the optional start and the tag write do when both go through. */
  lemma ReplayTail(rs: seq<Reservation>, wasRunning: bool, id: string, shutdownTime: int, codec: TimeCodec)
    ensures var tag := CreateTag(id, SHUTDOWN_TIME_KEY, codec.format(shutdownTime));
      Replay(rs, ExtendTail(wasRunning, id, shutdownTime, codec)) ==
        Effect(if wasRunning then rs else Effect(rs, StartInstances([id])), tag)
  {
    var tail := ExtendTail(wasRunning, id, shutdownTime, codec);
    var tag := CreateTag(id, SHUTDOWN_TIME_KEY, codec.format(shutdownTime));
    if wasRunning {
      assert tail == [tag] && tail[1..] == [];
    } else {
      var start := StartInstances([id]);
      assert tail == [start, tag] && tail[1..] == [tag] && tail[1..][1..] == [];
      assert Replay(rs, tail) == Replay(Effect(rs, start), [tag]);
    }
  }

  lemma ExtendFleet(rs: seq<Reservation>, down: set<Api>, id: string, now: int, codec: TimeCodec)
    requires Perform(rs, down, ExtendPlan(rs, id, now, codec)).completed
    ensures var run := Perform(rs, down, ExtendPlan(rs, id, now, codec));
      var started := if WasRunning(rs, id) then rs else Effect(rs, StartInstances([id]));
      run.issued == ExtendPlan(rs, id, now, codec) &&
      run.fleet == Effect(started, CreateTag(id, SHUTDOWN_TIME_KEY, codec.format(now + HOUR_MS)))
  {
    var plan := ExtendPlan(rs, id, now, codec);
    var tail := ExtendTail(WasRunning(rs, id), id, now + HOUR_MS, codec);
    assert plan[1..] == tail;
    PerformReplay(rs, down, plan);
    ReplayTail(rs, WasRunning(rs, id), id, now + HOUR_MS, codec);
  }

  /** After a `start1h` whose calls went through, the deadline is exactly
      now + 1 h, overwriting any earlier one, whether or not the instance was
      running; a start was issued exactly when it was not running; other tags
      and other instances are as before. */
  lemma ExtendSchedulesShutdown(rs: seq<Reservation>, down: set<Api>, id: string, now: int, codec: TimeCodec)
    requires Perform(rs, down, ExtendPlan(rs, id, now, codec)).completed
    ensures var run := Perform(rs, down, ExtendPlan(rs, id, now, codec));
      StartInstances([id]) in run.issued <==> !WasRunning(rs, id)
    ensures var before, after := Flatten(rs), Flatten(Perform(rs, down, ExtendPlan(rs, id, now, codec)).fleet);
      |after| == |before| &&
      forall k :: 0 <= k < |after| ==>
        after[k].id == before[k].id &&
        (after[k].id == id ==>
          Lookup(after[k].tags, SHUTDOWN_TIME_KEY) == Some(codec.format(now + HOUR_MS)) &&
          forall key :: key != SHUTDOWN_TIME_KEY ==> Lookup(after[k].tags, key) == Lookup(before[k].tags, key)) &&
        (after[k].id != id ==> after[k] == before[k])
  {
    ExtendFleet(rs, down, id, now, codec);
    var tag := CreateTag(id, SHUTDOWN_TIME_KEY, codec.format(now + HOUR_MS));
    var start := StartInstances([id]);
    var started := if WasRunning(rs, id) then rs else Effect(rs, start);
    if !WasRunning(rs, id) {
      FlattenEffect(rs, start);
    }
    FlattenEffect(started, tag);
    var before, mid, after := Flatten(rs), Flatten(started), Flatten(Effect(started, tag));
    forall k | 0 <= k < |after|
      ensures after[k].id == before[k].id
      ensures after[k].id == id ==>
        Lookup(after[k].tags, SHUTDOWN_TIME_KEY) == Some(codec.format(now + HOUR_MS)) &&
        forall key :: key != SHUTDOWN_TIME_KEY ==> Lookup(after[k].tags, key) == Lookup(before[k].tags, key)
      ensures after[k].id != id ==> after[k] == before[k]
    {
      ExtendOne(before[k], !WasRunning(rs, id), id, codec.format(now + HOUR_MS));
    }
  }

  /** One instance through `start1h`'s optional start and its tag write. */
  lemma ExtendOne(inst: Instance, starts: bool, id: string, value: string)
    ensures var mid := if starts then Touch(inst, StartInstances([id])) else inst;
      var after := Touch(mid, CreateTag(id, SHUTDOWN_TIME_KEY, value));
      after.id == inst.id &&
      (after.id == id ==>
        Lookup(after.tags, SHUTDOWN_TIME_KEY) == Some(value) &&
        forall key :: key != SHUTDOWN_TIME_KEY ==> Lookup(after.tags, key) == Lookup(inst.tags, key)) &&
      (after.id != id ==> after == inst)
  {
  }

  /** `stop` changes no tag, address or id: it only asks the named
      instances to stop. */
  lemma StopKeepsTags(rs: seq<Reservation>, ids: seq<string>)
    ensures var before, after := Flatten(rs), Flatten(Effect(rs, StopInstances(ids)));
      |after| == |before| &&
      forall k :: 0 <= k < |after| ==>
        after[k].id == before[k].id && after[k].tags == before[k].tags && after[k].publicIp == before[k].publicIp &&
        after[k].state == if before[k].id in ids then AfterStop(before[k].state) else before[k].state
  {
    FlattenEffect(rs, StopInstances(ids));
  }
}
