/** The services both handlers talk to (EC2, Route 53, Telegram) as one
    abstract provider: the fleet of instances with their tags, the set of
    services that fail during this invocation, and the trace of every call
    issued, in order. */
module Cloud {
  import opened Basics
  import opened Tags

  datatype InstanceState = Pending | Running | ShuttingDown | Terminated | Stopping | Stopped

  datatype Instance = Instance(id: string, state: InstanceState, publicIp: Option<string>, tags: seq<Tag>)

  /** DescribeInstances groups instances into reservations. */
  datatype Reservation = Reservation(instances: seq<Instance>)

  datatype Api = Ec2Describe | Ec2Start | Ec2Stop | Ec2CreateTags | Ec2DeleteTags | Route53Change | TelegramSend

  /** One entry of a Route 53 ChangeBatch. */
  datatype RecordChange = RecordChange(
    action: string, name: string, recordType: string, ttl: nat, value: string, hostedZoneId: string)

  /** A chat message, without its exact wording. */
  datatype Notice =
    | NewInstanceStarted(instanceId: string, tagsInfo: string)
    | RunningTooLong(instanceId: string, hours: int, tagsInfo: string)

  datatype Call =
    | DescribeAll
    | DescribeOne(id: string)
    | StartInstances(ids: seq<string>)
    | StopInstances(ids: seq<string>)
    | CreateTag(id: string, key: string, value: string)
    | DeleteTag(id: string, key: string)
    | ChangeRecord(change: RecordChange)
    | SendMessage(notice: Notice)

  /** Every instance of every reservation, in reservation order (`flatMap`). */
  function Flatten(rs: seq<Reservation>): seq<Instance> {
    if rs == [] then [] else rs[0].instances + Flatten(rs[1..])
  }

  function IdsOf(insts: seq<Instance>): set<string> {
    set inst | inst in insts :: inst.id
  }

  function Ids(rs: seq<Reservation>): set<string> {
    IdsOf(Flatten(rs))
  }

  /** The first instance with that id, as a describe by id returns it. */
  function Find(insts: seq<Instance>, id: string): (r: Option<Instance>)
    ensures r.Some? <==> exists k :: 0 <= k < |insts| && insts[k].id == id
    ensures r.Some? ==> r.value in insts && r.value.id == id
  {
    if insts == [] then None
    else if insts[0].id == id then Some(insts[0])
    else Find(insts[1..], id)
  }

  /** A describe by id that the provider accepts finds the instance. */
  lemma FindKnown(rs: seq<Reservation>, id: string)
    requires id in Ids(rs)
    ensures Find(Flatten(rs), id).Some?
  {
    var inst :| inst in Flatten(rs) && inst.id == id;
    var k :| 0 <= k < |Flatten(rs)| && Flatten(rs)[k] == inst;
  }

  function ApiOf(c: Call): Api {
    match c
    case DescribeAll => Ec2Describe
    case DescribeOne(_) => Ec2Describe
    case StartInstances(_) => Ec2Start
    case StopInstances(_) => Ec2Stop
    case CreateTag(_, _, _) => Ec2CreateTags
    case DeleteTag(_, _) => Ec2DeleteTags
    case ChangeRecord(_) => Route53Change
    case SendMessage(_) => TelegramSend
  }

  /** The instance ids a call names. */
  function Targets(c: Call): set<string> {
    match c
    case DescribeOne(id) => {id}
    case StartInstances(ids) => set x | x in ids
    case StopInstances(ids) => set x | x in ids
    case CreateTag(id, _, _) => {id}
    case DeleteTag(id, _) => {id}
    case _ => {}
  }

  /** A call is rejected when its service is down or it names an unknown instance. */
  predicate Fails(rs: seq<Reservation>, down: set<Api>, c: Call) {
    ApiOf(c) in down || !(Targets(c) <= Ids(rs))
  }

  /** Starting asks a non-running instance to start; stopping asks a
      non-stopped one to stop. The later transitions belong to the provider. */
  function AfterStart(s: InstanceState): InstanceState {
    if s == Running then Running else Pending
  }

  function AfterStop(s: InstanceState): InstanceState {
    if s == Stopped then Stopped else Stopping
  }

  /** What a successful call does to one instance. */
  function Touch(inst: Instance, c: Call): (r: Instance)
    ensures r.id == inst.id
  {
    match c
    case StartInstances(ids) => if inst.id in ids then inst.(state := AfterStart(inst.state)) else inst
    case StopInstances(ids) => if inst.id in ids then inst.(state := AfterStop(inst.state)) else inst
    case CreateTag(id, key, value) => if inst.id == id then inst.(tags := SetTag(inst.tags, key, value)) else inst
    case DeleteTag(id, key) => if inst.id == id then inst.(tags := RemoveTag(inst.tags, key)) else inst
    case _ => inst
  }

  function TouchAll(insts: seq<Instance>, c: Call): (r: seq<Instance>)
    ensures |r| == |insts|
    ensures forall k :: 0 <= k < |insts| ==> r[k] == Touch(insts[k], c)
  {
    if insts == [] then [] else [Touch(insts[0], c)] + TouchAll(insts[1..], c)
  }

  predicate Mutates(c: Call) {
    c.StartInstances? || c.StopInstances? || c.CreateTag? || c.DeleteTag?
  }

  function Apply(rs: seq<Reservation>, c: Call): (r: seq<Reservation>)
    ensures |r| == |rs|
  {
    if rs == [] then [] else [Reservation(TouchAll(rs[0].instances, c))] + Apply(rs[1..], c)
  }

  /** The fleet after a successful call; describes, DNS changes and messages
      leave it as it is. */
  function Effect(rs: seq<Reservation>, c: Call): seq<Reservation> {
    if Mutates(c) then Apply(rs, c) else rs
  }

  /** A successful call acts on every instance in place and keeps the
      reservation grouping and order. */
  lemma {:induction false} TouchAllAppend(a: seq<Instance>, b: seq<Instance>, c: Call)
    decreases |a|
    ensures TouchAll(a + b, c) == TouchAll(a, c) + TouchAll(b, c)
  {
    if a == [] {
      assert a + b == b;
    } else {
      var head, ab := Touch(a[0], c), a + b;
      assert ab[0] == a[0] && ab[1..] == a[1..] + b;
      calc {
        TouchAll(ab, c);
        [head] + TouchAll(a[1..] + b, c);
        { TouchAllAppend(a[1..], b, c); }
        [head] + (TouchAll(a[1..], c) + TouchAll(b, c));
        { ConcatAssoc([head], TouchAll(a[1..], c), TouchAll(b, c)); }
        [head] + TouchAll(a[1..], c) + TouchAll(b, c);
      }
    }
  }

  lemma {:induction false} FlattenApply(rs: seq<Reservation>, c: Call)
    ensures Flatten(Apply(rs, c)) == TouchAll(Flatten(rs), c)
  {
    if rs != [] {
      FlattenApply(rs[1..], c);
      var applied := Apply(rs, c);
      assert applied[0] == Reservation(TouchAll(rs[0].instances, c));
      assert applied[1..] == Apply(rs[1..], c);
      TouchAllAppend(rs[0].instances, Flatten(rs[1..]), c);
    }
  }

  /** A successful call acts on every instance in place and keeps the
      reservation grouping and order. */
  lemma FlattenEffect(rs: seq<Reservation>, c: Call)
    ensures Flatten(Effect(rs, c)) == TouchAll(Flatten(rs), c)
  {
    if Mutates(c) {
      FlattenApply(rs, c);
    } else {
      var insts := Flatten(rs);
      assert TouchAll(insts, c) == insts;
    }
  }

  /** Two instance lists that agree on ids position by position carry the same ids. */
  lemma SameIds(before: seq<Instance>, after: seq<Instance>)
    requires |after| == |before|
    requires forall k :: 0 <= k < |after| ==> after[k].id == before[k].id
    ensures IdsOf(after) == IdsOf(before)
  {
    forall x | x in IdsOf(before) ensures x in IdsOf(after) {
      var inst :| inst in before && inst.id == x;
      var k :| 0 <= k < |before| && before[k] == inst;
      assert after[k] in after;
    }
    forall x | x in IdsOf(after) ensures x in IdsOf(before) {
      var inst :| inst in after && inst.id == x;
      var k :| 0 <= k < |after| && after[k] == inst;
      assert before[k] in before;
    }
  }

  /** No call adds, removes or renames an instance. */
  lemma IdsStable(rs: seq<Reservation>, c: Call)
    ensures Ids(Effect(rs, c)) == Ids(rs)
  {
    FlattenEffect(rs, c);
    SameIds(Flatten(rs), Flatten(Effect(rs, c)));
  }

  /** The outcome of issuing a plan of calls in order. */
  datatype Run = Run(issued: seq<Call>, fleet: seq<Reservation>, completed: bool)

  /** Issues `plan` call by call: a rejected call is issued but changes
      nothing, and the calls after it are not issued (the handlers do not
      catch the exception it raises). */
  function Perform(rs: seq<Reservation>, down: set<Api>, plan: seq<Call>): (r: Run)
    decreases |plan|
  {
    if plan == [] then Run([], rs, true)
    else if Fails(rs, down, plan[0]) then Run([plan[0]], rs, false)
    else
      var rest := Perform(Effect(rs, plan[0]), down, plan[1..]);
      Run([plan[0]] + rest.issued, rest.fleet, rest.completed)
  }

  /** A plan that completed was issued in full; one more call extends it by one step. */
  lemma {:induction false} PerformStep(rs: seq<Reservation>, down: set<Api>, plan: seq<Call>, c: Call)
    decreases |plan|
    requires Perform(rs, down, plan).completed
    ensures Perform(rs, down, plan).issued == plan
    ensures var run := Perform(rs, down, plan);
      Perform(rs, down, plan + [c]) ==
        if Fails(run.fleet, down, c) then Run(plan + [c], run.fleet, false)
        else Run(plan + [c], Effect(run.fleet, c), true)
  {
    if plan == [] {
      assert plan + [c] == [c];
    } else {
      var first, fleet := plan[0], Effect(rs, plan[0]);
      var tail := Perform(fleet, down, plan[1..]);
      assert Perform(rs, down, plan) == Run([first] + tail.issued, tail.fleet, tail.completed);
      PerformStep(fleet, down, plan[1..], c);
      var longer := plan + [c];
      assert longer[0] == first && longer[1..] == plan[1..] + [c];
      var more := Perform(fleet, down, plan[1..] + [c]);
      assert Perform(rs, down, longer) == Run([first] + more.issued, more.fleet, more.completed);
      ConcatAssoc([first], plan[1..], [c]);
      assert [first] + plan[1..] == plan;
    }
  }

  /** Nothing is issued after a rejected call. */
  lemma {:induction false} PerformStopped(rs: seq<Reservation>, down: set<Api>, plan: seq<Call>, more: seq<Call>)
    decreases |plan|
    requires !Perform(rs, down, plan).completed
    ensures Perform(rs, down, plan + more) == Perform(rs, down, plan)
  {
    assert plan != [];
    if !Fails(rs, down, plan[0]) {
      PerformStopped(Effect(rs, plan[0]), down, plan[1..], more);
      assert (plan + more)[1..] == plan[1..] + more;
    }
  }

  /** The calls issued are always a prefix of the plan. */
  lemma {:induction false} PerformPrefix(rs: seq<Reservation>, down: set<Api>, plan: seq<Call>)
    decreases |plan|
    ensures var run := Perform(rs, down, plan);
      |run.issued| <= |plan| && run.issued == plan[..|run.issued|] &&
      (run.completed ==> run.issued == plan) &&
      (!run.completed ==> run.issued != [] && Fails(run.fleet, down, run.issued[|run.issued| - 1]))
  {
    if plan != [] && !Fails(rs, down, plan[0]) {
      PerformPrefix(Effect(rs, plan[0]), down, plan[1..]);
    }
  }

  /** Running a completed plan and then another is running both in turn. */
  lemma {:induction false} PerformThen(rs: seq<Reservation>, down: set<Api>, first: seq<Call>, second: seq<Call>)
    decreases |first|
    requires Perform(rs, down, first).completed
    ensures var one := Perform(rs, down, first);
      var two := Perform(one.fleet, down, second);
      Perform(rs, down, first + second) == Run(first + two.issued, two.fleet, two.completed)
  {
    if first == [] {
      assert first + second == second;
    } else {
      var c := first[0];
      var one := Perform(Effect(rs, c), down, first[1..]);
      assert Perform(rs, down, first) == Run([c] + one.issued, one.fleet, one.completed);
      PerformThen(Effect(rs, c), down, first[1..], second);
      var two := Perform(one.fleet, down, second);
      assert (first + second)[0] == c && (first + second)[1..] == first[1..] + second;
      ConcatAssoc([c], first[1..], two.issued);
      assert [c] + first[1..] == first;
    }
  }

  /** Continuing a completed prefix `done` with a `next` that completes too. */
  lemma PerformResume(rs: seq<Reservation>, down: set<Api>, done: seq<Call>, fleet: seq<Reservation>, next: seq<Call>)
    requires Perform(rs, down, done) == Run(done, fleet, true)
    requires Perform(fleet, down, next).completed
    ensures Perform(fleet, down, next).issued == next
    ensures Perform(rs, down, done + next) == Run(done + next, Perform(fleet, down, next).fleet, true)
  {
    PerformPrefix(fleet, down, next);
    PerformThen(rs, down, done, next);
  }

  /** Continuing a completed prefix `done` with a `next` that is rejected part
      way: the run stops there, whatever was planned after it. */
  lemma PerformHalt(rs: seq<Reservation>, down: set<Api>, done: seq<Call>, fleet: seq<Reservation>,
                    next: seq<Call>, rest: seq<Call>)
    requires Perform(rs, down, done) == Run(done, fleet, true)
    requires !Perform(fleet, down, next).completed
    ensures var step := Perform(fleet, down, next);
      Perform(rs, down, done + next + rest) == Run(done + step.issued, step.fleet, false) &&
      step.issued != [] && (done + step.issued)[|done + step.issued| - 1] == step.issued[|step.issued| - 1]
  {
    PerformPrefix(fleet, down, next);
    PerformThen(rs, down, done, next);
    PerformStopped(rs, down, done + next, rest);
  }

  /** The fleet after every call of `plan` succeeded. */
  function Replay(rs: seq<Reservation>, plan: seq<Call>): seq<Reservation>
    decreases |plan|
  {
    if plan == [] then rs else Replay(Effect(rs, plan[0]), plan[1..])
  }

  /** A plan that completed was issued in full and every call of it took effect. */
  lemma {:induction false} PerformReplay(rs: seq<Reservation>, down: set<Api>, plan: seq<Call>)
    decreases |plan|
    requires Perform(rs, down, plan).completed
    ensures Perform(rs, down, plan) == Run(plan, Replay(rs, plan), true)
  {
    if plan != [] {
      PerformReplay(Effect(rs, plan[0]), down, plan[1..]);
    }
  }

  /** A plan whose services are all up and whose calls name known
      instances runs to the end. */
  lemma {:induction false} PerformCompletes(rs: seq<Reservation>, down: set<Api>, plan: seq<Call>)
    decreases |plan|
    requires forall i :: 0 <= i < |plan| ==> ApiOf(plan[i]) !in down && Targets(plan[i]) <= Ids(rs)
    ensures Perform(rs, down, plan).completed && Perform(rs, down, plan).issued == plan
  {
    if plan != [] {
      IdsStable(rs, plan[0]);
      PerformCompletes(Effect(rs, plan[0]), down, plan[1..]);
    }
  }

  class Provider {
    /** The instances as DescribeInstances would report them now. */
    var fleet: seq<Reservation>
    /** Every call issued so far, oldest first. */
    var trace: seq<Call>
    /** The services that reject every call during this invocation. */
    const down: set<Api>

    constructor (fleet0: seq<Reservation>, down0: set<Api>)
      ensures fleet == fleet0 && down == down0 && trace == []
    {
      fleet := fleet0;
      down := down0;
      trace := [];
    }

    /** Sends one request; `ok` is false when it is rejected. */
    method Issue(c: Call) returns (ok: bool)
      modifies this
      ensures ok == !Fails(old(fleet), down, c)
      ensures trace == old(trace) + [c]
      ensures fleet == if ok then Effect(old(fleet), c) else old(fleet)
    {
      trace := trace + [c];
      ok := !Fails(fleet, down, c);
      if ok {
        fleet := Effect(fleet, c);
      }
    }
  }
}
