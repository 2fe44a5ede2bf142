/** The handshake behind drift reboots. The cluster controller requests a reboot by writing a time
    into a machine's spec; the machine's own controller sees that the request is newer than the
    last reboot, calls the machine, and stamps the time of the call. Nothing is ever cleared. The
    two controllers interleave freely; stored times are whole seconds. */
module RebootProtocol {
  import opened Ids
  import opened Kube

  const COOLDOWN := 600 * NANOS

  /** The last reboot is long enough ago. */
  predicate Cool(last: Option<nat>, now: nat) {
    last.None? || now - last.value * NANOS >= COOLDOWN
  }

  /** Where a machine's controller is in its pass; `version` is that of the object it read. */
  datatype MachinePc =
    | Resting
    | Owing(version: nat)
    | Calling(version: nat)
    | Stamping(version: nat, stamp: nat)

  /** Where the cluster controller is in its pass. */
  datatype ClusterPc = Idle | Checked(drift: set<Id>) | Chosen(m: Id, version: nat, now: nat)

  /** `answered` says that a call was made since the current request was written, `tried` is the
      clock at the latest call. Both are history only. */
  datatype Node = Node(
    requested: Option<nat>, last: Option<nat>, version: nat, pc: MachinePc, answered: bool, tried: Option<nat>)
  {
    predicate Owes() { Owed(requested, last) }
  }

  /** `down` holds the machines that Omni shows as not healthy. */
  datatype State = State(clock: nat, nodes: map<Id, Node>, cluster: ClusterPc, down: set<Id>)
  {
    function Owing(): set<Id> { set m | m in nodes && nodes[m].Owes() }

    /** Machines that are down or about to be. */
    function Busy(): set<Id> { set m | m in Owing() + down }

    function Set(m: Id, n: Node): State { this.(nodes := nodes[m := n]) }
  }

  datatype Event =
    | HealthRead(drift: set<Id>)
    | List(m: Id)
    | Write(delivered: bool)
    | Read(m: Id)
    | Call(m: Id, accepted: bool)
    | Return(m: Id)
    | Stamp(m: Id, delivered: bool)
    | Rejoin(m: Id)
    | Touch(m: Id)
    | Join(m: Id, version: nat)
    | Leave(m: Id)
    | Tick(d: nat)

  /** One step; an event that is not enabled changes nothing. A write or a stamp is refused when the
      object is not at the version that was read. Objects are created by the cluster controller, before
      its pass looks at the health, and are gone only when their own controller is not in a pass. */
  function Step(s: State, e: Event): State {
    match e
    case HealthRead(drift) =>
      if s.cluster.Idle? && s.down == {} && drift != {} then s.(cluster := Checked(drift)) else s
    case List(m) =>
      if !s.cluster.Checked? then s
      else if s.Owing() == {} && m in s.cluster.drift && m in s.nodes && Cool(s.nodes[m].last, s.clock)
      then s.(cluster := Chosen(m, s.nodes[m].version, s.clock))
      else s.(cluster := Idle)
    case Write(delivered) =>
      if !s.cluster.Chosen? then s
      else WriteRequest(s, s.cluster.m, s.cluster.version, s.cluster.now, delivered).(cluster := Idle)
    case Tick(d) => s.(clock := s.clock + d)
    case Rejoin(m) => s.(down := s.down - {m})
    case Join(m, version) => if s.cluster.Idle? && m !in s.nodes then s.Set(m, NewNode(version)) else s
    case Leave(m) => if m in s.nodes && s.nodes[m].pc.Resting? then s.(nodes := s.nodes - {m}) else s
    case _ => if e.m in s.nodes then MachineStep(s, e.m, s.nodes[e.m], e) else s
  }

  /** A new object: nothing requested, never rebooted. */
  function NewNode(version: nat): Node {
    Node(None, None, version, Resting, false, None)
  }

  function WriteRequest(s: State, m: Id, version: nat, now: nat, delivered: bool): State {
    if delivered && m in s.nodes && s.nodes[m].version == version
    then s.Set(m, s.nodes[m].(requested := Some(Seconds(now)), version := version + 1, answered := false))
    else s
  }

  function MachineStep(s: State, m: Id, n: Node, e: Event): State {
    match e
    case Read(_) => if n.pc.Resting? && n.Owes() then s.Set(m, n.(pc := Owing(n.version))) else s
    case Call(_, accepted) =>
      if n.pc.Owing?
      then s.Set(m, n.(pc := Calling(n.pc.version), answered := true, tried := Some(s.clock)))
            .(down := s.down + if accepted then {m} else {})
      else s
    case Return(_) => if n.pc.Calling? then s.Set(m, n.(pc := Stamping(n.pc.version, Seconds(s.clock)))) else s
    case Stamp(_, delivered) =>
      if n.pc.Stamping? then
        s.Set(m, if delivered && n.version == n.pc.version
                 then n.(last := Some(n.pc.stamp), version := n.version + 1, pc := Resting)
                 else n.(pc := Resting))
      else s
    case Touch(_) => s.Set(m, n.(version := n.version + 1))
    case _ => s
  }

  function Run(s: State, es: seq<Event>): State {
    if es == [] then s else Step(Run(s, es[..|es| - 1]), es[|es| - 1])
  }

  // ── What every step keeps ────────────────────────────────────────────────────

  ghost predicate NodeOk(n: Node, clock: nat) {
    && (n.requested.Some? ==> n.requested.value <= Seconds(clock))
    && (n.last.Some? ==> n.last.value <= Seconds(clock))
    && (!n.pc.Resting? ==> n.Owes())
    && (n.pc.Stamping? ==> n.requested.value <= n.pc.stamp <= Seconds(clock))
    && (n.pc.Calling? || n.pc.Stamping? ==> n.answered)
    && (n.requested.Some? && !n.Owes() ==> n.answered)
  }

  ghost predicate AtMostOne(s: set<Id>) {
    forall a, b :: a in s && b in s ==> a == b
  }

  ghost predicate Inv(s: State) {
    && (forall m :: m in s.nodes ==> NodeOk(s.nodes[m], s.clock))
    && AtMostOne(s.Owing())
    && (s.cluster.Chosen? ==>
          && s.Owing() == {} && s.cluster.now <= s.clock
          && (s.cluster.m in s.nodes ==> Cool(s.nodes[s.cluster.m].last, s.cluster.now)))
  }

  lemma SecondsGrow(a: nat, b: nat)
    requires a <= b
    ensures Seconds(a) <= Seconds(b)
  {
  }

  /** A request made after the cooldown is newer than the last reboot. */
  lemma CoolMeansNewer(last: Option<nat>, now: nat)
    requires Cool(last, now)
    ensures Owed(Some(Seconds(now)), last)
  {
  }

  /** The node of a machine after a step of its controller. */
  lemma MachineStepOk(s: State, m: Id, e: Event)
    requires m in s.nodes && NodeOk(s.nodes[m], s.clock)
    ensures
      var (n, n') := (s.nodes[m], MachineStep(s, m, s.nodes[m], e).nodes[m]);
      && NodeOk(n', s.clock) && (n'.Owes() ==> n.Owes()) && n'.requested == n.requested
      && (!n.Owes() ==> n'.last == n.last)
  {
  }

  lemma WriteKeepsInv(s: State, delivered: bool)
    requires Inv(s) && s.cluster.Chosen?
    ensures Inv(Step(s, Write(delivered)))
  {
    if s.cluster.m in s.nodes { CoolMeansNewer(s.nodes[s.cluster.m].last, s.cluster.now); }
    SecondsGrow(s.cluster.now, s.clock);
    var s' := Step(s, Write(delivered));
    forall x | x in s'.nodes ensures NodeOk(s'.nodes[x], s'.clock) && (x in s'.Owing() ==> x == s.cluster.m) {
      assert x !in s.Owing();
    }
  }

  /** An event of a machine's controller, or another write to its object. */
  predicate OnMachine(e: Event) {
    e.Read? || e.Call? || e.Return? || e.Stamp? || e.Touch?
  }

  lemma PopulationKeepsInv(s: State, e: Event)
    requires Inv(s) && (e.Join? || e.Leave? || e.Rejoin?)
    ensures Inv(Step(s, e)) && Step(s, e).Owing() <= s.Owing()
  {
    var s' := Step(s, e);
    forall x | x in s'.nodes ensures if x in s.nodes then s'.nodes[x] == s.nodes[x] else !s'.nodes[x].Owes() {
    }
    assert s'.Owing() <= s.Owing();
  }

  /** One node changed, and not so that it owes a reboot it did not owe before. */
  lemma NodeKeepsInv(s: State, s': State, m: Id)
    requires Inv(s) && m in s.nodes && m in s'.nodes && s'.nodes == s.nodes[m := s'.nodes[m]]
    requires s'.cluster == s.cluster && s'.clock == s.clock
    requires NodeOk(s'.nodes[m], s'.clock) && (s'.nodes[m].Owes() ==> s.nodes[m].Owes())
    requires !s.nodes[m].Owes() ==> s'.nodes[m].last == s.nodes[m].last
    ensures Inv(s') && s'.Owing() <= s.Owing()
  {
    forall x | x in s'.Owing() ensures x in s.Owing() {
    }
    assert s.Owing() == {} ==> !s.nodes[m].Owes() by { assert s.nodes[m].Owes() ==> m in s.Owing(); }
  }

  lemma MachineEventKeepsInv(s: State, e: Event)
    requires Inv(s) && OnMachine(e)
    ensures Inv(Step(s, e)) && Step(s, e).Owing() <= s.Owing()
  {
    if e.m in s.nodes {
      MachineStepOk(s, e.m, e);
      NodeKeepsInv(s, Step(s, e), e.m);
    }
  }

  lemma StepKeepsInv(s: State, e: Event)
    requires Inv(s)
    ensures Inv(Step(s, e))
  {
    if e.Tick? {
      SecondsGrow(s.clock, s.clock + e.d);
      assert Step(s, e).Owing() == s.Owing();
    } else if e.Write? {
      if s.cluster.Chosen? { WriteKeepsInv(s, e.delivered); }
    } else if e.HealthRead? || e.List? {
      assert Step(s, e).Owing() == s.Owing();
    } else if OnMachine(e) {
      MachineEventKeepsInv(s, e);
    } else {
      PopulationKeepsInv(s, e);
    }
  }

  /** Whatever the interleaving, and whatever machines join and leave, at most one machine of the
      cluster owes a reboot. */
  lemma {:induction false} AtMostOneOwed(s: State, es: seq<Event>)
    requires Inv(s)
    ensures Inv(Run(s, es)) && AtMostOne(Run(s, es).Owing())
  {
    if es != [] {
      AtMostOneOwed(s, es[..|es| - 1]);
      StepKeepsInv(Run(s, es[..|es| - 1]), es[|es| - 1]);
    }
  }

  // ── How many machines are down ───────────────────────────────────────────────

  /** Only the write of a request makes another machine busy; a machine that is called was owed. */
  lemma BusyGrowsByWrite(s: State, e: Event)
    requires Inv(s)
    ensures Step(s, e).Busy() <= s.Busy() + if e.Write? && s.cluster.Chosen? then {s.cluster.m} else {}
    ensures e.HealthRead? || e.List? || e.Tick? ==> Step(s, e).Busy() == s.Busy() && Step(s, e).down == s.down
  {
  }

  lemma AtMostOneSize(s: set<Id>)
    requires AtMostOne(s)
    ensures |s| <= 1
  {
    if s != {} {
      var x :| x in s;
      assert s == {x};
    }
  }

  lemma OneMore(a: set<Id>, b: set<Id>, m: Id)
    requires a <= b + {m}
    ensures |a| <= |b| + 1
  {
    SubsetSize(a, b + {m});
  }

  /** While a pass has looked at the health but not yet at the requests, at most one machine is busy;
      once it has chosen, the machine that was busy then may still be down. */
  ghost predicate TwoBusy(s: State) {
    && Inv(s) && |s.Busy()| <= 2
    && (!s.cluster.Idle? ==> |s.Busy()| <= 1)
  }

  lemma NothingDownOneBusy(s: State)
    requires Inv(s) && s.down == {}
    ensures |s.Busy()| <= 1
  {
    assert s.Busy() == s.Owing();
    AtMostOneSize(s.Owing());
  }

  /** How many are busy after a step. */
  lemma BusyCount(s: State, e: Event)
    requires Inv(s)
    ensures |Step(s, e).Busy()| <= |s.Busy()| + if e.Write? && s.cluster.Chosen? then 1 else 0
  {
    BusyGrowsByWrite(s, e);
    if e.Write? && s.cluster.Chosen? {
      OneMore(Step(s, e).Busy(), s.Busy(), s.cluster.m);
    } else {
      SubsetSize(Step(s, e).Busy(), s.Busy());
    }
  }

  lemma StepKeepsTwo(s: State, e: Event)
    requires TwoBusy(s)
    ensures TwoBusy(Step(s, e))
  {
    StepKeepsInv(s, e);
    BusyCount(s, e);
    if s.down == {} { NothingDownOneBusy(s); }
  }

  /** With the health and the requests read at different moments, at most two machines are owed a
      reboot or down, over every interleaving. */
  lemma {:induction false} AtMostTwoBusy(s: State, es: seq<Event>)
    requires TwoBusy(s)
    ensures TwoBusy(Run(s, es))
  {
    if es != [] {
      AtMostTwoBusy(s, es[..|es| - 1]);
      StepKeepsTwo(Run(s, es[..|es| - 1]), es[|es| - 1]);
    }
  }

  /** A cluster pass reads the health and the requests in one step. */
  ghost predicate AtomicReads(es: seq<Event>) {
    forall i :: 0 <= i < |es| && es[i].HealthRead? ==> i + 1 < |es| && es[i + 1].List?
  }

  /** At most one machine is busy, and none once a pass has chosen; `checking` says that the health was read
      in the step just before. */
  ghost predicate OneBusy(s: State, checking: bool) {
    && Inv(s) && AtMostOne(s.Busy())
    && (s.cluster.Chosen? ==> s.Busy() == {})
    && (s.cluster.Checked? ==> checking && s.down == {})
  }

  lemma StepKeepsOne(s: State, checking: bool, e: Event)
    requires OneBusy(s, checking) && (checking ==> e.List?)
    ensures OneBusy(Step(s, e), e.HealthRead?)
  {
    StepKeepsInv(s, e);
    BusyGrowsByWrite(s, e);
  }

  /** If they were read in one step, it would be at most one. */
  lemma {:induction false} AtomicReadsAllowOne(s: State, es: seq<Event>, k: nat)
    requires OneBusy(s, false) && AtomicReads(es) && k <= |es|
    ensures OneBusy(Run(s, es[..k]), k > 0 && es[k - 1].HealthRead?) && |Run(s, es[..k]).Busy()| <= 1
  {
    if k > 0 {
      AtomicReadsAllowOne(s, es, k - 1);
      assert es[..k][..k - 1] == es[..k - 1];
      StepKeepsOne(Run(s, es[..k - 1]), k > 1 && es[k - 2].HealthRead?, es[k - 1]);
    }
    assert es[..0] == [];
    AtMostOneSize(Run(s, es[..k]).Busy());
  }

  // ── When a second machine can go down ────────────────────────────────────────

  ghost predicate SamePass(es: seq<Event>) {
    forall i :: 0 <= i < |es| ==> !es[i].HealthRead?
  }

  /** Some continuation of the current pass has two machines down at once. */
  ghost predicate CanTakeTwoDown(s: State) {
    exists es :: SamePass(es) && |Run(s, es).down| >= 2
  }

  ghost predicate Quiet(s: State) {
    Inv(s) && AtMostOne(s.Busy()) && (!s.cluster.Idle? ==> s.Busy() == {})
  }

  lemma StepKeepsQuiet(s: State, e: Event)
    requires Quiet(s) && !e.HealthRead?
    ensures Quiet(Step(s, e))
  {
    StepKeepsInv(s, e);
    BusyGrowsByWrite(s, e);
  }

  lemma {:induction false} QuietPass(s: State, es: seq<Event>)
    requires Quiet(s) && SamePass(es)
    ensures Quiet(Run(s, es)) && |Run(s, es).down| <= 1
  {
    if es != [] {
      QuietPass(s, es[..|es| - 1]);
      StepKeepsQuiet(Run(s, es[..|es| - 1]), es[|es| - 1]);
    }
    AtMostOneSize(Run(s, es).Busy());
    SubsetSize(Run(s, es).down, Run(s, es).Busy());
  }

  lemma {:induction false} RunFrom(s: State, e: Event, es: seq<Event>)
    ensures Run(s, [e] + es) == Run(Step(s, e), es)
  {
    var all := [e] + es;
    if es == [] {
      assert all == [e] && all[..0] == [];
      assert Run(s, all[..0]) == s;
    } else {
      assert all[..|all| - 1] == [e] + es[..|es| - 1];
      RunFrom(s, e, es[..|es| - 1]);
    }
  }

  lemma Before(s: State, e: Event)
    requires !e.HealthRead? && CanTakeTwoDown(Step(s, e))
    ensures CanTakeTwoDown(s)
  {
    var es :| SamePass(es) && |Run(Step(s, e), es).down| >= 2;
    RunFrom(s, e, es);
    assert SamePass([e] + es);
  }

  /** The pass has checked the health; `m` owes a reboot but has not been called yet, and `x` drifts. */
  ghost predicate Trap(s: State, m: Id, x: Id) {
    && Inv(s) && s.cluster.Checked? && x in s.cluster.drift && m != x && m in s.Owing()
    && x in s.nodes && !s.nodes[x].Owes() && Cool(s.nodes[x].last, s.clock)
  }

  /** The machine is called, stamped, and no longer owed, so the pass picks the other one. */
  lemma TrapFromResting(s: State, m: Id, x: Id)
    requires Trap(s, m, x) && s.nodes[m].pc.Resting?
    ensures CanTakeTwoDown(s)
  {
    var s1 := Step(s, Read(m));
    var s2 := Step(s1, Call(m, true));
    var s3 := Step(s2, Return(m));
    var s4 := Step(s3, Stamp(m, true));
    SecondsGrow(0, s.clock);
    assert s4.Owing() == {} && m in s4.down by {
      forall y | y in s4.nodes ensures !s4.nodes[y].Owes() { assert y in s.Owing() ==> y == m; }
    }
    var s5 := Step(s4, List(x));
    SecondRequest(s5, x, s.clock, m);
    Before(s4, List(x));
    Before(s3, Stamp(m, true));
    Before(s2, Return(m));
    Before(s1, Call(m, true));
    Before(s, Read(m));
  }

  lemma SecondRequest(s: State, x: Id, now: nat, m: Id)
    requires x in s.nodes && s.cluster == Chosen(x, s.nodes[x].version, now) && Cool(s.nodes[x].last, now)
    requires s.nodes[x].pc.Resting? && m in s.down && m != x
    ensures CanTakeTwoDown(s)
  {
    CoolMeansNewer(s.nodes[x].last, now);
    var s1 := Step(s, Write(true));
    var s2 := Step(s1, Read(x));
    var s3 := Step(s2, Call(x, true));
    SubsetSize({m, x}, s3.down);
    assert Run(s3, []) == s3 && SamePass([]);
    Before(s2, Call(x, true));
    Before(s1, Read(x));
    Before(s, Write(true));
  }

  /** A pass of the machine's controller that is under way may lose its stamp, and starts again. */
  lemma {:induction false} TrapCloses(s: State, m: Id, x: Id)
    requires Trap(s, m, x)
    ensures CanTakeTwoDown(s)
    decreases match s.nodes[m].pc case Resting => 0 case Stamping(_, _) => 1 case Calling(_) => 2 case Owing(_) => 3
  {
    if s.nodes[m].pc.Resting? {
      TrapFromResting(s, m, x);
    } else {
      var e :=
        if s.nodes[m].pc.Owing? then Call(m, false)
        else if s.nodes[m].pc.Calling? then Return(m)
        else Stamp(m, false);
      StepKeepsInv(s, e);
      TrapCloses(Step(s, e), m, x);
      Before(s, e);
    }
  }

  /** Only `m` is busy, and the pass can pick no other machine. */
  ghost predicate Lone(s: State, m: Id) {
    && Inv(s) && s.Busy() <= {m}
    && (s.cluster.Checked? ==> forall x :: x in s.cluster.drift && x in s.nodes ==> x == m)
    && (s.cluster.Chosen? ==> s.cluster.m == m)
  }

  lemma StepKeepsLone(s: State, e: Event, m: Id)
    requires Lone(s, m) && !e.HealthRead?
    ensures Lone(Step(s, e), m)
  {
    StepKeepsInv(s, e);
    BusyGrowsByWrite(s, e);
  }

  lemma {:induction false} LonePass(s: State, es: seq<Event>, m: Id)
    requires Lone(s, m) && SamePass(es)
    ensures Lone(Run(s, es), m) && |Run(s, es).down| <= 1
  {
    if es != [] {
      LonePass(s, es[..|es| - 1], m);
      StepKeepsLone(Run(s, es[..|es| - 1]), es[|es| - 1], m);
    }
    SubsetSize(Run(s, es).down, {m});
  }

  /** Where nothing is owed, or nothing drifts but the machine that is owed, the pass is safe. */
  lemma SafePass(s: State, drift: set<Id>, es: seq<Event>)
    requires Inv(s) && s.cluster.Idle? && s.down == {} && SamePass(es)
    requires forall m, x :: m in s.Owing() && x in drift && x in s.nodes ==> x == m
    ensures |Run(Step(s, HealthRead(drift)), es).down| <= 1
  {
    var s' := Step(s, HealthRead(drift));
    StepKeepsInv(s, HealthRead(drift));
    assert s'.Owing() == s.Owing();
    if m :| m in s.Owing() {
      assert Lone(s', m);
      LonePass(s', es, m);
    } else {
      assert Quiet(s');
      QuietPass(s', es);
    }
  }

  /** A drifting machine that is still cooling down need only wait. */
  lemma UnsafePass(s: State, drift: set<Id>, m: Id, x: Id)
    requires Inv(s) && s.cluster.Idle? && s.down == {} && m in s.Owing() && x in drift && x in s.nodes && x != m
    ensures CanTakeTwoDown(Step(s, HealthRead(drift)))
  {
    var s' := Step(s, HealthRead(drift));
    var later := Step(s', Tick(COOLDOWN));
    StepKeepsInv(s, HealthRead(drift));
    StepKeepsInv(s', Tick(COOLDOWN));
    assert s'.Owing() == s.Owing() == later.Owing();
    assert x !in s.Owing() && NodeOk(s.nodes[x], s.clock);
    TrapCloses(later, m, x);
    Before(s', Tick(COOLDOWN));
  }

  /** With nothing down, a pass that starts now can take two machines down exactly when, at the moment
      it checks the health, one machine owes a reboot and another one drifts. So the promise of one
      machine at a time does not hold on every run. */
  lemma TwoDownIff(s: State, drift: set<Id>)
    requires Inv(s) && s.cluster.Idle? && s.down == {}
    ensures CanTakeTwoDown(Step(s, HealthRead(drift))) <==>
      exists m, x :: m in s.Owing() && x in drift && x in s.nodes && x != m
  {
    if m, x :| m in s.Owing() && x in drift && x in s.nodes && x != m {
      UnsafePass(s, drift, m, x);
    } else {
      forall es | SamePass(es) ensures |Run(Step(s, HealthRead(drift)), es).down| <= 1 { SafePass(s, drift, es); }
    }
  }

  // ── No request is dropped ────────────────────────────────────────────────────

  /** The event is a call that reaches the machine's controller. */
  ghost predicate Calls(s: State, e: Event, m: Id) {
    e.Call? && e.m == m && m in s.nodes && s.nodes[m].pc.Owing?
  }

  ghost predicate CalledIn(s: State, es: seq<Event>, m: Id) {
    exists i :: 0 <= i < |es| && Calls(Run(s, es[..i]), es[i], m)
  }

  ghost predicate Pending(s: State, m: Id) {
    m in s.nodes && s.nodes[m].Owes() && !s.nodes[m].answered
  }

  lemma PendingUntilCalled(s: State, e: Event, m: Id)
    requires Inv(s) && Pending(s, m) && !Calls(s, e, m) && e != Leave(m)
    ensures Pending(Step(s, e), m)
  {
  }

  /** A request stays owed until the machine has been called: lost stamps, stale versions and
      repeated passes cannot drop it, and no older stamp clears it, while the object stays. */
  lemma {:induction false} NoRequestIsDropped(s: State, es: seq<Event>, m: Id)
    requires Inv(s) && Pending(s, m) && Leave(m) !in es
    ensures Pending(Run(s, es), m) || CalledIn(s, es, m)
  {
    if es != [] {
      var k := |es| - 1;
      NoRequestIsDropped(s, es[..k], m);
      AtMostOneOwed(s, es[..k]);
      if Pending(Run(s, es[..k]), m) && !Calls(Run(s, es[..k]), es[k], m) {
        PendingUntilCalled(Run(s, es[..k]), es[k], m);
      } else if Pending(Run(s, es[..k]), m) {
        assert Calls(Run(s, es[..k]), es[k], m);
      } else {
        var i :| 0 <= i < k && Calls(Run(s, es[..k][..i]), es[..k][i], m);
        assert es[..k][..i] == es[..i];
      }
    }
  }

  /** A request that is written is owed, although both times were cut to whole seconds. */
  lemma NewRequestIsOwed(s: State)
    requires Inv(s) && s.cluster.Chosen? && s.cluster.m in s.nodes && s.nodes[s.cluster.m].version == s.cluster.version
    ensures Pending(Step(s, Write(true)), s.cluster.m)
  {
  }

  /** A stamp that is written always clears the request it answers. */
  lemma StampClears(s: State, m: Id)
    requires Inv(s) && m in s.nodes && s.nodes[m].pc.Stamping? && s.nodes[m].pc.version == s.nodes[m].version
    ensures !Step(s, Stamp(m, true)).nodes[m].Owes()
  {
  }

  // ── Spacing ──────────────────────────────────────────────────────────────────

  /** No stamp is lost in this step. */
  ghost predicate Stamps(s: State, e: Event) {
    e.Stamp? && e.m in s.nodes && s.nodes[e.m].pc.Stamping? ==>
      e.delivered && s.nodes[e.m].version == s.nodes[e.m].pc.version
  }

  ghost predicate NodeSpaced(n: Node, clock: nat) {
    n.tried.Some? ==>
      && n.tried.value <= clock
      && (n.pc.Stamping? ==> n.pc.stamp >= Seconds(n.tried.value))
      && (!n.Owes() ==> n.last.Some? && n.last.value >= Seconds(n.tried.value))
      && (n.Owes() && (n.pc.Resting? || n.pc.Owing?) ==> clock - n.tried.value > COOLDOWN - NANOS)
  }

  ghost predicate Spaced(s: State) {
    Inv(s) && forall m :: m in s.nodes ==> NodeSpaced(s.nodes[m], s.clock)
  }

  /** A cooldown counted from the stored second is short by less than one second. */
  lemma CoolMeansSpaced(last: Option<nat>, now: nat, tried: nat)
    requires Cool(last, now) && last.Some? && last.value >= Seconds(tried)
    ensures now - tried > COOLDOWN - NANOS
  {
  }

  lemma MachineStepSpaced(s: State, m: Id, e: Event)
    requires m in s.nodes && NodeOk(s.nodes[m], s.clock) && NodeSpaced(s.nodes[m], s.clock)
    requires OnMachine(e) && e.m == m && Stamps(s, e)
    ensures NodeSpaced(MachineStep(s, m, s.nodes[m], e).nodes[m], s.clock)
  {
  }

  lemma StepKeepsSpaced(s: State, e: Event)
    requires Spaced(s) && Stamps(s, e)
    ensures Spaced(Step(s, e))
  {
    StepKeepsInv(s, e);
    if e.Write? {
      if s.cluster.Chosen? && s.cluster.m in s.nodes {
        var n := s.nodes[s.cluster.m];
        assert s.cluster.m !in s.Owing();
        if n.tried.Some? { CoolMeansSpaced(n.last, s.cluster.now, n.tried.value); }
      }
    } else if OnMachine(e) && e.m in s.nodes {
      MachineStepSpaced(s, e.m, e);
    }
  }

  ghost predicate NoStampLost(s: State, es: seq<Event>) {
    es == [] || (NoStampLost(s, es[..|es| - 1]) && Stamps(Run(s, es[..|es| - 1]), es[|es| - 1]))
  }

  /** On runs where no stamp is lost, a machine that is about to be called again was called before that
      only more than the cooldown, less one second, ago. */
  lemma {:induction false} CallsAreSpaced(s: State, es: seq<Event>, m: Id)
    requires Spaced(s) && NoStampLost(s, es)
    ensures Spaced(Run(s, es))
    ensures
      var s' := Run(s, es);
      Calls(s', Call(m, true), m) && s'.nodes[m].tried.Some? ==> s'.clock - s'.nodes[m].tried.value > 599_000_000_000
  {
    if es != [] {
      CallsAreSpaced(s, es[..|es| - 1], m);
      StepKeepsSpaced(Run(s, es[..|es| - 1]), es[|es| - 1]);
    }
  }

  /** `m` was called at `c` and stamped `v`; until it is called again a request for it is not owed before
      the cooldown, counted from the stamp, is over. */
  ghost predicate SinceCall(s: State, m: Id, c: nat, v: nat) {
    && Inv(s) && m in s.nodes && Seconds(c) <= v && c <= s.clock
    && var n := s.nodes[m];
       || (n.tried.Some? && c < n.tried.value <= s.clock)
       || (n.tried == Some(c) && n.last == Some(v) && (n.pc.Resting? || n.pc.Owing?)
           && (n.Owes() ==> s.clock - v * NANOS >= COOLDOWN))
  }

  /** The controller of `m` itself, and the writers of its object. */
  lemma OwnStepKeepsSinceCall(s: State, e: Event, m: Id, c: nat, v: nat)
    requires SinceCall(s, m, c, v) && OnMachine(e) && e.m == m
    ensures SinceCall(Step(s, e), m, c, v)
  {
    StepKeepsInv(s, e);
    assert Step(s, e).clock == s.clock && m in Step(s, e).nodes;
  }

  lemma StepKeepsSinceCall(s: State, e: Event, m: Id, c: nat, v: nat)
    requires SinceCall(s, m, c, v) && e != Leave(m)
    ensures SinceCall(Step(s, e), m, c, v)
  {
    if OnMachine(e) && e.m == m {
      OwnStepKeepsSinceCall(s, e, m, c, v);
    } else {
      StepKeepsInv(s, e);
    }
  }

  lemma {:induction false} RunKeepsSinceCall(s: State, es: seq<Event>, m: Id, c: nat, v: nat)
    requires SinceCall(s, m, c, v) && Leave(m) !in es
    ensures SinceCall(Run(s, es), m, c, v)
  {
    if es != [] {
      RunKeepsSinceCall(s, es[..|es| - 1], m, c, v);
      StepKeepsSinceCall(Run(s, es[..|es| - 1]), es[|es| - 1], m, c, v);
    }
  }

  /** `m`, last called at `c`, is about to be called again before the cooldown is over. */
  ghost predicate EarlyCall(s: State, m: Id, c: nat) {
    m in s.nodes && s.nodes[m].pc.Owing? && s.nodes[m].tried == Some(c) && s.clock - c < 600_000_000_000
  }

  ghost predicate CanCallEarly(s: State, m: Id, c: nat) {
    exists es :: Leave(m) !in es && EarlyCall(Run(s, es), m, c)
  }

  lemma EarlyBefore(s: State, e: Event, m: Id, c: nat)
    requires e != Leave(m) && CanCallEarly(Step(s, e), m, c)
    ensures CanCallEarly(s, m, c)
  {
    var es :| Leave(m) !in es && EarlyCall(Run(Step(s, e), es), m, c);
    RunFrom(s, e, es);
    assert Leave(m) !in [e] + es;
  }

  /** The machine as its stamp left it, while the cooldown counted from the stamp is not over. */
  ghost predicate Stamped(s: State, m: Id, c: nat, v: nat) {
    && Inv(s) && m in s.nodes && !s.nodes[m].Owes()
    && s.nodes[m].tried == Some(c) && s.nodes[m].last == Some(v) && s.clock <= v * NANOS + COOLDOWN
  }

  /** It is requested at the very end of that cooldown. */
  lemma EarlyFromQuiet(s: State, m: Id, c: nat, v: nat)
    requires Stamped(s, m, c, v) && v * NANOS < c && s.cluster.Idle? && s.Owing() == {} && s.down == {}
    ensures CanCallEarly(s, m, c)
  {
    var s1 := Step(s, Tick(v * NANOS + COOLDOWN - s.clock));
    var s2 := Step(s1, HealthRead({m}));
    assert s2.Owing() == s.Owing();
    var s3 := Step(s2, List(m));
    CoolMeansNewer(Some(v), s3.clock);
    var s4 := Step(s3, Write(true));
    var s5 := Step(s4, Read(m));
    assert Run(s5, []) == s5 && EarlyCall(s5, m, c);
    EarlyBefore(s4, Read(m), m, c);
    EarlyBefore(s3, Write(true), m, c);
    EarlyBefore(s2, List(m), m, c);
    EarlyBefore(s1, HealthRead({m}), m, c);
    EarlyBefore(s, Tick(v * NANOS + COOLDOWN - s.clock), m, c);
  }

  /** The machines that are down come back first. */
  lemma {:induction false} EarlyWhileDown(s: State, m: Id, c: nat, v: nat)
    requires Stamped(s, m, c, v) && v * NANOS < c && s.cluster.Idle? && s.Owing() == {}
    ensures CanCallEarly(s, m, c)
    decreases s.down
  {
    if s.down == {} {
      EarlyFromQuiet(s, m, c, v);
    } else {
      var x :| x in s.down;
      assert Step(s, Rejoin(x)).Owing() == s.Owing();
      EarlyWhileDown(Step(s, Rejoin(x)), m, c, v);
      EarlyBefore(s, Rejoin(x), m, c);
    }
  }

  function PcRank(pc: MachinePc): nat {
    match pc case Resting => 0 case Stamping(_, _) => 1 case Calling(_) => 2 case Owing(_) => 3
  }

  /** A machine that is owed first leaves, when its controller has come to rest. */
  lemma {:induction false} EarlyWhileOwing(s: State, m: Id, c: nat, v: nat, x: Id)
    requires Stamped(s, m, c, v) && v * NANOS < c && s.cluster.Idle? && x in s.Owing()
    ensures CanCallEarly(s, m, c)
    decreases PcRank(s.nodes[x].pc)
  {
    var e :=
      match s.nodes[x].pc
      case Resting => Leave(x)
      case Owing(_) => Call(x, false)
      case Calling(_) => Return(x)
      case Stamping(_, _) => Stamp(x, false);
    StepKeepsInv(s, e);
    if e.Leave? {
      forall y | y in s.Owing() ensures y == x {
      }
      assert Step(s, e).Owing() == s.Owing() - {x};
      EarlyWhileDown(Step(s, e), m, c, v);
    } else {
      EarlyWhileOwing(Step(s, e), m, c, v, x);
    }
    EarlyBefore(s, e, m, c);
  }

  lemma EarlyFromAny(s: State, m: Id, c: nat, v: nat)
    requires Stamped(s, m, c, v) && v * NANOS < c
    ensures CanCallEarly(s, m, c)
  {
    var s1 := Step(s, List(m));
    var s2 := Step(s1, Write(false));
    StepKeepsInv(s, List(m));
    StepKeepsInv(s1, Write(false));
    if x :| x in s2.Owing() {
      EarlyWhileOwing(s2, m, c, v, x);
    } else {
      EarlyWhileDown(s2, m, c, v);
    }
    EarlyBefore(s1, Write(false), m, c);
    EarlyBefore(s, List(m), m, c);
  }

  /** The cooldown exactly: after a call at `c` that was stamped `v`, the machine can be called again
      less than the cooldown later if and only if the stamp, cut to the second, lies before the call.
      It holds for calls at the full second, and where the call returned in a later second. */
  lemma CooldownFailsIff(s: State, m: Id, c: nat, v: nat)
    requires Stamped(s, m, c, v) && c <= s.clock && Seconds(c) <= v
    ensures CanCallEarly(s, m, c) <==> v * NANOS < c
  {
    if v * NANOS < c {
      EarlyFromAny(s, m, c, v);
    } else {
      assert SinceCall(s, m, c, v);
      forall es | Leave(m) !in es ensures !EarlyCall(Run(s, es), m, c) { RunKeepsSinceCall(s, es, m, c, v); }
    }
  }

  /** Before the first request everything these results start from holds. */
  lemma StartIsGood(s: State)
    requires s.cluster.Idle? && s.down == {}
    requires forall m :: m in s.nodes ==>
      && s.nodes[m].requested.None? && s.nodes[m].pc.Resting? && s.nodes[m].tried.None?
      && (s.nodes[m].last.Some? ==> s.nodes[m].last.value <= Seconds(s.clock))
    ensures TwoBusy(s) && OneBusy(s, false) && Spaced(s)
  {
    assert s.Busy() == {};
  }

  /** One machine alone, at the moment its controller is about to call it. */
  function AboutToCall(m: Id, n: Node, clock: nat): State {
    State(clock, map[m := n.(requested := Some(Seconds(clock)), version := n.version + 1, answered := false,
                             pc := Owing(n.version + 1))], Idle, {})
  }

  lemma Extend(s: State, es: seq<Event>, e: Event)
    ensures Run(s, es + [e]) == Step(Run(s, es), e)
  {
  }

  /** Some run on which no stamp is lost leads from one state to the other. */
  ghost predicate Reaches(s: State, t: State) {
    exists es :: NoStampLost(s, es) && Run(s, es) == t
  }

  lemma Here(s: State)
    ensures Reaches(s, s)
  {
    assert NoStampLost(s, []) && Run(s, []) == s;
  }

  lemma Onward(s: State, t: State, e: Event)
    requires Reaches(s, t) && Stamps(t, e)
    ensures Reaches(s, Step(t, e))
  {
    var es :| NoStampLost(s, es) && Run(s, es) == t;
    Extend(s, es, e);
    assert (es + [e])[..|es|] == es;
    assert NoStampLost(s, es + [e]);
  }

  /** One machine alone, and nothing going on in the cluster. */
  function Alone(m: Id, n: Node, clock: nat): State {
    State(clock, map[m := n], Idle, {})
  }

  lemma ChoiceRuns(s: State, m: Id, n: Node, clock: nat)
    requires Reaches(s, Alone(m, n, clock)) && !n.Owes() && Cool(n.last, clock)
    ensures Reaches(s, Alone(m, n, clock).(cluster := Chosen(m, n.version, clock)))
  {
    var t := Alone(m, n, clock);
    var t1 := t.(cluster := Checked({m}));
    assert Step(t, HealthRead({m})) == t1 && t1.Owing() == {};
    Onward(s, t, HealthRead({m}));
    assert Step(t1, List(m)) == t.(cluster := Chosen(m, n.version, clock));
    Onward(s, t1, List(m));
  }

  /** A whole request, from the health check to the call. */
  lemma RequestRuns(s: State, m: Id, n: Node, clock: nat)
    requires Reaches(s, Alone(m, n, clock)) && n.pc.Resting? && !n.Owes() && Cool(n.last, clock)
    ensures Reaches(s, AboutToCall(m, n, clock))
  {
    CoolMeansNewer(n.last, clock);
    ChoiceRuns(s, m, n, clock);
    var t := Alone(m, n, clock).(cluster := Chosen(m, n.version, clock));
    var requested := n.(requested := Some(Seconds(clock)), version := n.version + 1, answered := false);
    assert Step(t, Write(true)) == Alone(m, requested, clock);
    Onward(s, t, Write(true));
    assert Step(Alone(m, requested, clock), Read(m)) == AboutToCall(m, n, clock);
    Onward(s, Alone(m, requested, clock), Read(m));
  }

  /** The second is really lost: a machine called at the very end of a second is stamped with its
      start, and may be called again one nanosecond after the cooldown less one second. */
  lemma SpacingIsTight(s: State, m: Id, n: Node) returns (t: State)
    requires n == NewNode(0) && s == Alone(m, n, NANOS - 1)
    ensures Reaches(s, t) && Calls(t, Call(m, true), m) && t.nodes[m].tried.Some?
    ensures t.clock - t.nodes[m].tried.value == 599_000_000_001
  {
    Here(s);
    RequestRuns(s, m, n, NANOS - 1);
    var n' := CalledAndStamped(s, m, n, NANOS - 1, COOLDOWN - NANOS + 1);
    RequestRuns(s, m, n', COOLDOWN);
    t := AboutToCall(m, n', COOLDOWN);
  }

  lemma CallRuns(s: State, m: Id, n: Node, clock: nat) returns (n': Node)
    requires Reaches(s, Alone(m, n, clock)) && n.pc.Owing?
    ensures n' == n.(pc := Stamping(n.pc.version, Seconds(clock)), answered := true, tried := Some(clock))
    ensures Reaches(s, Alone(m, n', clock).(down := {m}))
  {
    var t, n1 := Alone(m, n, clock), n.(pc := Calling(n.pc.version), answered := true, tried := Some(clock));
    assert Step(t, Call(m, true)) == Alone(m, n1, clock).(down := {m});
    Onward(s, t, Call(m, true));
    n' := n1.(pc := Stamping(n.pc.version, Seconds(clock)));
    assert Step(Alone(m, n1, clock).(down := {m}), Return(m)) == Alone(m, n', clock).(down := {m});
    Onward(s, Alone(m, n1, clock).(down := {m}), Return(m));
  }

  lemma StampRuns(s: State, m: Id, n: Node, clock: nat) returns (n': Node)
    requires Reaches(s, Alone(m, n, clock).(down := {m})) && n.pc.Stamping? && n.pc.version == n.version
    ensures n' == n.(last := Some(n.pc.stamp), version := n.version + 1, pc := Resting)
    ensures Reaches(s, Alone(m, n', clock))
  {
    var t := Alone(m, n, clock).(down := {m});
    n' := n.(last := Some(n.pc.stamp), version := n.version + 1, pc := Resting);
    assert Step(t, Stamp(m, true)) == Alone(m, n', clock).(down := {m});
    Onward(s, t, Stamp(m, true));
    assert Step(Alone(m, n', clock).(down := {m}), Rejoin(m)) == Alone(m, n', clock);
    Onward(s, Alone(m, n', clock).(down := {m}), Rejoin(m));
  }

  /** The call, its stamp and the machine's return, and a while after that. */
  lemma CalledAndStamped(s: State, m: Id, n: Node, clock: nat, wait: nat) returns (n': Node)
    requires Reaches(s, AboutToCall(m, n, clock)) && Owed(Some(Seconds(clock)), n.last)
    ensures Reaches(s, Alone(m, n', clock + wait))
    ensures n'.pc.Resting? && !n'.Owes() && n'.last == Some(Seconds(clock)) && n'.tried == Some(clock)
  {
    var n1 := AboutToCall(m, n, clock).nodes[m];
    assert AboutToCall(m, n, clock) == Alone(m, n1, clock);
    var n2 := CallRuns(s, m, n1, clock);
    n' := StampRuns(s, m, n2, clock);
    assert Step(Alone(m, n', clock), Tick(wait)) == Alone(m, n', clock + wait);
    Onward(s, Alone(m, n', clock), Tick(wait));
  }

  /** Where a stamp is lost, the machine is called again at once. */
  lemma LostStampRepeats(s: State, m: Id)
    requires m in s.nodes && s.nodes[m].pc.Owing? && s.nodes[m].Owes()
    ensures
      var s' := Step(Step(Step(Step(s, Call(m, true)), Return(m)), Stamp(m, false)), Read(m));
      Calls(s', Call(m, true), m) && s'.nodes[m].tried == Some(s'.clock)
  {
  }

  /** The condition of TwoDownIff is met on a run from a start where nothing was ever requested. */
  lemma TwoDownIsReachable(s: State, a: Id, b: Id) returns (t: State)
    requires a != b && s == State(0, map[a := NewNode(0), b := NewNode(0)], Idle, {})
    ensures Reaches(s, t) && Inv(t) && t.cluster.Idle? && t.down == {} && t.Owing() == {a}
    ensures CanTakeTwoDown(Step(t, HealthRead({b})))
  {
    Here(s);
    StartIsGood(s);
    var t1 := s.(cluster := Checked({a}));
    assert s.Owing() == {} && Step(s, HealthRead({a})) == t1 && t1.Owing() == {};
    Onward(s, s, HealthRead({a}));
    var t2 := s.(cluster := Chosen(a, 0, 0));
    assert Step(t1, List(a)) == t2;
    Onward(s, t1, List(a));
    t := Step(t2, Write(true));
    Onward(s, t2, Write(true));
    StepKeepsInv(s, HealthRead({a}));
    StepKeepsInv(t1, List(a));
    StepKeepsInv(t2, Write(true));
    assert t.nodes[b] == NewNode(0) && t.Owing() == {a};
    TwoDownIff(t, {b});
  }
}
