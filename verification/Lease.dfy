/**
 One node's lease object in the API server and the controllers that compete for it. Each
 controller keeps a local copy and runs one election loop, which the server's answers drive. A
 read may return any version the lease ever had, or nothing; clocks are arbitrary unless a lemma
 says otherwise.
 */
module Lease {
  import opened Wrappers

  type Client = string
  type Time = int      // microseconds, as lease times are stored

  const LEASE_DURATION: Time := 40 * 1_000_000
  const MAX_RETRY_TIMES: nat := 5

  datatype LeaseSpec = LeaseSpec(holder: Client, renew: Time)

  /** Whether a controller with this local copy believes it is the leader. */
  predicate Leads(lease: Option<LeaseSpec>, me: Client, now: Time) {
    && lease.Some?
    && lease.value.holder != ""
    && lease.value.holder == me
    && now <= lease.value.renew + LEASE_DURATION
  }

  predicate Expired(lease: LeaseSpec, now: Time) {
    now > lease.renew + LEASE_DURATION
  }

  // ---------------------------------------------------------------- one election loop

  /** Where the election loop of a controller is; try counts the rounds before this one. */
  datatype Phase =
    | Idle
    | Getting(try: nat)
    | Creating(try: nat, wanted: LeaseSpec)
    | Stamping(try: nat, got: LeaseSpec)
    | Patching(try: nat, got: LeaseSpec, wanted: LeaseSpec)

  datatype Local = Local(lease: Option<LeaseSpec>, phase: Phase)

  datatype GetResult = Found(lease: LeaseSpec) | NotFound | GetFailed

  /** A patch succeeds, fails, or is cut off by the controller's context. */
  datatype PatchResult = Patched | PatchFailed | Cancelled

  datatype Event =
    | Begin
    | GetAnswer(read: GetResult)
    | CreateAnswer(created: bool)
    | Stamp
    | PatchAnswer(result: PatchResult)

  function NextTry(try: nat): Phase {
    if try + 1 < MAX_RETRY_TIMES then Getting(try + 1) else Idle
  }

  predicate Expects(phase: Phase, e: Event) {
    match e
    case Begin => phase.Idle?
    case GetAnswer(_) => phase.Getting?
    case CreateAnswer(_) => phase.Creating?
    case Stamp => phase.Stamping?
    case PatchAnswer(_) => phase.Patching?
  }

  /** What the controller does with one event at one instant of its clock. */
  function Advance(me: Client, l: Local, now: Time, e: Event): Local
    requires Expects(l.phase, e)
  {
    match e
    case Begin => l.(phase := Getting(0))
    case GetAnswer(GetFailed) => l.(phase := NextTry(l.phase.try))
    case GetAnswer(NotFound) => l.(phase := Creating(l.phase.try, LeaseSpec(me, now)))
    case GetAnswer(Found(lease)) =>
      Local(Some(lease), if Leads(Some(lease), me, now) then Stamping(l.phase.try, lease) else Idle)
    case CreateAnswer(created) =>
      if created then Local(Some(l.phase.wanted), Idle) else l.(phase := NextTry(l.phase.try))
    case Stamp => l.(phase := Patching(l.phase.try, l.phase.got, LeaseSpec(me, now)))
    case PatchAnswer(Patched) => Local(Some(l.phase.got), Idle)
    case PatchAnswer(PatchFailed) => l.(phase := NextTry(l.phase.try))
    case PatchAnswer(Cancelled) => l.(phase := Idle)
  }

  // ---------------------------------------------------------------- the controllers and the server

  datatype System = System(
    server: Option<LeaseSpec>,
    versions: set<LeaseSpec>,        // every version the lease has had
    locals: map<Client, Local>)

  /** One event of one controller; hidden tells whether a call that failed took effect all the same. */
  datatype Step = Step(client: Client, now: Time, event: Event, hidden: bool)

  function Initial(clients: set<Client>): System {
    System(None, {}, map c | c in clients :: Local(None, Idle))
  }

  /** The server's lease after a merge patch that turns got into wanted. */
  function MergePatch(current: LeaseSpec, got: LeaseSpec, wanted: LeaseSpec): LeaseSpec {
    LeaseSpec(if wanted.holder == got.holder then current.holder else wanted.holder,
              if wanted.renew == got.renew then current.renew else wanted.renew)
  }

  predicate Enabled(s: System, step: Step) {
    && step.client in s.locals && Expects(s.locals[step.client].phase, step.event)
    && match step.event
       case GetAnswer(Found(lease)) => lease in s.versions
       case CreateAnswer(created) => created || step.hidden ==> s.server.None?
       case PatchAnswer(result) => result == Patched || step.hidden ==> s.server.Some?
       case _ => true
  }

  /** What the server makes of a call. */
  function Serve(server: Option<LeaseSpec>, phase: Phase, step: Step): Option<LeaseSpec>
    requires Expects(phase, step.event)
    requires step.event.PatchAnswer? && (step.event.result == Patched || step.hidden) ==> server.Some?
  {
    match step.event
    case CreateAnswer(created) => if created || step.hidden then Some(phase.wanted) else server
    case PatchAnswer(result) =>
      if result == Patched || step.hidden then Some(MergePatch(server.value, phase.got, phase.wanted)) else server
    case _ => server
  }

  function Next(s: System, step: Step): System
    requires Enabled(s, step)
  {
    var l := s.locals[step.client];
    var server := Serve(s.server, l.phase, step);
    System(server,
           if server.Some? then s.versions + {server.value} else s.versions,
           s.locals[step.client := Advance(step.client, l, step.now, step.event)])
  }

  predicate Admissible(s: System, steps: seq<Step>)
    decreases |steps|
  {
    steps == [] || (Enabled(s, steps[0]) && Admissible(Next(s, steps[0]), steps[1..]))
  }

  function Exec(s: System, steps: seq<Step>): System
    requires Admissible(s, steps)
    decreases |steps|
  {
    if steps == [] then s else Exec(Next(s, steps[0]), steps[1..])
  }

  // ---------------------------------------------------------------- exclusion, whatever the clocks

  /** A controller's copies of the lease are versions of it, and it patches only a lease it holds. */
  ghost predicate CopiesAreVersions(s: System, c: Client)
    requires c in s.locals
  {
    var l := s.locals[c];
    && (l.lease.Some? ==> l.lease.value in s.versions)
    && (l.phase.Creating? ==> l.phase.wanted.holder == c)
    && (l.phase.Stamping? || l.phase.Patching? ==> l.phase.got in s.versions && l.phase.got.holder == c)
    && (l.phase.Patching? ==> l.phase.wanted.holder == c)
  }

  ghost predicate OneHolder(s: System) {
    && (s.server.None? ==> s.versions == {})
    && (s.server.Some? ==> s.server.value in s.versions)
    && (forall v :: v in s.versions ==> s.server.Some? && v.holder == s.server.value.holder)
    && (forall c :: c in s.locals ==> CopiesAreVersions(s, c))
  }

  lemma StepOneHolder(s: System, step: Step)
    requires OneHolder(s) && Enabled(s, step)
    ensures OneHolder(Next(s, step)) && s.versions <= Next(s, step).versions
    ensures s.server.Some? ==> Next(s, step).server.Some? && Next(s, step).server.value.holder == s.server.value.holder
  {
  }

  lemma {:induction false} AlwaysOneHolder(s: System, steps: seq<Step>)
    requires OneHolder(s) && Admissible(s, steps)
    ensures OneHolder(Exec(s, steps))
    ensures s.server.Some? ==>
      Exec(s, steps).server.Some? && Exec(s, steps).server.value.holder == s.server.value.holder
    decreases |steps|
  {
    if steps != [] {
      StepOneHolder(s, steps[0]);
      AlwaysOneHolder(Next(s, steps[0]), steps[1..]);
    }
  }

  /**
   Lease exclusion: in every run, at most one controller believes it is the leader, even when each
   looks at its own clock; it is the one that created the lease.
   */
  lemma AtMostOneLeads(clients: set<Client>, steps: seq<Step>, c: Client, d: Client, cNow: Time, dNow: Time)
    requires Admissible(Initial(clients), steps)
    requires var s := Exec(Initial(clients), steps); c in s.locals && d in s.locals
    ensures var s := Exec(Initial(clients), steps);
      && (Leads(s.locals[c].lease, c, cNow) ==> s.server.Some? && s.server.value.holder == c)
      && (Leads(s.locals[c].lease, c, cNow) && Leads(s.locals[d].lease, d, dNow) ==> c == d)
  {
    AlwaysOneHolder(Initial(clients), steps);
    assert CopiesAreVersions(Exec(Initial(clients), steps), c);
    assert CopiesAreVersions(Exec(Initial(clients), steps), d);
  }

  /** Once created, the lease keeps its holder for the rest of every run. */
  lemma HolderNeverChanges(clients: set<Client>, before: seq<Step>, after: seq<Step>)
    requires Admissible(Initial(clients), before) && Admissible(Exec(Initial(clients), before), after)
    requires Exec(Initial(clients), before).server.Some?
    ensures var s := Exec(Initial(clients), before);
      Exec(s, after).server.Some? && Exec(s, after).server.value.holder == s.server.value.holder
  {
    AlwaysOneHolder(Initial(clients), before);
    AlwaysOneHolder(Exec(Initial(clients), before), after);
  }

  // ---------------------------------------------------------------- what a controller gets done

  /**
   In every run, a controller that finds no lease, and whose create succeeds, is its holder in the
   server and leads for as long as a lease lasts.
   */
  lemma CreatorLeads(clients: set<Client>, steps: seq<Step>, c: Client, readAt: Time, createdAt: Time)
    requires Admissible(Initial(clients), steps)
    requires var s := Exec(Initial(clients), steps);
      c in s.locals && s.locals[c].phase.Getting? && s.server.None? && c != ""
    ensures var s := Exec(Initial(clients), steps);
      var read, create := Step(c, readAt, GetAnswer(NotFound), false), Step(c, createdAt, CreateAnswer(true), false);
      && Enabled(s, read) && Enabled(Next(s, read), create)
      && var s' := Next(Next(s, read), create);
         && s'.server == Some(LeaseSpec(c, readAt)) && s'.locals[c] == Local(s'.server, Idle)
         && forall now :: Leads(s'.locals[c].lease, c, now) <==> now <= readAt + LEASE_DURATION
  {
    hide Exec, Admissible;
  }

  /**
   In every run, the holder that reads its lease before that expires, and whose patch succeeds, has
   written the instant it took after the read, and keeps the copy it read.
   */
  lemma HolderRenews(clients: set<Client>, steps: seq<Step>, c: Client, readAt: Time, stampAt: Time)
    requires Admissible(Initial(clients), steps)
    requires var s := Exec(Initial(clients), steps);
      && c in s.locals && s.locals[c].phase.Getting? && c != ""
      && s.server.Some? && s.server.value.holder == c && readAt <= s.server.value.renew + LEASE_DURATION
    ensures var s := Exec(Initial(clients), steps);
      var read, stamp, patch := Step(c, readAt, GetAnswer(Found(s.server.value)), false),
          Step(c, stampAt, Stamp, false), Step(c, stampAt, PatchAnswer(Patched), false);
      && Enabled(s, read) && Enabled(Next(s, read), stamp) && Enabled(Next(Next(s, read), stamp), patch)
      && var s' := Next(Next(Next(s, read), stamp), patch);
         s'.server == Some(LeaseSpec(c, stampAt)) && s'.locals[c] == Local(s.server, Idle)
  {
    AlwaysOneHolder(Initial(clients), steps);
    hide Exec, Admissible;
  }

  // ---------------------------------------------------------------- one clock for everyone

  /** The steps are taken at instants of one clock that never runs backwards. */
  predicate OneClock(t: Time, steps: seq<Step>)
    decreases |steps|
  {
    steps == [] || (t <= steps[0].now && OneClock(steps[0].now, steps[1..]))
  }

  /** The last instant of a run. */
  function End(t: Time, steps: seq<Step>): Time
    decreases |steps|
  {
    if steps == [] then t else End(steps[0].now, steps[1..])
  }

  /** No instant in the lease or on its way to it is in the future, and none goes back. */
  ghost predicate Conservative(s: System, now: Time) {
    && (forall v :: v in s.versions ==> s.server.Some? && v.renew <= s.server.value.renew <= now)
    && (forall c :: c in s.locals && s.locals[c].phase.Creating? ==> s.locals[c].phase.wanted.renew <= now)
    && (forall c :: c in s.locals && s.locals[c].phase.Patching? ==>
          s.server.Some? ==> s.server.value.renew <= s.locals[c].phase.wanted.renew <= now)
  }

  lemma StepConservative(s: System, step: Step, before: Time)
    requires OneHolder(s) && Conservative(s, before) && before <= step.now && Enabled(s, step)
    ensures Conservative(Next(s, step), step.now)
    ensures s.server.Some? ==> Next(s, step).server.Some? && s.server.value.renew <= Next(s, step).server.value.renew
  {
    var s' := Next(s, step);
    assert CopiesAreVersions(s, step.client);
    forall c | c in s'.locals && s'.locals[c].phase.Patching?
      ensures s'.server.Some? ==> s'.server.value.renew <= s'.locals[c].phase.wanted.renew <= step.now {
      assert CopiesAreVersions(s, c);
    }
  }

  lemma {:induction false} AlwaysConservative(s: System, steps: seq<Step>, t: Time)
    requires OneHolder(s) && Conservative(s, t) && Admissible(s, steps) && OneClock(t, steps)
    ensures OneHolder(Exec(s, steps)) && Conservative(Exec(s, steps), End(t, steps))
    ensures s.server.Some? ==> Exec(s, steps).server.Some? && s.server.value.renew <= Exec(s, steps).server.value.renew
    decreases |steps|
  {
    if steps != [] {
      StepOneHolder(s, steps[0]);
      StepConservative(s, steps[0], t);
      AlwaysConservative(Next(s, steps[0]), steps[1..], steps[0].now);
    }
  }

  /**
   With one clock, belief is conservative: the local renew time never exceeds the server's, so a
   controller that believes it leads holds a lease that is unexpired in the server.
   */
  lemma LeadingImpliesServerUnexpired(clients: set<Client>, steps: seq<Step>, t: Time, c: Client, now: Time)
    requires Admissible(Initial(clients), steps) && OneClock(t, steps)
    requires c in Exec(Initial(clients), steps).locals
    ensures var s := Exec(Initial(clients), steps); var lease := s.locals[c].lease;
      && (lease.Some? ==> s.server.Some? && lease.value.renew <= s.server.value.renew)
      && (Leads(lease, c, now) ==> s.server.value.holder == c && now <= s.server.value.renew + LEASE_DURATION)
  {
    AlwaysConservative(Initial(clients), steps, t);
    assert CopiesAreVersions(Exec(Initial(clients), steps), c);
  }

  /** With one clock, the server's renew time never goes back. */
  lemma ServerRenewNeverDecreases(clients: set<Client>, before: seq<Step>, after: seq<Step>, t: Time)
    requires Admissible(Initial(clients), before) && OneClock(t, before)
    requires Admissible(Exec(Initial(clients), before), after) && OneClock(End(t, before), after)
    requires Exec(Initial(clients), before).server.Some?
    ensures var s := Exec(Initial(clients), before);
      Exec(s, after).server.Some? && s.server.value.renew <= Exec(s, after).server.value.renew
  {
    AlwaysConservative(Initial(clients), before, t);
    AlwaysConservative(Exec(Initial(clients), before), after, End(t, before));
  }

  // ---------------------------------------------------------------- an expired lease stays expired

  predicate Renewing(phase: Phase) {
    phase.Stamping? || phase.Patching?
  }

  ghost predicate Stuck(s: System, now: Time) {
    && s.server.Some? && Expired(s.server.value, now)
    && (forall c :: c in s.locals ==> !Renewing(s.locals[c].phase))
  }

  lemma {:induction false} StuckForever(s: System, steps: seq<Step>, t: Time)
    requires OneHolder(s) && Conservative(s, t) && Stuck(s, t) && Admissible(s, steps) && OneClock(t, steps)
    ensures Stuck(Exec(s, steps), End(t, steps)) && Exec(s, steps).server == s.server
    decreases |steps|
  {
    if steps != [] {
      StepOneHolder(s, steps[0]);
      StepConservative(s, steps[0], t);
      StuckForever(Next(s, steps[0]), steps[1..], steps[0].now);
    }
  }

  /**
   With one clock, a lease that expires while nobody is renewing it is never recovered: from then
   on no run changes it and no controller, its holder included, leads again.
   */
  lemma ExpiredLeaseIsNeverRecovered(clients: set<Client>, before: seq<Step>, after: seq<Step>, t: Time, c: Client,
      now: Time)
    requires Admissible(Initial(clients), before) && OneClock(t, before)
    requires var s := Exec(Initial(clients), before);
      && s.server.Some? && now > s.server.value.renew + LEASE_DURATION && End(t, before) <= now
      && (forall d :: d in s.locals ==> !Renewing(s.locals[d].phase))
      && Admissible(s, after) && OneClock(now, after)
    ensures var s := Exec(Initial(clients), before); var s' := Exec(s, after);
      && s'.server == s.server
      && (c in s'.locals ==> !Leads(s'.locals[c].lease, c, End(now, after)))
  {
    AlwaysConservative(Initial(clients), before, t);
    var s := Exec(Initial(clients), before);
    StuckForever(s, after, now);
    AlwaysConservative(s, after, now);
    if c in Exec(s, after).locals {
      assert CopiesAreVersions(Exec(s, after), c);
    }
  }

  /** A controller that is past its check writes the current instant, whatever has expired. */
  lemma RenewalUnderWayRecovers(s: System, c: Client, now: Time)
    requires OneHolder(s) && c in s.locals && s.locals[c].phase.Stamping? && now != s.locals[c].phase.got.renew
    ensures var stamp, patch := Step(c, now, Stamp, false), Step(c, now, PatchAnswer(Patched), false);
      && Enabled(s, stamp) && Enabled(Next(s, stamp), patch)
      && Next(Next(s, stamp), patch).server == Some(LeaseSpec(c, now))
  {
    assert CopiesAreVersions(s, c);
  }

  // ---------------------------------------------------------------- when an expired lease can be recovered

  /** A renewal is on its way whose instant is not expired now, or is yet to be taken. */
  predicate CanRecover(phase: Phase, now: Time) {
    phase.Stamping? || (phase.Patching? && !Expired(phase.wanted, now))
  }

  ghost predicate Lost(s: System, now: Time) {
    && s.server.Some? && Expired(s.server.value, now)
    && (forall c :: c in s.locals ==> !CanRecover(s.locals[c].phase, now))
  }

  lemma StepStaysLost(s: System, step: Step, before: Time)
    requires OneHolder(s) && Conservative(s, before) && Lost(s, before) && before <= step.now && Enabled(s, step)
    ensures Lost(Next(s, step), step.now)
  {
    assert CopiesAreVersions(s, step.client);
  }

  lemma {:induction false} LostForever(s: System, steps: seq<Step>, t: Time)
    requires OneHolder(s) && Conservative(s, t) && Lost(s, t) && Admissible(s, steps) && OneClock(t, steps)
    ensures Lost(Exec(s, steps), End(t, steps))
    decreases |steps|
  {
    hide OneHolder, Conservative, Lost;
    if steps != [] {
      StepOneHolder(s, steps[0]);
      StepConservative(s, steps[0], t);
      StepStaysLost(s, steps[0], t);
      LostForever(Next(s, steps[0]), steps[1..], steps[0].now);
    }
  }

  ghost predicate Recovers(s: System, steps: seq<Step>, now: Time) {
    && Admissible(s, steps) && OneClock(now, steps)
    && Exec(s, steps).server.Some? && !Expired(Exec(s, steps).server.value, End(now, steps))
  }

  /** Let the controller take its instant, if it has yet to, and have its patch succeed. */
  lemma RenewalRecovers(s: System, c: Client, now: Time) returns (steps: seq<Step>)
    requires OneHolder(s) && Conservative(s, now) && s.server.Some? && Expired(s.server.value, now)
    requires c in s.locals && CanRecover(s.locals[c].phase, now)
    ensures |steps| <= 2 && Recovers(s, steps, now)
  {
    var stamp, patch := Step(c, now, Stamp, false), Step(c, now, PatchAnswer(Patched), false);
    assert CopiesAreVersions(s, c);
    if s.locals[c].phase.Patching? {
      steps := [patch];
      assert Exec(s, steps) == Next(s, patch);
    } else {
      RenewalUnderWayRecovers(s, c, now);
      var s1 := Next(s, stamp);
      assert Exec(s1, [patch]) == Next(s1, patch);
      steps := [stamp, patch];
      assert steps[1..] == [patch];
      assert Exec(s, steps) == Next(s1, patch);
      assert End(now, steps) == End(now, [patch]) == now;
    }
  }

  /**
   With one clock, an expired lease can be recovered by some continuation exactly if a controller
   is past its own check and has yet to take its instant, or is patching in one that is not expired.
   */
  lemma ExpiredLeaseRecoversIff(clients: set<Client>, before: seq<Step>, t: Time, now: Time)
    requires Admissible(Initial(clients), before) && OneClock(t, before) && End(t, before) <= now
    requires var s := Exec(Initial(clients), before); s.server.Some? && now > s.server.value.renew + LEASE_DURATION
    ensures var s := Exec(Initial(clients), before);
      (exists after :: Recovers(s, after, now)) <==> (exists c :: c in s.locals && CanRecover(s.locals[c].phase, now))
  {
    AlwaysConservative(Initial(clients), before, t);
    var s := Exec(Initial(clients), before);
    assert Expired(s.server.value, now);
    hide OneHolder, Expired, CanRecover, Exec, Admissible;
    LaterIsConservative(s, End(t, before), now);
    if c :| c in s.locals && CanRecover(s.locals[c].phase, now) {
      var after := RenewalRecovers(s, c, now);
    } else {
      forall after | Recovers(s, after, now) ensures false {
        LostForever(s, after, now);
      }
    }
  }

  lemma LaterIsConservative(s: System, t: Time, now: Time)
    requires Conservative(s, t) && t <= now
    ensures Conservative(s, now)
  {
  }
}
