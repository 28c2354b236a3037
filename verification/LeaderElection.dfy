/** The node object's copy of the lease and the retry loop that creates or renews the lease. */
module LeaderElection {
  import opened Wrappers
  import opened Lease

  /** What the server and the clock answer in one round of the loop. */
  datatype Round = Round(read: GetResult, readAt: Time, created: bool, stampAt: Time, patch: PatchResult)

  /** What the loop sends to the server. */
  datatype Call = CreateLease(lease: LeaseSpec) | PatchLease(got: LeaseSpec, wanted: LeaseSpec)

  // ---------------------------------------------------------------- the loop, read off its rounds

  /** A round that reads the lease or creates it; the copy is taken from it. */
  predicate Answers(round: Round) {
    round.read.Found? || (round.read.NotFound? && round.created)
  }

  function CopyOf(me: Client, round: Round): LeaseSpec
    requires Answers(round)
  {
    if round.read.Found? then round.read.lease else LeaseSpec(me, round.readAt)
  }

  /** A round that reads a lease of this controller not yet expired, which it renews. */
  predicate Renews(me: Client, round: Round) {
    && round.read.Found? && me != "" && round.read.lease.holder == me
    && round.readAt <= round.read.lease.renew + LEASE_DURATION
  }

  /** A read, a create or a renewal failed. */
  predicate Fails(me: Client, round: Round) {
    || round.read.GetFailed?
    || (round.read.NotFound? && !round.created)
    || (Renews(me, round) && round.patch.PatchFailed?)
  }

  /** The rounds the loop goes through: another one after each that failed, and five at most. */
  predicate Used(me: Client, rounds: seq<Round>, n: nat) {
    && 1 <= n <= |rounds| && n <= MAX_RETRY_TIMES
    && (forall i :: 0 <= i < n - 1 ==> Fails(me, rounds[i]))
    && (n == MAX_RETRY_TIMES || !Fails(me, rounds[n - 1]))
  }

  /** The copy after some rounds: that of the last one which answered, else the one before. */
  predicate KeepsLast(me: Client, before: Option<LeaseSpec>, rounds: seq<Round>, after: Option<LeaseSpec>) {
    || (after == before && forall i :: 0 <= i < |rounds| ==> !Answers(rounds[i]))
    || (exists k | 0 <= k < |rounds| ::
          && Answers(rounds[k]) && after == Some(CopyOf(me, rounds[k]))
          && forall i :: k < i < |rounds| ==> !Answers(rounds[i]))
  }

  /** A lease that is missing is created with the instant of the read, an own unexpired one gets a new instant. */
  function CallsOf(me: Client, round: Round): seq<Call> {
    if round.read.NotFound? then [CreateLease(LeaseSpec(me, round.readAt))]
    else if Renews(me, round) then [PatchLease(round.read.lease, LeaseSpec(me, round.stampAt))]
    else []
  }

  function AllCalls(me: Client, rounds: seq<Round>): seq<Call> {
    if rounds == [] then []
    else
      var n := |rounds| - 1;
      AllCalls(me, rounds[..n]) + CallsOf(me, rounds[n])
  }

  lemma OneMoreRound(me: Client, before: Option<LeaseSpec>, rounds: seq<Round>, n: nat, copy: Option<LeaseSpec>)
    requires n < |rounds| && KeepsLast(me, before, rounds[..n], copy)
    ensures AllCalls(me, rounds[..n + 1]) == AllCalls(me, rounds[..n]) + CallsOf(me, rounds[n])
    ensures KeepsLast(me, before, rounds[..n + 1], if Answers(rounds[n]) then Some(CopyOf(me, rounds[n])) else copy)
  {
    var more := rounds[..n + 1];
    assert more[..n] == rounds[..n] && more[n] == rounds[n];
    assert forall i :: 0 <= i < n ==> more[i] == rounds[..n][i];
  }

  lemma LeadsAfterCreate(me: Client, readAt: Time)
    ensures me != "" ==>
      forall now :: Leads(Some(LeaseSpec(me, readAt)), me, now) <==> now <= readAt + LEASE_DURATION
  {
  }

  lemma NoRoundYet(me: Client, before: Option<LeaseSpec>, rounds: seq<Round>)
    requires rounds == []
    ensures KeepsLast(me, before, rounds, before) && AllCalls(me, rounds) == []
  {
  }

  class VNode {
    var lease: Option<LeaseSpec>

    constructor ()
      ensures lease == None
    {
      lease := None;
    }

    method NewLease(holderIdentity: Client, now: Time) returns (r: LeaseSpec)
      ensures r == LeaseSpec(holderIdentity, now)
    {
      r := LeaseSpec(holderIdentity, now);
    }

    method SetLease(l: LeaseSpec)
      modifies `lease
      ensures lease == Some(l)
    {
      lease := Some(l);
    }

    method IsLeader(clientId: Client, now: Time) returns (r: bool)
      ensures r == Leads(lease, clientId, now)
      ensures r <==>
        && lease.Some? && lease.value.holder != "" && lease.value.holder == clientId
        && now <= lease.value.renew + 40_000_000
    {
      if lease.None? {
        return false;
      }
      if lease.value.holder == "" {
        return false;
      }
      if lease.value.holder != clientId {
        return false;
      }
      var expiredTime := lease.value.renew + LEASE_DURATION;
      if now > expiredTime {
        return false;
      }
      return true;
    }

    /**
     Up to five rounds of read, create or renew: another one after each that failed. The copy kept
     is the one of the last round that read or created the lease, and a round that created it makes
     its controller the leader for as long as a lease lasts.
     */
    method CreateOrRetryUpdateLease(me: Client, rounds: seq<Round>) returns (calls: seq<Call>, ghost used: nat)
      requires |rounds| == MAX_RETRY_TIMES
      modifies `lease
      ensures Local(lease, Idle) == Election(me, Local(old(lease), Getting(0)), rounds)
      ensures Used(me, rounds, used)
      ensures KeepsLast(me, old(lease), rounds[..used], lease)
      ensures calls == AllCalls(me, rounds[..used])
      ensures me != "" && rounds[used - 1].read.NotFound? && rounds[used - 1].created ==>
        forall now :: Leads(lease, me, now) <==> now <= rounds[used - 1].readAt + LEASE_DURATION
    {
      hide KeepsLast, AllCalls, Leads;
      ghost var goal := Election(me, Local(lease, Getting(0)), rounds);
      ghost var before := lease;
      calls, used := [], 0;
      NoRoundYet(me, before, rounds[..0]);
      var i := 0;
      while i < MAX_RETRY_TIMES
        invariant i == used <= MAX_RETRY_TIMES
        invariant goal == Election(me, Local(lease, if i < MAX_RETRY_TIMES then Getting(i) else Idle), rounds)
        invariant forall j :: 0 <= j < i ==> Fails(me, rounds[j])
        invariant KeepsLast(me, before, rounds[..i], lease)
        invariant calls == AllCalls(me, rounds[..i])
      {
        var round := rounds[i];
        OneMoreRound(me, before, rounds, i, lease);
        used := i + 1;
        var got;
        var created := false;
        match round.read {
          case GetFailed =>
            i := i + 1;
            continue;
          case NotFound =>
            got := NewLease(me, round.readAt);
            calls := calls + [CreateLease(got)];
            assert goal == Election(me, Local(lease, Creating(i, got)), rounds);
            if !round.created {
              i := i + 1;
              continue;
            }
            created := true;
          case Found(l) =>
            got := l;
        }
        SetLease(got);
        var isLeaderNow := IsLeader(me, round.readAt);
        if created || !isLeaderNow {
          assert goal == Election(me, Local(lease, Idle), rounds);
          LeadsAfterCreate(me, round.readAt);
          return;
        }
        assert goal == Election(me, Local(lease, Stamping(i, got)), rounds);
        var newLease := LeaseSpec(me, round.stampAt);
        calls := calls + [PatchLease(got, newLease)];
        assert goal == Election(me, Local(lease, Patching(i, got, newLease)), rounds);
        match round.patch {
          case Patched =>
            SetLease(got);
            assert goal == Election(me, Local(lease, Idle), rounds);
            return;
          case Cancelled =>
            assert goal == Election(me, Local(lease, Idle), rounds);
            return;
          case PatchFailed =>
        }
        i := i + 1;
      }
    }
  }

  /** The event a controller meets in a phase, by the answers of its round. */
  function EventOf(round: Round, phase: Phase): (Time, Event)
    requires !phase.Idle?
  {
    match phase
    case Getting(_) => (round.readAt, GetAnswer(round.read))
    case Creating(_, _) => (round.readAt, CreateAnswer(round.created))
    case Stamping(_, _) => (round.stampAt, Stamp)
    case Patching(_, _, _) => (round.stampAt, PatchAnswer(round.patch))
  }

  /** How far the loop is from its end. */
  function Remaining(phase: Phase): nat {
    if phase.Idle? || phase.try >= MAX_RETRY_TIMES then 0
    else 3 * (MAX_RETRY_TIMES - phase.try) - (if phase.Getting? then 0 else if phase.Patching? then 2 else 1)
  }

  /** Follow the protocol's own steps until the loop ends. */
  function Election(me: Client, l: Local, rounds: seq<Round>): (r: Local)
    requires |rounds| == MAX_RETRY_TIMES && (l.phase.Idle? || l.phase.try < MAX_RETRY_TIMES)
    ensures r.phase.Idle?
    decreases Remaining(l.phase)
  {
    if l.phase.Idle? then l
    else
      var (now, e) := EventOf(rounds[l.phase.try], l.phase);
      Election(me, Advance(me, l, now, e), rounds)
  }

  /** A lease the server had by the answers of these rounds: read from it or created in it. */
  predicate FromServer(rounds: seq<Round>, me: Client, lease: LeaseSpec) {
    exists i :: 0 <= i < |rounds| &&
      (rounds[i].read == Found(lease) ||
       (rounds[i].read.NotFound? && rounds[i].created && lease == LeaseSpec(me, rounds[i].readAt)))
  }

  ghost predicate Accountable(me: Client, l: Local, rounds: seq<Round>) {
    match l.phase
    case Creating(try, wanted) =>
      try < |rounds| && rounds[try].read.NotFound? && wanted == LeaseSpec(me, rounds[try].readAt)
    case Stamping(_, got) => FromServer(rounds, me, got) && l.lease == Some(got)
    case Patching(_, got, _) => FromServer(rounds, me, got) && l.lease == Some(got)
    case _ => true
  }

  /**
   The loop keeps the copy it had or ends with a lease the server had: the renew time it asks for
   in a patch is never the one it remembers.
   */
  lemma {:induction false} ElectionKeepsServerLease(me: Client, l: Local, rounds: seq<Round>)
    requires |rounds| == MAX_RETRY_TIMES && (l.phase.Idle? || l.phase.try < MAX_RETRY_TIMES)
    requires Accountable(me, l, rounds)
    ensures var r := Election(me, l, rounds);
      r.lease == l.lease || (r.lease.Some? && FromServer(rounds, me, r.lease.value))
    decreases Remaining(l.phase)
  {
    if !l.phase.Idle? {
      var round := rounds[l.phase.try];
      var (now, e) := EventOf(round, l.phase);
      var next := Advance(me, l, now, e);
      if round.read.Found? {
        assert FromServer(rounds, me, round.read.lease);
      }
      if round.read.NotFound? && round.created {
        assert FromServer(rounds, me, LeaseSpec(me, round.readAt));
      }
      ElectionKeepsServerLease(me, next, rounds);
    }
  }

  /** The steps a run takes for one controller are the ones these rounds answer; others are free. */
  predicate AnsweredBy(s: System, steps: seq<Step>, me: Client, rounds: seq<Round>)
    requires |rounds| == MAX_RETRY_TIMES && Admissible(s, steps)
    decreases |steps|
  {
    steps == [] ||
    (&& (steps[0].client == me ==>
           var phase := s.locals[me].phase;
           !phase.Idle? && phase.try < MAX_RETRY_TIMES &&
           (steps[0].now, steps[0].event) == EventOf(rounds[phase.try], phase))
     && AnsweredBy(Next(s, steps[0]), steps[1..], me, rounds))
  }

  /** However the other controllers interleave, a loop that ends in the protocol ends as the method does. */
  lemma {:induction false} LoopFollowsElection(s: System, steps: seq<Step>, me: Client, rounds: seq<Round>)
    requires |rounds| == MAX_RETRY_TIMES && Admissible(s, steps) && AnsweredBy(s, steps, me, rounds)
    requires me in s.locals && (s.locals[me].phase.Idle? || s.locals[me].phase.try < MAX_RETRY_TIMES)
    ensures me in Exec(s, steps).locals
    ensures Exec(s, steps).locals[me].phase.Idle? ==> Exec(s, steps).locals[me] == Election(me, s.locals[me], rounds)
    decreases |steps|
  {
    if steps != [] {
      var s' := Next(s, steps[0]);
      if steps[0].client == me {
        assert Election(me, s.locals[me], rounds) == Election(me, s'.locals[me], rounds);
      }
      LoopFollowsElection(s', steps[1..], me, rounds);
    }
  }
}
