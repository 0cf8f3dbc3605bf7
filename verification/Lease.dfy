/** The single-active lease of an account and its fencing token. */
module Lease {
  import opened Prelude

  type Instance = nat

  /** The lease row. An account without a row has never been leased. */
  datatype LeaseRecord =
    | NoRecord
    | LeaseRecord(owner: Option<Instance>, expiresAt: Option<Time>, heartbeatAt: Time, token: nat)

  /** What the row says about one instance at one time. */
  predicate HeldBy(l: LeaseRecord, i: Instance, at: Time) {
    l.LeaseRecord? && l.owner == Some(i) && l.expiresAt.Some? && l.expiresAt.value > at
  }

  predicate Expired(l: LeaseRecord, at: Time) {
    l.LeaseRecord? && (l.expiresAt.None? || l.expiresAt.value <= at)
  }

  function Token(l: LeaseRecord): nat { if l.NoRecord? then 0 else l.token }

  datatype Message =
    | Acquired
    | Renewed
    | TakenOver
    | TakenOverStaleLocalOwner
    | HeldByOther
    | HeartbeatAccepted
    | HeartbeatRejected
    | Released
    | ReleaseSkipped
    | TokenMismatch
    | NotHeldByInstance
    | ValidForSubmission

  /** One call on the store. staleOwner tells whether the owner is a dead process of this host. */
  datatype LeaseStep =
    | Acquire(who: Instance, ttl: Time, staleOwner: bool, at: Time)
    | Heartbeat(who: Instance, token: nat, ttl: Time, at: Time)
    | ReleaseLease(who: Instance, ifToken: Option<nat>, at: Time)

  function Takes(l: LeaseRecord, i: Instance, until: Time, at: Time): LeaseRecord {
    LeaseRecord(Some(i), Some(until), at, Token(l) + 1)
  }

  function Next(l: LeaseRecord, s: LeaseStep): (LeaseRecord, Message) {
    match s
    case Acquire(i, ttl, stale, at) =>
      if l.NoRecord? then (Takes(l, i, at + ttl, at), Acquired)
      else if HeldBy(l, i, at) then (l.(expiresAt := Some(at + ttl), heartbeatAt := at), Renewed)
      else if Expired(l, at) || l.owner.None? then (Takes(l, i, at + ttl, at), TakenOver)
      else if stale then (Takes(l, i, at + ttl, at), TakenOverStaleLocalOwner)
      else (l, HeldByOther)
    case Heartbeat(i, token, ttl, at) =>
      if HeldBy(l, i, at) && l.token == token
      then (l.(expiresAt := Some(at + ttl), heartbeatAt := at), HeartbeatAccepted)
      else (l, HeartbeatRejected)
    case ReleaseLease(i, token, at) =>
      if l.LeaseRecord? && l.owner == Some(i) && (token.None? || token.value == l.token)
      then (l.(owner := None, expiresAt := Some(at), heartbeatAt := at), Released)
      else (l, ReleaseSkipped)
  }

  /** What a submission guard, an instance and the token it was given, is answered. */
  function Validate(l: LeaseRecord, i: Instance, token: nat, at: Time): Message {
    if l.NoRecord? || l.token != token then TokenMismatch
    else if !HeldBy(l, i, at) then NotHeldByInstance
    else ValidForSubmission
  }

  // ------------------------------------------------------------------- the store

  /** The lease row as the store keeps it: a present flag and fields assigned in place. */
  class LeaseStore {
    var present: bool
    var owner: Option<Instance>
    var expiresAt: Option<Time>
    var heartbeatAt: Time
    var token: nat

    function View(): LeaseRecord
      reads this
    {
      if present then LeaseRecord(owner, expiresAt, heartbeatAt, token) else NoRecord
    }

    constructor ()
      ensures View() == NoRecord
    {
      present, owner, expiresAt, heartbeatAt, token := false, None, None, 0, 0;
    }

    method AcquireLease(who: Instance, ttl: Time, staleOwner: bool, at: Time) returns (message: Message)
      modifies this
      ensures (View(), message) == Next(old(View()), Acquire(who, ttl, staleOwner, at))
    {
      if !present {
        present, owner, expiresAt, heartbeatAt, token := true, Some(who), Some(at + ttl), at, 1;
        return Acquired;
      }
      if owner == Some(who) && expiresAt.Some? && expiresAt.value > at {
        expiresAt, heartbeatAt := Some(at + ttl), at;
        return Renewed;
      }
      var free := expiresAt.None? || expiresAt.value <= at || owner.None?;
      if free || staleOwner {
        owner, expiresAt, heartbeatAt, token := Some(who), Some(at + ttl), at, token + 1;
        return if free then TakenOver else TakenOverStaleLocalOwner;
      }
      return HeldByOther;
    }

    method HeartbeatLease(who: Instance, guard: nat, ttl: Time, at: Time) returns (message: Message)
      modifies this
      ensures (View(), message) == Next(old(View()), Heartbeat(who, guard, ttl, at))
    {
      if present && owner == Some(who) && token == guard && expiresAt.Some? && expiresAt.value > at {
        expiresAt, heartbeatAt := Some(at + ttl), at;
        return HeartbeatAccepted;
      }
      return HeartbeatRejected;
    }

    method Release(who: Instance, guard: Option<nat>, at: Time) returns (message: Message)
      modifies this
      ensures (View(), message) == Next(old(View()), ReleaseLease(who, guard, at))
    {
      if present && owner == Some(who) && (guard.None? || guard.value == token) {
        owner, expiresAt, heartbeatAt := None, Some(at), at;
        return Released;
      }
      return ReleaseSkipped;
    }

    method ValidateSubmission(who: Instance, guard: nat, at: Time) returns (message: Message)
      ensures message == Validate(View(), who, guard, at)
    {
      if !present || token != guard {
        return TokenMismatch;
      }
      if owner == Some(who) && expiresAt.Some? && expiresAt.value > at {
        return ValidForSubmission;
      }
      return NotHeldByInstance;
    }
  }

  // ------------------------------------------------------------------------ runs

  /** rows[k] is the lease after k calls, made by any instances, at times that do not go back. */
  ghost predicate IsRun(rows: seq<LeaseRecord>, steps: seq<LeaseStep>) {
    && |rows| == |steps| + 1 && rows[0] == NoRecord
    && (forall k :: 0 <= k < |steps| ==> rows[k + 1] == Next(rows[k], steps[k]).0)
    && (forall j, k :: 0 <= j <= k < |steps| ==> steps[j].at <= steps[k].at)
  }

  /** At one time at most one guard is valid, whoever holds guards. */
  lemma {:induction false} OneValidGuard(l: LeaseRecord, i: Instance, m: nat, j: Instance, n: nat, at: Time)
    requires Validate(l, i, m, at) == ValidForSubmission && Validate(l, j, n, at) == ValidForSubmission
    ensures i == j && m == n
  {
  }

  /** The calls among the first n that took the lease, first of all or from another owner. */
  function Takings(rows: seq<LeaseRecord>, steps: seq<LeaseStep>, n: nat): nat
    requires n <= |steps| && |rows| == |steps| + 1
  {
    if n == 0 then 0
    else
      Takings(rows, steps, n - 1)
      + if Next(rows[n - 1], steps[n - 1]).1 in {Acquired, TakenOver, TakenOverStaleLocalOwner} then 1 else 0
  }

  /** The token counts them: it grows by one exactly when the lease is taken. */
  lemma {:induction false} TokenCountsTakings(rows: seq<LeaseRecord>, steps: seq<LeaseStep>, n: nat)
    requires IsRun(rows, steps) && n <= |steps|
    ensures Token(rows[n]) == Takings(rows, steps, n)
  {
    if n > 0 {
      TokenCountsTakings(rows, steps, n - 1);
      assert rows[n - 1 + 1] == Next(rows[n - 1], steps[n - 1]).0;
    }
  }

  /** The token never decreases. */
  lemma {:induction false} TokenNeverDecreases(rows: seq<LeaseRecord>, steps: seq<LeaseStep>, j: nat, k: nat)
    requires IsRun(rows, steps) && j <= k < |rows|
    ensures Token(rows[j]) <= Token(rows[k])
    ensures rows[j].LeaseRecord? ==> rows[k].LeaseRecord? && rows[j].token > 0
    decreases k
  {
    if j < k {
      TokenNeverDecreases(rows, steps, j, k - 1);
      assert rows[k] == Next(rows[k - 1], steps[k - 1]).0;
    } else if j > 0 {
      TokenNeverDecreases(rows, steps, j - 1, j - 1);
      assert rows[j] == Next(rows[j - 1], steps[j - 1]).0;
    }
  }

  /** A token belongs to one instance for ever: while it stays, its owner stays or gives up. */
  lemma {:induction false} TokenHasOneOwner(rows: seq<LeaseRecord>, steps: seq<LeaseStep>, j: nat, k: nat)
    requires IsRun(rows, steps) && j <= k < |rows|
    requires rows[j].LeaseRecord? && Token(rows[j]) == Token(rows[k])
    ensures rows[k].LeaseRecord? && (rows[k].owner.Some? ==> rows[k].owner == rows[j].owner)
    decreases k
  {
    if j < k {
      TokenNeverDecreases(rows, steps, j, k - 1);
      TokenNeverDecreases(rows, steps, k - 1, k);
      TokenHasOneOwner(rows, steps, j, k - 1);
      assert rows[k] == Next(rows[k - 1], steps[k - 1]).0;
    }
  }

  /** The lease row at one moment, and the guard in question, rejected for good. */
  predicate Dead(l: LeaseRecord, i: Instance, token: nat, at: Time) {
    Token(l) > token || (l.LeaseRecord? && l.token == token && (l.owner != Some(i) || Expired(l, at)))
  }

  lemma {:induction false} DeadStaysDead(l: LeaseRecord, s: LeaseStep, i: Instance, token: nat, at: Time)
    requires Dead(l, i, token, at) && at <= s.at
    ensures Dead(Next(l, s).0, i, token, s.at)
  {
  }

  /** Fencing: a guard whose token has been issued and which has once been rejected is
      rejected at every later step, by whatever calls it is followed. */
  lemma {:induction false} FencingIsPermanent(rows: seq<LeaseRecord>, steps: seq<LeaseStep>, i: Instance, token: nat,
                                              j: nat, k: nat, rejectedAt: Time, at: Time)
    requires IsRun(rows, steps) && j <= k < |rows| && token <= Token(rows[j]) && rows[j].LeaseRecord?
    requires Validate(rows[j], i, token, rejectedAt) != ValidForSubmission
    requires rejectedAt <= at && (j < |steps| ==> rejectedAt <= steps[j].at)
    requires k > 0 && k > j ==> steps[k - 1].at <= at
    ensures Validate(rows[k], i, token, at) != ValidForSubmission
  {
    var n, clock := j, rejectedAt;
    while n < k
      invariant j <= n <= k
      invariant clock == (if n == j then rejectedAt else steps[n - 1].at)
      invariant Dead(rows[n], i, token, clock)
    {
      assert clock <= steps[n].at;
      DeadStaysDead(rows[n], steps[n], i, token, clock);
      clock := steps[n].at;
      n := n + 1;
    }
  }

  /** Whoever takes the lease over fences off every guard issued before. */
  lemma {:induction false} TakeoverFencesEarlierGuards(rows: seq<LeaseRecord>, steps: seq<LeaseStep>, j: nat, k: nat,
                                                       i: Instance, token: nat, at: Time)
    requires IsRun(rows, steps) && j < k < |rows| && token <= Token(rows[j])
    requires Next(rows[j], steps[j]).1 in {TakenOver, TakenOverStaleLocalOwner}
    ensures Validate(rows[k], i, token, at) == TokenMismatch
  {
    assert rows[j + 1] == Next(rows[j], steps[j]).0;
    TokenNeverDecreases(rows, steps, j + 1, k);
  }

  // ------------------------------------------------------ guards checked at any time

  /** Calls one after the other, at whatever times. */
  ghost predicate Follow(rows: seq<LeaseRecord>, steps: seq<LeaseStep>) {
    && |rows| == |steps| + 1
    && forall k :: 0 <= k < |steps| ==> rows[k + 1] == Next(rows[k], steps[k]).0
  }

  /** A token mismatch is final: an issued guard that has once been answered with it is never
      answered with anything else, at whatever times the store is called and the guard checked. */
  lemma {:induction false} MismatchIsPermanent(rows: seq<LeaseRecord>, steps: seq<LeaseStep>, i: Instance, token: nat,
                                               j: nat, k: nat, rejectedAt: Time, at: Time)
    requires Follow(rows, steps) && j <= k < |rows| && 0 < token <= Token(rows[j])
    requires Validate(rows[j], i, token, rejectedAt) == TokenMismatch
    ensures Validate(rows[k], i, token, at) == TokenMismatch
  {
    var n := j;
    while n < k
      invariant j <= n <= k && token < Token(rows[n])
    {
      assert rows[n + 1] == Next(rows[n], steps[n]).0;
      n := n + 1;
    }
  }

  /** A rejected row that is not the guard's to renew, by the clock of the store. */
  predicate Lapsed(l: LeaseRecord, was: LeaseRecord, i: Instance, token: nat) {
    l.LeaseRecord? && (l == was || token < l.token || (l.token == token && l.owner != Some(i)))
  }

  lemma {:induction false} LapsedStaysLapsed(l: LeaseRecord, was: LeaseRecord, s: LeaseStep, i: Instance, token: nat)
    requires Lapsed(l, was, i, token) && was.LeaseRecord? && was.token == token
    requires was.owner != Some(i) || Expired(was, s.at)
    ensures Lapsed(Next(l, s).0, was, i, token)
  {
  }

  /** A rejection for expiry is lifted only by looking back: if the guard is accepted again, nothing
      has happened to the row, and it is checked for a time before the one it was rejected for. */
  lemma {:induction false} ExpiryIsLiftedOnlyByEarlierTime(rows: seq<LeaseRecord>, steps: seq<LeaseStep>, i: Instance,
                                                           token: nat, j: nat, k: nat, rejectedAt: Time, at: Time)
    requires Follow(rows, steps) && j <= k < |rows|
    requires forall n :: j <= n < |steps| ==> rejectedAt <= steps[n].at
    requires Validate(rows[j], i, token, rejectedAt) == NotHeldByInstance
    ensures Validate(rows[k], i, token, at) == ValidForSubmission
      <==> rows[k] == rows[j] && rows[j].owner == Some(i) && rows[j].expiresAt.Some?
           && at < rows[j].expiresAt.value <= rejectedAt
  {
    var n := j;
    while n < k
      invariant j <= n <= k && Lapsed(rows[n], rows[j], i, token)
    {
      assert rows[n + 1] == Next(rows[n], steps[n]).0;
      LapsedStaysLapsed(rows[n], rows[j], steps[n], i, token);
      n := n + 1;
    }
  }

  // ------------------------------------------------------------------ exclusion

  /** What every call does, by its answer: who is granted the lease has it until the call's time
      plus its ttl, a release clears the owner, and any other answer leaves the row alone. */
  lemma {:induction false} AnswersTellTheRow(l: LeaseRecord, s: LeaseStep)
    ensures
      var (next, answer) := Next(l, s);
      && (answer in {Acquired, Renewed, TakenOver, TakenOverStaleLocalOwner, HeartbeatAccepted} ==>
            !s.ReleaseLease? && next.LeaseRecord? && next.owner == Some(s.who)
            && next.expiresAt == Some(s.at + s.ttl) && next.heartbeatAt == s.at)
      && (answer in {Renewed, HeartbeatAccepted} ==> next.token == Token(l))
      && (answer in {Acquired, TakenOver, TakenOverStaleLocalOwner} ==> next.token == Token(l) + 1)
      && (answer == Released ==> next == LeaseRecord(None, Some(s.at), s.at, Token(l)))
      && (answer in {HeldByOther, HeartbeatRejected, ReleaseSkipped} ==> next == l)
  {
  }

  /** An acquisition is refused exactly while a live lease of another instance stands whose
      process is not known to be dead. */
  lemma {:induction false} RefusalIsExact(l: LeaseRecord, who: Instance, ttl: Time, staleOwner: bool, at: Time)
    ensures
      Next(l, Acquire(who, ttl, staleOwner, at)).1 == HeldByOther <==>
      l.LeaseRecord? && l.owner.Some? && l.owner.value != who && l.expiresAt.Some? && at < l.expiresAt.value
      && !staleOwner
  {
  }

  /** A guard is valid exactly while the row has its owner and token and has not expired; a heartbeat
      is accepted exactly under a valid guard, and a release exactly from the owner, expired or not. */
  lemma {:induction false} AcceptanceIsExact(l: LeaseRecord, i: Instance, token: nat, ifToken: Option<nat>, ttl: Time,
                                             at: Time)
    ensures Validate(l, i, token, at) == ValidForSubmission <==>
            l.LeaseRecord? && l.owner == Some(i) && l.token == token && l.expiresAt.Some? && at < l.expiresAt.value
    ensures Next(l, Heartbeat(i, token, ttl, at)).1 == HeartbeatAccepted <==>
            Validate(l, i, token, at) == ValidForSubmission
    ensures Next(l, ReleaseLease(i, ifToken, at)).1 == Released <==>
            l.LeaseRecord? && l.owner == Some(i) && (ifToken == None || ifToken == Some(l.token))
  {
  }

  /** The call comes before the expiry of the row, does not give the lease up for its owner,
      and does not take the owner for dead. */
  predicate Respects(l: LeaseRecord, s: LeaseStep) {
    && l.LeaseRecord? && l.owner.Some? && l.expiresAt.Some? && s.at < l.expiresAt.value
    && match s
       case Acquire(who, _, stale, _) => stale ==> l.owner == Some(who)
       case Heartbeat(_, _, _, _) => true
       case ReleaseLease(who, ifToken, _) =>
         l.owner == Some(who) ==> ifToken.Some? && ifToken.value != l.token
  }

  /** The row is held under this guard. */
  predicate HeldUnder(l: LeaseRecord, i: Instance, token: nat) {
    l.LeaseRecord? && l.owner == Some(i) && l.token == token && l.expiresAt.Some?
  }

  /** Before its expiry a lease survives a call exactly when the call respects it. */
  lemma {:induction false} LeaseSurvivesExactly(l: LeaseRecord, s: LeaseStep, i: Instance, token: nat)
    requires HeldUnder(l, i, token) && s.at < l.expiresAt.value
    ensures HeldUnder(Next(l, s).0, i, token) <==> Respects(l, s)
    ensures Respects(l, s) ==>
      Next(l, s).0.expiresAt == if (s.Acquire? && s.who == i) || (s.Heartbeat? && s.who == i && s.token == token)
                                then Some(s.at + s.ttl) else l.expiresAt
    ensures Respects(l, s) && s.Acquire? && s.who != i ==> Next(l, s) == (l, HeldByOther)
  {
  }

  /** Exclusion: from a valid guard on, as long as every call comes before the expiry standing at
      it and none releases the lease for its owner or takes the owner for dead, the guard is valid
      right up to the expiry, and every other instance that asks for the lease is refused it. */
  lemma {:induction false} LiveLeaseExcludesOthers(rows: seq<LeaseRecord>, steps: seq<LeaseStep>, i: Instance,
                                                   token: nat, j: nat, k: nat, from: Time, at: Time)
    requires Follow(rows, steps) && j <= k < |rows|
    requires Validate(rows[j], i, token, from) == ValidForSubmission
    requires forall n :: j <= n < k ==> Respects(rows[n], steps[n])
    ensures HeldUnder(rows[k], i, token)
    ensures Validate(rows[k], i, token, at) == ValidForSubmission <==> at < rows[k].expiresAt.value
    ensures forall n :: j <= n < k && steps[n].Acquire? && steps[n].who != i ==>
      Next(rows[n], steps[n]) == (rows[n], HeldByOther) && rows[n + 1] == rows[n]
    ensures forall n :: j <= n < k && steps[n].Acquire? && steps[n].who == i ==>
      Next(rows[n], steps[n]).1 == Renewed && rows[n + 1].expiresAt == Some(steps[n].at + steps[n].ttl)
    ensures forall n :: j <= n < k && steps[n].Heartbeat? && steps[n].who == i && steps[n].token == token ==>
      Next(rows[n], steps[n]).1 == HeartbeatAccepted && rows[n + 1].expiresAt == Some(steps[n].at + steps[n].ttl)
  {
    var n := j;
    while n < k
      invariant j <= n <= k && forall x :: j <= x <= n ==> HeldUnder(rows[x], i, token)
    {
      LeaseSurvivesExactly(rows[n], steps[n], i, token);
      assert rows[n + 1] == Next(rows[n], steps[n]).0;
      n := n + 1;
    }
  }
}
