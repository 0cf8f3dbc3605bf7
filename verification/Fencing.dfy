/** The lease and the submissions it guards, in one run. */
module Fencing {
  import opened Prelude
  import opened Execution
  import opened RiskGate
  import opened Store
  import opened Oms
  import opened Runs
  import Lease

  /** Who submits, and under which token. */
  datatype Guard = Guard(who: Lease.Instance, token: nat)

  /** A call on the lease, or a submission under a guard. */
  datatype Event =
    | OnLease(step: Lease.LeaseStep)
    | OnAccount(guard: Guard, submission: Submission)

  function Checked(row: Lease.LeaseRecord, g: Guard, at: Time): bool {
    Lease.Validate(row, g.who, g.token, at) == Lease.ValidForSubmission
  }

  /** One event: lease calls leave the tables alone, and a submission, cut off anywhere, is let in
      by the lease row as it is, checked for the time the bar was received. */
  ghost predicate Happens(row: Lease.LeaseRecord, t: Tables, e: Event, k: nat, row': Lease.LeaseRecord, t': Tables,
                          cfg: Config)
    requires ValidConfig(cfg)
  {
    match e
    case OnLease(step) => row' == Lease.Next(row, step).0 && t' == t
    case OnAccount(g, s) =>
      && row' == row && (s.leaseHeld <==> Checked(row, g, s.receivedAt))
      && Steps(t, Submit(s), k, t', cfg)
  }

  /** Instances calling the lease and submitting in any order, at any times. */
  ghost predicate FencedRun(rows: seq<Lease.LeaseRecord>, states: seq<Tables>, events: seq<Event>, cuts: seq<nat>,
                            cfg: Config)
    requires ValidConfig(cfg)
  {
    && |rows| == |states| == |events| + 1 && |cuts| == |events|
    && forall n :: 0 <= n < |events|
         ==> Happens(rows[n], states[n], events[n], cuts[n], rows[n + 1], states[n + 1], cfg)
  }

  /** A guard the lease turns down writes nothing at all. */
  lemma {:induction false} FencedCallWritesNothing(row: Lease.LeaseRecord, t: Tables, g: Guard, s: Submission, k: nat,
                                                   row': Lease.LeaseRecord, t': Tables, cfg: Config)
    requires ValidConfig(cfg) && Happens(row, t, OnAccount(g, s), k, row', t', cfg)
    ensures !Checked(row, g, s.receivedAt) ==> t' == t && SubmitSignal(t, s, cfg) == Call([], LeaseNotHeld)
    ensures t' != t ==> row.LeaseRecord? && row.token == g.token && row.owner == Some(g.who)
  {
    if !Checked(row, g, s.receivedAt) {
      assert SubmitSignal(t, s, cfg).writes[..k] == [];
    }
  }

  /** The row of one event and the next: tokens do not go back, and a token does not change hands. */
  predicate Passes(row: Lease.LeaseRecord, row': Lease.LeaseRecord) {
    && Lease.Token(row) <= Lease.Token(row') && (row.LeaseRecord? ==> row'.LeaseRecord?)
    && (row.LeaseRecord? && row.token == Lease.Token(row') && row'.owner.Some? ==> row'.owner == row.owner)
  }

  lemma {:induction false} RowsPass(rows: seq<Lease.LeaseRecord>, states: seq<Tables>, events: seq<Event>,
                                    cuts: seq<nat>, cfg: Config, i: nat, j: nat)
    requires ValidConfig(cfg) && FencedRun(rows, states, events, cuts, cfg) && i <= j <= |events|
    ensures Passes(rows[i], rows[j])
  {
    if i < j {
      RowsPass(rows, states, events, cuts, cfg, i, j - 1);
      assert Happens(rows[j - 1], states[j - 1], events[j - 1], cuts[j - 1], rows[j - 1 + 1], states[j - 1 + 1], cfg);
    }
  }

  /** Fencing, end to end: of two submissions that changed the tables the later one was made under
      no older a token, and under the same token by the same instance. */
  lemma {:induction false} WritersFollowTokens(rows: seq<Lease.LeaseRecord>, states: seq<Tables>, events: seq<Event>,
                                               cuts: seq<nat>, cfg: Config, i: nat, j: nat)
    requires ValidConfig(cfg) && FencedRun(rows, states, events, cuts, cfg) && i <= j < |events|
    requires events[i].OnAccount? && events[j].OnAccount?
    requires states[i + 1] != states[i] && states[j + 1] != states[j]
    ensures events[i].guard.token <= events[j].guard.token
    ensures events[i].guard.token == events[j].guard.token ==> events[i].guard.who == events[j].guard.who
  {
    FencedCallWritesNothing(rows[i], states[i], events[i].guard, events[i].submission, cuts[i], rows[i + 1],
                            states[i + 1], cfg);
    FencedCallWritesNothing(rows[j], states[j], events[j].guard, events[j].submission, cuts[j], rows[j + 1],
                            states[j + 1], cfg);
    RowsPass(rows, states, events, cuts, cfg, i, j);
  }
}
