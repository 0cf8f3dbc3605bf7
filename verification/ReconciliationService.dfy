/** The reconciliation service: checks the persisted state, and on drift latches protection
    mode and cancels what may be cancelled. */
module ReconciliationService {
  import opened Prelude
  import opened Execution
  import opened Costs
  import opened RiskGate
  import opened Store
  import opened Oms
  import opened Reconciler
  import opened ReconcilerRun
  import opened LedgerAgreement
  import opened OrderAgreement
  import opened Agreement
  import opened Crashes
  import opened Runs
  import opened ControlPlane
  import opened TraderOms

  class TraderReconciliationService {
    const oms: TraderOmsService
    const control: ControlStore
    var lastIssues: Option<seq<Issue>>

    constructor (oms: TraderOmsService, control: ControlStore)
      ensures this.oms == oms && this.control == control && lastIssues.None?
    {
      this.oms, this.control, lastIssues := oms, control, None;
    }

    /** Protection mode, and everything cancelled but the reduce-only orders. active are the
        active orders as listed once protection is on. */
    method EngageProtectionMode(at: Time, active: seq<OrderId>)
      requires ValidTables(oms.View()) && ListsActive(oms.View(), active)
      requires forall id :: id in active ==> oms.orders[id].submittedAt <= at
      modifies control`protectionModeActive, oms`orders
      ensures control.protectionModeActive
      ensures forall id :: id in oms.orders && Active(oms.orders[id]) <==>
        id in old(oms.orders) && Active(old(oms.orders)[id])
          && Spared(old(oms.View()), old(oms.orders)[id], ProtectionMode)
    {
      ghost var t := oms.View();
      control.SetProtectionMode(true);
      CancelAllLeavesReduceOnly(t, active, ProtectionMode, at);
      var _, _, _, _ := oms.CancelAllOrders(active, control.State(), at);
      assert oms.View() == CommitAll(t, CancelEach(t, active, ProtectionMode, at).writes);
    }

    /** One reconciliation of the persisted rows, in whatever order the query returned them, or
        of nothing when loading them failed. On tables that agree it finds drift exactly when
        some position has not been released for the date it checks. */
    method RunOnce(loaded: Option<Facts>, m: CostModel, at: Time, active: seq<OrderId>, ghost d: int)
      returns (drift: Option<bool>)
      requires ValidTables(oms.View()) && ValidFills(oms.fills) && ValidCostModel(m)
      requires loaded.Some? ==> ReadFrom(loaded.value, oms.View())
      requires ListsActive(oms.View(), active) && forall id :: id in active ==> oms.orders[id].submittedAt <= at
      modifies this`lastIssues, control`protectionModeActive, oms`orders
      ensures drift.Some? <==> loaded.Some?
      ensures loaded.Some? ==> ValidFacts(loaded.value) && lastIssues == Some(ExpectedIssues(loaded.value, m, at))
      ensures loaded.Some? ==> (drift.value <==> !Consistent(loaded.value, m, at))
      ensures
        loaded.Some? && old(Agrees(oms.View(), m, d))
        && old(oms.balances != [] && Today(oms.View(), d) <= loaded.value.tradeDate) ==>
        (drift.value <==> !AllReleased(old(oms.View()), loaded.value.tradeDate))
      ensures loaded.None? ==> lastIssues == old(lastIssues)
      ensures drift == Some(false) ==>
        oms.View() == old(oms.View()) && control.protectionModeActive == old(control.protectionModeActive)
      ensures drift != Some(false) ==> control.protectionModeActive
      ensures drift != Some(false) ==> forall id :: id in oms.orders && Active(oms.orders[id]) <==>
        id in old(oms.orders) && Active(old(oms.orders)[id])
          && Spared(old(oms.View()), old(oms.orders)[id], ProtectionMode)
    {
      ghost var t := oms.View();
      if loaded.None? {
        EngageProtectionMode(at, active);
        return None;
      }
      RowsStayValid(loaded.value, t);
      var issues, _ := ReconcilePaperState(loaded.value, m, at);
      lastIssues := Some(issues);
      DriftIsUnreleased(t, loaded.value, m, d, at);
      if issues != [] {
        EngageProtectionMode(at, active);
      }
      return Some(issues != []);
    }
  }

  lemma {:induction false} DriftIsUnreleased(t: Tables, facts: Facts, m: CostModel, d: int, at: Time)
    requires ReadFrom(facts, t) && ValidFacts(facts) && ValidCostModel(m)
    ensures Agrees(t, m, d) && Today(t, d) <= facts.tradeDate ==>
      (ExpectedIssues(facts, m, at) != [] <==> !AllReleased(t, facts.tradeDate))
  {
    if Agrees(t, m, d) && Today(t, d) <= facts.tradeDate {
      CleanIffReleased(t, facts, m, d, at);
    }
  }
}
