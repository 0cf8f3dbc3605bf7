/** The account's control flags and the protective state they resolve to. */
module ControlPlane {
  import opened RiskGate

  /** Flags assigned in place, one by one. */
  class ControlStore {
    var strategyEnabled: bool
    var killSwitchActive: bool
    var protectionModeActive: bool
    var cancelAllToken: nat

    function State(): ControlState
      reads this
    {
      ResolveControlState(strategyEnabled, killSwitchActive, protectionModeActive)
    }

    constructor ()
      ensures State() == Normal && cancelAllToken == 0
    {
      strategyEnabled, killSwitchActive, protectionModeActive, cancelAllToken := true, false, false, 0;
    }

    /** Pausing or resuming the strategy cannot lift a protective state. */
    method SetStrategyEnabled(enabled: bool)
      modifies this`strategyEnabled
      ensures strategyEnabled == enabled
      ensures old(Protective(State())) ==> State() == old(State())
    {
      strategyEnabled := enabled;
    }

    /** The kill switch, on or off, is outranked by protection mode. */
    method SetKillSwitch(active: bool)
      modifies this`killSwitchActive
      ensures killSwitchActive == active
      ensures protectionModeActive ==> State() == ProtectionMode
      ensures active ==> Protective(State())
    {
      killSwitchActive := active;
    }

    /** Protection mode outranks every other flag; lifting it uncovers what the others say. */
    method SetProtectionMode(active: bool)
      modifies this`protectionModeActive
      ensures protectionModeActive == active
      ensures active ==> State() == ProtectionMode
      ensures !active ==>
        State() == (if killSwitchActive then KillSwitch else if strategyEnabled then Normal else StrategyPaused)
    {
      protectionModeActive := active;
    }

    method MarkCancelAllRequested()
      modifies this`cancelAllToken
      ensures cancelAllToken == old(cancelAllToken) + 1 && State() == old(State())
    {
      cancelAllToken := cancelAllToken + 1;
    }
  }
}
