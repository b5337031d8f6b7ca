/**
 * Power control: translating a requested power transition into the call the
 * driver issues to the hypervisor, and reading the power state back.
 */
module Power {
  import opened Wrappers
  import opened Errors

  /**
   * VM state tokens of the hypervisor. The driver names three of them; any other
   * state the hypervisor reports (paused, saved, ...) is an OtherState.
   */
  datatype VmState = Enabled | Disabled | Reboot | OtherState(code: int)

  /** The table installed by initialize: transition verb to target VM state. */
  const VmStateMap: map<string, VmState> :=
    map["On" := Enabled, "ForceOn" := Enabled, "ForceOff" := Disabled, "ForceRestart" := Reboot]

  /** The call a power request leads to. */
  datatype PowerAction =
    | SetVmState(target: VmState)   // set_vm_state with a table entry
    | SoftShutdown                  // soft_shutdown_vm
    | NotSupported                  // no call; NotSupportedError is raised

  /**
   * Which call a verb leads to: the table is consulted first, then the one verb
   * handled by soft shutdown; everything else is unsupported. All three table
   * tokens are taken to be truthy, so `if vm_state` means "the verb is in the table".
   */
  function ActionFor(verb: string): (a: PowerAction)
    ensures a == SetVmState(Enabled) <==> verb == "On" || verb == "ForceOn"
    ensures a == SetVmState(Disabled) <==> verb == "ForceOff"
    ensures a == SetVmState(Reboot) <==> verb == "ForceRestart"
    ensures a == SoftShutdown <==> verb == "GracefulShutdown"
    ensures a == NotSupported <==>
      verb !in {"On", "ForceOn", "ForceOff", "ForceRestart", "GracefulShutdown"}
    ensures a.SetVmState? ==> !a.target.OtherState?
  {
    if verb in VmStateMap then SetVmState(VmStateMap[verb])
    else if verb == "GracefulShutdown" then SoftShutdown
    else NotSupported
  }

  /**
   * set_power_state. `fault` is what the hypervisor call raises, if anything
   * (it is consulted only when a call is made). The result is the call that was
   * made, or the exception that leaves the driver.
   */
  function SetPowerState(verb: string, fault: Option<Exception>): (r: Result<PowerAction, Exception>)
    ensures r.Failure? ==> IsFishy(r.error)
    ensures r.Success? <==> !ActionFor(verb).NotSupported? && fault.None?
    ensures r.Success? ==> r.value == ActionFor(verb)
    ensures ActionFor(verb).NotSupported? ==> r == Failure(NotSupportedError)
    ensures !ActionFor(verb).NotSupported? && fault.Some? && IsFishy(fault.value) ==>
      r == Failure(fault.value)
    ensures !ActionFor(verb).NotSupported? && fault.Some? && !IsFishy(fault.value) ==>
      r == Failure(FishyError)
  {
    var action := ActionFor(verb);
    if action.NotSupported? then
      Failure(Wrap(NotSupportedError))
    else if fault.Some? then
      Failure(Wrap(fault.value))
    else
      Success(action)
  }

  /** get_power_state: "On" exactly for the enabled state and "Off" for every other. */
  function GetPowerState(state: VmState): (r: string)
    ensures r == "On" <==> state == Enabled
    ensures r == "On" || r == "Off"
  {
    if state == Enabled then "On" else "Off"
  }

  /**
   * Reading back after a forced power-on or power-off: once the hypervisor
   * reports the state a successful request asked for, the power state is the
   * one the verb names.
   */
  lemma {:induction false} ForcedTransitionReadBack(verb: string)
    requires verb in {"On", "ForceOn", "ForceOff"}
    ensures SetPowerState(verb, None).Success? && SetPowerState(verb, None).value.SetVmState?
    ensures GetPowerState(SetPowerState(verb, None).value.target) == (if verb == "ForceOff" then "Off" else "On")
  {
  }
}
