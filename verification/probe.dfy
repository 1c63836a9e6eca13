/**
  The agent liveness probe: is some running process's executable named
  exactly `puppet`? The process table is an injected listing that may fail.
 */
module Probe {
  import opened Wrappers

  /** The executable name the probe looks for (case-sensitive, whole name). */
  const Puppet: string := "puppet"

  /** The executable names of the running processes, or the enumeration error. */
  type ProcessList = Result<seq<string>, string>

  /** The first-match scan over the process names, as a gauge value. */
  function Scan(names: seq<string>): (up: real)
    ensures up == 0.0 || up == 1.0
    ensures up == 1.0 <==> Puppet in names
  {
    if |names| == 0 then 0.0
    else if names[0] == Puppet then 1.0
    else Scan(names[1..])
  }

  /** The probe result: 1 when a `puppet` process is listed, 0 otherwise or when enumeration failed. */
  function AgentUp(procs: ProcessList): (up: real)
    ensures up == 0.0 || up == 1.0
    ensures up == 1.0 <==> procs.Success? && Puppet in procs.value
    ensures procs.Failure? ==> up == 0.0
  {
    match procs
    case Failure(_) => 0.0
    case Success(names) => Scan(names)
  }

  /** The probe as a loop over the listing that returns on the first match. */
  method SearchPuppetProc(procs: ProcessList) returns (up: real)
    ensures up == 0.0 || up == 1.0
    ensures up == 1.0 <==> procs.Success? && exists i :: 0 <= i < |procs.value| && procs.value[i] == Puppet
    ensures up == AgentUp(procs)
  {
    if procs.Failure? {
      return 0.0;
    }
    var names := procs.value;
    var i := 0;
    while i < |names|
      invariant 0 <= i <= |names|
      invariant forall j :: 0 <= j < i ==> names[j] != Puppet
    {
      if names[i] == Puppet {
        return 1.0;
      }
      i := i + 1;
    }
    return 0.0;
  }
}
