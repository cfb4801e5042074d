/** What the adapters take from their container base class: how a run ends, how a volume
    binding is written, and the memory policy both engines follow. */
module Container {
  import opened Text

  /** How `run_and_wait_for_exit(cmd)` ends: the container exits and its exit status is judged a
      success or not (against `expect_failure`), or the run's deadline passes first and a
      `TimeoutError` comes out of the call. */
  datatype RunOutcome = Exited(success: bool) | TimedOut

  /** The Java heap (`-Xmx` and `-Xms`) given to an engine: half of the host's total memory,
      rounded down, rather than the JVM's default quarter. */
  function HeapSize(totalMemory: nat): (heap: nat)
    ensures 2 * heap <= totalMemory <= 2 * heap + 1
  {
    totalMemory / 2
  }

  /** A volume binding as the adapters write it: `"<host path>:<container path>"`. */
  function Binding(host: string, target: string): string {
    host + ":" + target
  }

  /** The container path of a binding: what follows its last ':'. */
  function TargetOf(binding: string): string {
    AfterLast(binding, ':')
  }

  /** The host path of a binding: what precedes its last ':'. */
  function HostOf(binding: string): string {
    var t := TargetOf(binding);
    if |t| < |binding| then binding[..|binding| - |t| - 1] else ""
  }

  /** A binding whose container path holds no ':' reads back as the two paths it was made of. */
  lemma BindingRoundTrip(host: string, target: string)
    requires ':' !in target
    ensures TargetOf(Binding(host, target)) == target
    ensures HostOf(Binding(host, target)) == host
  {
    assert Binding(host, target) == host + [':'] + target;
    AfterLastPastSeparator(host, ':', target);
    AfterLastWithout(target, ':');
  }
}
