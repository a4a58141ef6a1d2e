/** The growth-decision policy of the sandbox (src/limiter.rs): a state that
    holds one byte ceiling, and the two `ResourceLimiter` hooks the runtime
    calls before it grows a linear memory or a table. */
module Limiter {
  import opened Wrappers

  /** Rust's `usize` on a 64-bit target. */
  const USIZE_MAX: int := 0xFFFF_FFFF_FFFF_FFFF
  type Usize = x: int | 0 <= x <= USIZE_MAX

  /** The fixed number of table entries a table may grow to. */
  const TABLE_ENTRY_CEILING: Usize := 1000

  /** `SandboxState`: the only thing the limiter knows is its byte ceiling. */
  datatype SandboxState = SandboxState(maxMemoryBytes: Usize)

  /** The two kinds of growable resource the runtime asks about. */
  datatype Resource = LinearMemory | Table

  /** The ceiling that applies to a resource: the state's byte ceiling for a
      linear memory, the fixed entry ceiling for a table. */
  function Ceiling(s: SandboxState, resource: Resource): Usize
  {
    match resource
    case LinearMemory => s.maxMemoryBytes
    case Table => TABLE_ENTRY_CEILING
  }

  /** A request is admissible when it does not go past the resource's ceiling;
      reaching the ceiling exactly is admissible. */
  predicate WithinCeiling(s: SandboxState, resource: Resource, desired: Usize)
  {
    desired <= Ceiling(s, resource)
  }

  /** `memory_growing(&mut self, _current, desired, _max)`. The hook receives
      the state mutably; the pair's first component is the state after the
      call. It always answers `Ok`, with `true` exactly when the desired size
      is within the byte ceiling, and it leaves the state as it was. */
  function MemoryGrowing(s: SandboxState, current: Usize, desired: Usize, maximum: Option<Usize>)
    : (out: (SandboxState, Result<bool>))
    ensures out.0 == s
    ensures out.1.Ok?
    ensures out.1.value <==> WithinCeiling(s, LinearMemory, desired)
  {
    (s, Ok(desired <= s.maxMemoryBytes))
  }

  /** `table_growing(&mut self, _current, desired, _max)`. Always `Ok`, with
      `true` exactly when the desired entry count is at most 1000; the state,
      and with it the byte ceiling, plays no part and is left as it was. */
  function TableGrowing(s: SandboxState, current: Usize, desired: Usize, maximum: Option<Usize>)
    : (out: (SandboxState, Result<bool>))
    ensures out.0 == s
    ensures out.1.Ok?
    ensures out.1.value <==> desired <= 1000
    ensures out.1.value <==> WithinCeiling(s, Table, desired)
  {
    (s, Ok(desired <= 1000))
  }

  /** The memory decision depends on the desired size alone: the current
      size and the module-declared maximum are ignored. */
  lemma MemoryIgnoresCurrentAndMaximum(s: SandboxState, desired: Usize,
                                       current1: Usize, maximum1: Option<Usize>,
                                       current2: Usize, maximum2: Option<Usize>)
    ensures MemoryGrowing(s, current1, desired, maximum1) == MemoryGrowing(s, current2, desired, maximum2)
  {
  }

  /** The table decision depends on the desired entry count alone: the
      current count, the declared maximum and the byte ceiling are ignored. */
  lemma TableIgnoresEverythingButDesired(s1: SandboxState, current1: Usize, maximum1: Option<Usize>,
                                         s2: SandboxState, current2: Usize, maximum2: Option<Usize>,
                                         desired: Usize)
    ensures TableGrowing(s1, current1, desired, maximum1).1 == TableGrowing(s2, current2, desired, maximum2).1
  {
  }

  /** The memory boundary is inclusive: growing to exactly the ceiling is
      allowed, and one byte more is refused (when one byte more is still a
      `usize`). */
  lemma MemoryBoundaryInclusive(s: SandboxState, current: Usize, maximum: Option<Usize>)
    ensures MemoryGrowing(s, current, s.maxMemoryBytes, maximum).1 == Ok(true)
    ensures s.maxMemoryBytes < USIZE_MAX ==>
              MemoryGrowing(s, current, s.maxMemoryBytes + 1, maximum).1 == Ok(false)
  {
  }

  /** The table boundary is inclusive: 1000 entries are allowed, 1001 refused. */
  lemma TableBoundaryInclusive(s: SandboxState, current: Usize, maximum: Option<Usize>)
    ensures TableGrowing(s, current, 1000, maximum).1 == Ok(true)
    ensures TableGrowing(s, current, 1001, maximum).1 == Ok(false)
  {
  }

  /** With the largest possible ceiling, every memory request is allowed. */
  lemma MemoryUnboundedAtUsizeMax(current: Usize, desired: Usize, maximum: Option<Usize>)
    ensures MemoryGrowing(SandboxState(USIZE_MAX), current, desired, maximum).1 == Ok(true)
  {
  }

  /** The allowed memory sizes are downward closed: a size below an allowed
      size is allowed too, whatever the other arguments. */
  lemma MemoryDownwardClosed(s: SandboxState, current: Usize, desired: Usize, maximum: Option<Usize>,
                             current': Usize, smaller: Usize, maximum': Option<Usize>)
    requires MemoryGrowing(s, current, desired, maximum).1 == Ok(true)
    requires smaller <= desired
    ensures MemoryGrowing(s, current', smaller, maximum').1 == Ok(true)
  {
  }

  /** The allowed table sizes are downward closed in the same way. */
  lemma TableDownwardClosed(s: SandboxState, current: Usize, desired: Usize, maximum: Option<Usize>,
                            current': Usize, smaller: Usize, maximum': Option<Usize>)
    requires TableGrowing(s, current, desired, maximum).1 == Ok(true)
    requires smaller <= desired
    ensures TableGrowing(s, current', smaller, maximum').1 == Ok(true)
  {
  }

  /** A larger byte ceiling never refuses what a smaller one allows. */
  lemma MemoryMonotoneInCeiling(small: SandboxState, large: SandboxState,
                                current: Usize, desired: Usize, maximum: Option<Usize>)
    requires small.maxMemoryBytes <= large.maxMemoryBytes
    requires MemoryGrowing(small, current, desired, maximum).1 == Ok(true)
    ensures MemoryGrowing(large, current, desired, maximum).1 == Ok(true)
  {
  }

  /** Calling a hook twice with the same arguments gives the same answer
      both times: the first call leaves nothing behind that the second sees. */
  lemma RepeatedCallsAgree(s: SandboxState, current: Usize, desired: Usize, maximum: Option<Usize>)
    ensures MemoryGrowing(MemoryGrowing(s, current, desired, maximum).0, current, desired, maximum)
            == MemoryGrowing(s, current, desired, maximum)
    ensures TableGrowing(TableGrowing(s, current, desired, maximum).0, current, desired, maximum)
            == TableGrowing(s, current, desired, maximum)
  {
  }
}
