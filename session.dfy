/** How one store uses its limiter over its lifetime (src/executor.rs:27-38):
    the store owns one `SandboxState`, and the runtime consults it through the
    two hooks every time the guest asks to grow a linear memory or a table.
    A session is the sequence of those requests, answered in order against
    the state each previous call left behind. */
module Session {
  import opened Wrappers
  import opened Limiter

  /** One growth request as the runtime passes it to a hook. */
  datatype GrowRequest = GrowRequest(resource: Resource, current: Usize, desired: Usize, maximum: Option<Usize>)

  /** Hands a request to the hook for its resource: `memory_growing` for a
      linear memory, `table_growing` for a table. */
  function Consult(s: SandboxState, req: GrowRequest): (out: (SandboxState, Result<bool>))
    ensures out.0 == s
    ensures out.1 == Ok(WithinCeiling(s, req.resource, req.desired))
  {
    match req.resource
    case LinearMemory => MemoryGrowing(s, req.current, req.desired, req.maximum)
    case Table => TableGrowing(s, req.current, req.desired, req.maximum)
  }

  /** Answers a session's requests in order, threading the state through
      every call. The state at the end is the state at the start, so the
      ceilings stay fixed for the store's lifetime, and each answer is the
      one the ceiling alone gives for that request, wherever it falls in
      the session. */
  function Replay(s: SandboxState, reqs: seq<GrowRequest>): (out: (SandboxState, seq<Result<bool>>))
    ensures out.0 == s
    ensures |out.1| == |reqs|
    ensures forall i :: 0 <= i < |reqs| ==>
              out.1[i] == Ok(WithinCeiling(s, reqs[i].resource, reqs[i].desired))
    decreases |reqs|
  {
    if reqs == [] then (s, [])
    else
      var (s', answer) := Consult(s, reqs[0]);
      var (s'', answers) := Replay(s', reqs[1..]);
      (s'', [answer] + answers)
  }

  /** A session split anywhere answers as its two halves would against
      fresh copies of the same state: no call leaves anything behind. */
  lemma ReplayConcat(s: SandboxState, a: seq<GrowRequest>, b: seq<GrowRequest>)
    ensures Replay(s, a + b).0 == Replay(Replay(s, a).0, b).0
    ensures Replay(s, a + b).1 == Replay(s, a).1 + Replay(Replay(s, a).0, b).1
  {
    var whole, first, second := Replay(s, a + b).1, Replay(s, a).1, Replay(s, b).1;
    forall i | 0 <= i < |whole|
      ensures whole[i] == (first + second)[i]
    {
      if i < |a| {
        assert (a + b)[i] == a[i];
      } else {
        assert (a + b)[i] == b[i - |a|];
      }
    }
  }

  /** No request past its resource's ceiling is ever allowed, anywhere in a
      session: not a memory grow past the byte ceiling, not a table grow past
      1000 entries. */
  lemma NoGrowthPastCeiling(s: SandboxState, reqs: seq<GrowRequest>, i: int)
    requires 0 <= i < |reqs|
    requires reqs[i].desired > Ceiling(s, reqs[i].resource)
    ensures Replay(s, reqs).1[i] == Ok(false)
  {
  }

  /** Two requests in one session for the same resource and the same desired
      size get the same answer, whatever came between them. */
  lemma SameRequestSameAnswer(s: SandboxState, reqs: seq<GrowRequest>, i: int, j: int)
    requires 0 <= i < |reqs| && 0 <= j < |reqs|
    requires reqs[i].resource == reqs[j].resource && reqs[i].desired == reqs[j].desired
    ensures Replay(s, reqs).1[i] == Replay(s, reqs).1[j]
  {
  }
}
