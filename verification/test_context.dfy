/**
  `CasperTestContext`: one `DatabaseConfigurationState` per thread, `Uninitialized` until the
  thread sets one.
*/
module TestContext {

  import opened ConfigurationState

  type ThreadId = nat

  /** The ThreadLocal: the states of the threads that have set one. */
  datatype Context = Context(states: map<ThreadId, DatabaseConfigurationState>)

  /** No thread has set a state yet. */
  const Empty := Context(map[])

  /** `getState()` on thread `t`. Reading is pure: it changes no thread's state. */
  function GetState(c: Context, t: ThreadId): (s: DatabaseConfigurationState)
    ensures t !in c.states ==> s == Uninitialized
  {
    if t in c.states then c.states[t] else Uninitialized
  }

  /** `setState(s)` on thread `t`. */
  function SetState(c: Context, t: ThreadId, s: DatabaseConfigurationState): (r: Context)
    ensures GetState(r, t) == s
    ensures forall u :: u != t ==> GetState(r, u) == GetState(c, u)
  {
    Context(c.states[t := s])
  }

  /** Before any thread sets a state, every thread reads `Uninitialized`. */
  lemma ReadBeforeSetIsUninitialized(t: ThreadId)
    ensures GetState(Empty, t) == Uninitialized
  {
  }

  /** Setting the state a thread already has changes nothing. */
  lemma SetCurrentStateIsNoOp(c: Context, t: ThreadId)
    ensures forall u :: GetState(SetState(c, t, GetState(c, t)), u) == GetState(c, u)
  {
  }
}
