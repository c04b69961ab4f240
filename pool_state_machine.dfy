/**
 The state machine of a pool repository (the database record of a shared,
 deduplicated git object pool), as declared in the `state_machine :state`
 block of PoolRepository: five states, four guarded events, the `joinable?`
 query and the three `after_transition` hooks that enqueue worker jobs.

 Everything here is a pure function of the state; the record that holds the
 state and changes it in place is the class in module Pools.
 */
module PoolStateMachine {

  type PoolId = nat

  /** The states of the pool; `None` is the initial state. */
  datatype PoolState = None | Scheduled | Ready | Failed | Obsolete

  /** The four events of the machine. */
  datatype Event = Schedule | MarkReady | MarkFailed | MarkObsolete

  /** The result of firing an event: the new state, or the event is not allowed
      from the current state and nothing changes. */
  datatype Outcome = Moved(to: PoolState) | Rejected

  /** The follow-up worker jobs, each keyed by the pool id. */
  datatype Job =
    | CreateWorker(pool: PoolId)
    | ScheduleJoinWorker(pool: PoolId)
    | DestroyWorker(pool: PoolId)

  /** The one state each event leads to when it is allowed. */
  function Target(e: Event): PoolState
  {
    match e
    case Schedule => Scheduled
    case MarkReady => Ready
    case MarkFailed => Failed
    case MarkObsolete => Obsolete
  }

  /** The transition table: `none => scheduled`, `[scheduled, failed] => ready`,
      `all => failed`, `all => obsolete`. */
  function Transition(s: PoolState, e: Event): (r: Outcome)
    ensures e == Schedule ==> (r.Moved? <==> s == None)
    ensures e == MarkReady ==> (r.Moved? <==> s == Scheduled || s == Failed)
    ensures e == MarkFailed || e == MarkObsolete ==> r.Moved?
    ensures r.Moved? ==> r.to == Target(e)
    ensures r.Moved? ==> r.to != None
  {
    match e
    case Schedule => if s == None then Moved(Scheduled) else Rejected
    case MarkReady => if s == Scheduled || s == Failed then Moved(Ready) else Rejected
    case MarkFailed => Moved(Failed)
    case MarkObsolete => Moved(Obsolete)
  }

  /** `joinable?`: defined as false for `all - [:ready]` and true for `:ready`. */
  function Joinable(s: PoolState): (r: bool)
    ensures r <==> s == Ready
  {
    match s
    case Ready => true
    case None => false
    case Scheduled => false
    case Failed => false
    case Obsolete => false
  }

  /** The jobs the `after_transition` hooks enqueue for a transition `from -> to`
      of pool `id`, in the order the hooks are declared. The hooks' conditions are
      disjoint, so at most one job is enqueued per transition. */
  function AfterTransitionJobs(from: PoolState, to: PoolState, id: PoolId): (r: seq<Job>)
    ensures |r| <= 1
    ensures CreateWorker(id) in r <==> from == None && to == Scheduled
    ensures ScheduleJoinWorker(id) in r <==> from == Scheduled && to == Ready
    ensures DestroyWorker(id) in r <==> to == Obsolete
    ensures forall j :: j in r ==> j.pool == id
  {
    (if from == None && to == Scheduled then [CreateWorker(id)] else [])
    + (if from == Scheduled && to == Ready then [ScheduleJoinWorker(id)] else [])
    + (if to == Obsolete then [DestroyWorker(id)] else [])
  }

  /** The effect of one event on a pool in state `s`: whether it was accepted,
      the state afterwards and the jobs enqueued after the commit. */
  datatype Step = Step(accepted: bool, state: PoolState, jobs: seq<Job>)

  function Fire(s: PoolState, e: Event, id: PoolId): (r: Step)
    ensures r.accepted <==> Transition(s, e).Moved?
    ensures r.accepted ==> r.state == Target(e) && r.jobs == AfterTransitionJobs(s, Target(e), id)
    ensures !r.accepted ==> r.state == s && r.jobs == []
  {
    match Transition(s, e)
    case Moved(to) => Step(true, to, AfterTransitionJobs(s, to, id))
    case Rejected => Step(false, s, [])
  }

  /** Firing a sequence of events, one after the other; the second component is
      every job enqueued along the way, in order. */
  function Run(s: PoolState, es: seq<Event>, id: PoolId): (PoolState, seq<Job>)
    decreases |es|
  {
    if es == [] then (s, [])
    else
      var first := Fire(s, es[0], id);
      var rest := Run(first.state, es[1..], id);
      (rest.0, first.jobs + rest.1)
  }

  /** The number of occurrences of `x` in `xs`. */
  function Count<T(==)>(xs: seq<T>, x: T): nat
  {
    if xs == [] then 0 else (if xs[0] == x then 1 else 0) + Count(xs[1..], x)
  }

  lemma {:induction false} CountAppend<T>(a: seq<T>, b: seq<T>, x: T)
    ensures Count(a + b, x) == Count(a, x) + Count(b, x)
  {
    if a != [] {
      assert (a + b)[0] == a[0] && (a + b)[1..] == a[1..] + b;
      CountAppend(a[1..], b, x);
    } else {
      assert a + b == b;
    }
  }

  /** The jobs of one step, counted: at most one job, and it is `j` exactly when
      `j` is among them. */
  lemma CountStepJobs(st: Step, j: Job)
    requires |st.jobs| <= 1
    ensures Count(st.jobs, j) == if j in st.jobs then 1 else 0
  {
    if st.jobs != [] {
      assert st.jobs[1..] == [];
    }
  }

  /** A CreateWorker job is enqueued at most once over the whole life of a pool,
      and never for a pool that has already left the initial state: no event
      leads back to `none`. */
  lemma {:induction false} CreateJobAtMostOnce(s: PoolState, es: seq<Event>, id: PoolId)
    ensures Count(Run(s, es, id).1, CreateWorker(id)) <= if s == None then 1 else 0
    decreases |es|
  {
    if es != [] {
      var first := Fire(s, es[0], id);
      var rest := Run(first.state, es[1..], id);
      CreateJobAtMostOnce(first.state, es[1..], id);
      CountAppend(first.jobs, rest.1, CreateWorker(id));
      CountStepJobs(first, CreateWorker(id));
    }
  }

  /** Every `mark_obsolete` is accepted and enqueues exactly one DestroyWorker
      job (also when the pool is already obsolete); no other event does. */
  lemma {:induction false} DestroyJobPerMarkObsolete(s: PoolState, es: seq<Event>, id: PoolId)
    ensures Count(Run(s, es, id).1, DestroyWorker(id)) == Count(es, MarkObsolete)
    decreases |es|
  {
    if es != [] {
      var first := Fire(s, es[0], id);
      var rest := Run(first.state, es[1..], id);
      DestroyJobPerMarkObsolete(first.state, es[1..], id);
      CountAppend(first.jobs, rest.1, DestroyWorker(id));
      CountStepJobs(first, DestroyWorker(id));
    }
  }

  /** Once a pool is neither `none` nor `scheduled`, no event sequence enqueues a
      ScheduleJoinWorker job: `scheduled` is entered only from `none`. */
  lemma {:induction false} NoJoinJobPastScheduled(s: PoolState, es: seq<Event>, id: PoolId)
    requires s != None && s != Scheduled
    ensures ScheduleJoinWorker(id) !in Run(s, es, id).1
    decreases |es|
  {
    if es != [] {
      var first := Fire(s, es[0], id);
      NoJoinJobPastScheduled(first.state, es[1..], id);
      assert Run(s, es, id).1 == first.jobs + Run(first.state, es[1..], id).1;
    }
  }

  /** Starting from a new pool, a ScheduleJoinWorker job is only ever enqueued
      after the CreateWorker job, which is then the first job of the pool. */
  lemma {:induction false} JoinJobFollowsCreateJob(es: seq<Event>, id: PoolId)
    requires ScheduleJoinWorker(id) in Run(None, es, id).1
    ensures Run(None, es, id).1[0] == CreateWorker(id)
    decreases |es|
  {
    var first := Fire(None, es[0], id);
    var rest := Run(first.state, es[1..], id);
    assert Run(None, es, id).1 == first.jobs + rest.1;
    match es[0]
    case Schedule =>
      assert first.jobs == [CreateWorker(id)];
    case MarkReady =>
      JoinJobFollowsCreateJob(es[1..], id);
    case MarkFailed =>
      NoJoinJobPastScheduled(Failed, es[1..], id);
    case MarkObsolete =>
      NoJoinJobPastScheduled(Obsolete, es[1..], id);
  }

  /** `obsolete` is not a terminal state: `mark_failed` leaves it, and the pool can
      then be marked ready again, without a join job. */
  lemma ObsoleteIsNotTerminal(id: PoolId)
    ensures Run(Obsolete, [MarkFailed, MarkReady], id) == (Ready, [])
  {
  }

  /** The recovery path `scheduled -> failed -> ready` makes the pool joinable,
      but enqueues no ScheduleJoinWorker job (the hook is `scheduled: :ready`). */
  lemma RecoveryEnqueuesNoJoinJob(id: PoolId)
    ensures Run(Scheduled, [MarkFailed, MarkReady], id) == (Ready, [])
    ensures Joinable(Run(Scheduled, [MarkFailed, MarkReady], id).0)
  {
  }
}
