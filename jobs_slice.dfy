/**
 * The jobs slice of the client's store: the job list, whether a request is in flight,
 * and the last error. `Reduce` is the slice's reducer as a function of state and
 * action; `JobsStore` holds the state and has one method per action, each updating the
 * fields in place.
 */
module JobsSlice {
  import opened Wrappers

  /** A job record as the server returns it. */
  datatype Job = Job(id: string, title: string, company: string, location: string,
                     description: string, salary: string, skills: seq<string>)

  datatype JobsState = JobsState(jobs: seq<Job>, loading: bool, error: Option<string>)

  datatype JobsAction =
    | CreateJobStart
    | CreateJobSuccess(job: Job)
    | CreateJobFailure(message: string)
    | FetchJobsStart
    | FetchJobsSuccess(list: seq<Job>)
    | FetchJobsFailure(message: string)
  {
    predicate IsStart() { CreateJobStart? || FetchJobsStart? }
    predicate IsFailure() { CreateJobFailure? || FetchJobsFailure? }
  }

  /** No jobs, not loading, no error. */
  const InitialState := JobsState([], false, None)

  /** The reducer: the state after one action. */
  function Reduce(s: JobsState, a: JobsAction): JobsState {
    match a
    case CreateJobStart => s.(loading := true, error := None)
    case CreateJobSuccess(job) => s.(loading := false, jobs := s.jobs + [job])
    case CreateJobFailure(m) => s.(loading := false, error := Some(m))
    case FetchJobsStart => s.(loading := true, error := None)
    case FetchJobsSuccess(list) => s.(loading := false, jobs := list)
    case FetchJobsFailure(m) => s.(loading := false, error := Some(m))
  }

  /** The state after a sequence of actions, dispatched first to last. */
  function ReduceAll(s: JobsState, trace: seq<JobsAction>): JobsState
    decreases |trace|
  {
    if trace == [] then s else Reduce(ReduceAll(s, trace[..|trace| - 1]), trace[|trace| - 1])
  }

  /** The payloads of the successful creations in a trace, in order. */
  function Created(trace: seq<JobsAction>): seq<Job>
    decreases |trace|
  {
    if trace == [] then []
    else
      var last := trace[|trace| - 1];
      Created(trace[..|trace| - 1]) + (if last.CreateJobSuccess? then [last.job] else [])
  }

  /** A trace that never replaces the list only appends the created jobs to it, in order. */
  lemma {:induction false} JobsAppendOnly(s: JobsState, trace: seq<JobsAction>)
    requires forall i :: 0 <= i < |trace| ==> !trace[i].FetchJobsSuccess?
    ensures ReduceAll(s, trace).jobs == s.jobs + Created(trace)
    decreases |trace|
  {
    if trace != [] {
      JobsAppendOnly(s, trace[..|trace| - 1]);
    }
  }

  /** After a list replacement, the list is that payload followed by the jobs created since. */
  lemma {:induction false} JobsSinceFetch(s: JobsState, trace: seq<JobsAction>, k: nat)
    requires k < |trace| && trace[k].FetchJobsSuccess?
    requires forall i :: k < i < |trace| ==> !trace[i].FetchJobsSuccess?
    ensures ReduceAll(s, trace).jobs == trace[k].list + Created(trace[k + 1..])
    decreases |trace|
  {
    if k == |trace| - 1 {
      assert trace[k + 1..] == [];
    } else {
      var prefix := trace[..|trace| - 1];
      JobsSinceFetch(s, prefix, k);
      assert prefix[k + 1..] == trace[k + 1..][..|trace[k + 1..]| - 1];
    }
  }

  /** `loading` after a non-empty trace holds exactly when its last action was a start. */
  lemma LoadingFollowsLastAction(s: JobsState, trace: seq<JobsAction>)
    requires trace != []
    ensures ReduceAll(s, trace).loading <==> trace[|trace| - 1].IsStart()
  {
  }

  /** A start followed by no failure leaves no error: successes never set or clear it. */
  lemma {:induction false} NoErrorAfterStart(s: JobsState, trace: seq<JobsAction>, k: nat)
    requires k < |trace| && trace[k].IsStart()
    requires forall i :: k < i < |trace| ==> !trace[i].IsFailure()
    ensures ReduceAll(s, trace).error == None
    decreases |trace|
  {
    if k < |trace| - 1 {
      NoErrorAfterStart(s, trace[..|trace| - 1], k);
    }
  }

  /** A failure followed by no start leaves its message as the error. */
  lemma {:induction false} ErrorAfterFailure(s: JobsState, trace: seq<JobsAction>, k: nat)
    requires k < |trace| && trace[k].IsFailure()
    requires forall i :: k < i < |trace| ==> !trace[i].IsStart() && !trace[i].IsFailure()
    ensures ReduceAll(s, trace).error == Some(trace[k].message)
    decreases |trace|
  {
    if k < |trace| - 1 {
      ErrorAfterFailure(s, trace[..|trace| - 1], k);
    }
  }

  /** Successes and list replacements never touch the error. */
  lemma {:induction false} SuccessesKeepError(s: JobsState, trace: seq<JobsAction>)
    requires forall i :: 0 <= i < |trace| ==> trace[i].CreateJobSuccess? || trace[i].FetchJobsSuccess?
    ensures ReduceAll(s, trace).error == s.error
    decreases |trace|
  {
    if trace != [] {
      SuccessesKeepError(s, trace[..|trace| - 1]);
    }
  }

  /** The slice's state, updated in place by one method per action. */
  class JobsStore {
    var jobs: seq<Job>
    var loading: bool
    var error: Option<string>

    function State(): JobsState
      reads this
    {
      JobsState(jobs, loading, error)
    }

    constructor ()
      ensures jobs == [] && !loading && error == None
      ensures State() == InitialState
    {
      jobs, loading, error := [], false, None;
    }

    method CreateJobStart()
      modifies this
      ensures loading && error == None && jobs == old(jobs)
      ensures State() == Reduce(old(State()), JobsAction.CreateJobStart)
    {
      loading := true;
      error := None;
    }

    method CreateJobSuccess(job: Job)
      modifies this
      ensures !loading && error == old(error)
      ensures |jobs| == |old(jobs)| + 1 && jobs[..|old(jobs)|] == old(jobs) && jobs[|old(jobs)|] == job
      ensures State() == Reduce(old(State()), JobsAction.CreateJobSuccess(job))
    {
      loading := false;
      jobs := jobs + [job];
    }

    method CreateJobFailure(message: string)
      modifies this
      ensures !loading && error == Some(message) && jobs == old(jobs)
      ensures State() == Reduce(old(State()), JobsAction.CreateJobFailure(message))
    {
      loading := false;
      error := Some(message);
    }

    method FetchJobsStart()
      modifies this
      ensures loading && error == None && jobs == old(jobs)
      ensures State() == Reduce(old(State()), JobsAction.FetchJobsStart)
    {
      loading := true;
      error := None;
    }

    method FetchJobsSuccess(list: seq<Job>)
      modifies this
      ensures !loading && error == old(error) && jobs == list
      ensures State() == Reduce(old(State()), JobsAction.FetchJobsSuccess(list))
    {
      loading := false;
      jobs := list;
    }

    method FetchJobsFailure(message: string)
      modifies this
      ensures !loading && error == Some(message) && jobs == old(jobs)
      ensures State() == Reduce(old(State()), JobsAction.FetchJobsFailure(message))
    {
      loading := false;
      error := Some(message);
    }
  }
}
