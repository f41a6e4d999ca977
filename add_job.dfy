/**
 * The admin "add job" form: four fields, a displayed error, and a submit handler that
 * drives the jobs slice through start, then success or failure.
 */
module AddJobPage {
  import opened Wrappers
  import opened Ui
  import JobsSlice

  /** A form field's value: the raw text, or the number `Number(text)` gives (kept symbolic). */
  datatype FieldValue = Text(text: string) | NumberOf(source: string)

  type Form = map<string, FieldValue>

  /** All four fields empty, as on first render and after a successful submit. */
  const EmptyForm: Form :=
    map["company" := Text(""), "title" := Text(""), "description" := Text(""), "salary" := Text("")]

  const DefaultCreateError := "Failed to create job"

  /** The value `handleChange` stores: `salary` is converted to a number, other fields keep their text. */
  function FieldFor(name: string, value: string): (v: FieldValue)
    ensures v.NumberOf? <==> name == "salary"
    ensures v == Text(value) || v == NumberOf(value)
  {
    if name == "salary" then NumberOf(value) else Text(value)
  }

  /** How the server answered `POST /jobs`: the created job, or a failure with the body's `error` field. */
  datatype PostOutcome = Created(job: JobsSlice.Job) | Failed(serverError: Option<string>)

  /** `err.response?.data?.error || 'Failed to create job'`: never empty, the server's text when it sent one. */
  function CreateErrorMessage(serverError: Option<string>): (m: string)
    ensures m != ""
    ensures Truthy(serverError) ==> m == serverError.value
    ensures !Truthy(serverError) ==> m == DefaultCreateError
  {
    OrElse(serverError, DefaultCreateError)
  }

  /** The action the submit handler dispatches once the request has settled. */
  function SettleAction(outcome: PostOutcome): (a: JobsSlice.JobsAction)
    ensures outcome.Created? <==> a.CreateJobSuccess?
    ensures outcome.Created? ==> a == JobsSlice.CreateJobSuccess(outcome.job)
    ensures outcome.Failed? ==> a == JobsSlice.CreateJobFailure(CreateErrorMessage(outcome.serverError))
  {
    match outcome
    case Created(job) => JobsSlice.CreateJobSuccess(job)
    case Failed(e) => JobsSlice.CreateJobFailure(CreateErrorMessage(e))
  }

  /** A submit leaves the slice as start-then-settle does: not loading, list and error as the outcome says. */
  lemma SubmitSettlesSlice(s: JobsSlice.JobsState, outcome: PostOutcome)
    ensures var t := JobsSlice.Reduce(JobsSlice.Reduce(s, JobsSlice.CreateJobStart), SettleAction(outcome));
      && !t.loading
      && (outcome.Created? ==> t.jobs == s.jobs + [outcome.job] && t.error == None)
      && (outcome.Failed? ==> t.jobs == s.jobs && t.error == Some(CreateErrorMessage(outcome.serverError)))
  {
  }

  class AddJob {
    var form: Form
    var error: string
    /** The bodies sent to `POST /jobs`, oldest first. */
    var posted: seq<Form>
    /** The slice state and the displayed error at the moment the last request was sent. */
    ghost var sliceAtRequest: JobsSlice.JobsState
    ghost var errorAtRequest: string
    const store: JobsSlice.JobsStore

    constructor (store: JobsSlice.JobsStore)
      ensures form == EmptyForm && error == "" && posted == [] && this.store == store
    {
      form := EmptyForm;
      error := "";
      posted := [];
      this.store := store;
      sliceAtRequest := store.State();
      errorAtRequest := "";
    }

    /** `handleChange`: updates only the named field. */
    method HandleChange(name: string, value: string)
      modifies this`form
      ensures form == Updated(old(form), name, FieldFor(name, value))
    {
      form := form[name := FieldFor(name, value)];
    }

    /**
     * `handleSubmit`: clears the error and dispatches the start before the request goes
     * out; on success dispatches the created job and resets the form, on failure
     * dispatches and shows the message and keeps the form.
     */
    method HandleSubmit(outcome: PostOutcome)
      modifies this`error, this`form, this`posted, this`sliceAtRequest, this`errorAtRequest, store
      ensures posted == old(posted) + [old(form)]
      ensures errorAtRequest == "" && sliceAtRequest == JobsSlice.Reduce(old(store.State()), JobsSlice.CreateJobStart)
      ensures store.State() == JobsSlice.Reduce(sliceAtRequest, SettleAction(outcome))
      ensures outcome.Created? ==> form == EmptyForm && error == ""
      ensures outcome.Failed? ==> form == old(form) && error == CreateErrorMessage(outcome.serverError)
    {
      error := "";
      store.CreateJobStart();
      sliceAtRequest, errorAtRequest := store.State(), error;
      posted := posted + [form];
      match outcome {
        case Created(job) =>
          store.CreateJobSuccess(job);
          form := EmptyForm;
        case Failed(e) =>
          var message := CreateErrorMessage(e);
          store.CreateJobFailure(message);
          error := message;
      }
    }
  }
}
