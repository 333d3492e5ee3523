/** The project-creation form: the input guard, the request to the task
    generator with its error classification, the review list's expansion
    toggle and the construction of the new project. The request's transport
    result is a parameter; a delivered response carries the generator's list. */
module ProjectCreation {
  import opened Wrappers
  import opened Types
  import Decimal
  import TaskGenerator
  import Expansion

  const TimeoutMessage: string := "Request timed out. Please try again."
  const ServerErrorPrefix: string := "Server error: "
  // The two longer sentences are split so that their characters can be indexed in proofs.
  const NoResponseMessage: string := "No response from server." + " Please check your network connection."
  const UnexpectedMessage: string := "An unexpected error occurred." + " Please try again."
  const MissingInputMessage: string := "Please provide both project name and template before generating tasks."

  /** What the HTTP client rejected with: an axios error with its code, the
      response's status if one arrived and whether a request was sent, or
      any other thrown value. */
  datatype RequestError =
    | AxiosError(code: string, response: Option<nat>, requestSent: bool)
    | OtherError

  /** The four kinds of failure the form distinguishes. */
  datatype FailureKind = Timeout | ServerError(status: nat) | NoResponse | Unexpected

  /** The timeout code wins over a response, and a response wins over a bare request. */
  function Classify(e: RequestError): (f: FailureKind)
    ensures e.AxiosError? && e.code == "ECONNABORTED" ==> f == Timeout
    ensures e.AxiosError? && e.code != "ECONNABORTED" && e.response.Some? ==> f == ServerError(e.response.value)
    ensures e.AxiosError? && e.code != "ECONNABORTED" && e.response.None? && e.requestSent ==> f == NoResponse
    ensures f == Unexpected <==>
      e.OtherError? || (e.code != "ECONNABORTED" && e.response.None? && !e.requestSent)
  {
    match e
    case OtherError => Unexpected
    case AxiosError(code, response, requestSent) =>
      if code == "ECONNABORTED" then Timeout
      else if response.Some? then ServerError(response.value)
      else if requestSent then NoResponse
      else Unexpected
  }

  /** The text shown for a failed request: a fixed sentence per kind, and for
      an HTTP error status the prefix followed by the status in decimal. */
  function Message(f: FailureKind): (r: string)
    ensures |r| > 0
    ensures f.ServerError? ==>
      && |r| > |ServerErrorPrefix|
      && r[..|ServerErrorPrefix|] == ServerErrorPrefix
      && r[|ServerErrorPrefix|..] == Decimal.Decimal(f.status)
    ensures !f.ServerError? ==> r in {TimeoutMessage, NoResponseMessage, UnexpectedMessage}
    ensures f == Timeout ==> r == TimeoutMessage
    ensures f == NoResponse ==> r == NoResponseMessage
    ensures f == Unexpected ==> r == UnexpectedMessage
  {
    match f
    case Timeout => TimeoutMessage
    case ServerError(status) => ServerErrorPrefix + Decimal.Decimal(status)
    case NoResponse => NoResponseMessage
    case Unexpected => UnexpectedMessage
  }

  /** The first character tells a server error ('S') from the other messages. */
  lemma MessageLead(f: FailureKind)
    ensures |Message(f)| > 0
    ensures Message(f)[0] == 'S' <==> f.ServerError?
  {
    match f
    case Timeout => assert TimeoutMessage[0] == 'R';
    case ServerError(_) => assert ServerErrorPrefix[0] == 'S';
    case NoResponse => assert NoResponseMessage[0] == 'N';
    case Unexpected => assert UnexpectedMessage[0] == 'A';
  }

  /** Distinct kinds of failure, and distinct server statuses, are shown
      with distinct messages. */
  lemma MessageInjective(f: FailureKind, g: FailureKind)
    ensures Message(f) == Message(g) ==> f == g
  {
    if Message(f) == Message(g) {
      MessageLead(f);
      MessageLead(g);
      if f.ServerError? {
        assert Message(f)[|ServerErrorPrefix|..] == Decimal.Decimal(f.status);
        assert Message(g)[|ServerErrorPrefix|..] == Decimal.Decimal(g.status);
        Decimal.DecimalInjective(f.status, g.status);
      }
    }
  }

  /** How the request to the generator ended. */
  datatype Transport = Delivered | Rejected(error: RequestError)

  /** The client's task request: the generator's list, or the classified
      error message. */
  function RequestTasks(projectName: string, template: string, transport: Transport): (r: Result<seq<Task>, string>)
    ensures transport.Delivered? ==> r == Success(TaskGenerator.GenerateTasks(projectName, template))
    ensures transport.Rejected? ==> r == Failure(Message(Classify(transport.error)))
  {
    match transport
    case Delivered => Success(TaskGenerator.GenerateTasks(projectName, template))
    case Rejected(e) => Failure(Message(Classify(e)))
  }

  datatype Form = Form(
    projectName: string,
    template: string,
    generatedTasks: seq<Task>,
    showTaskReview: bool,
    expandedTasks: seq<string>,
    error: string)

  /** The form as first rendered: every field empty, review closed. */
  const EmptyForm: Form := Form("", "", [], false, [], "")

  /** Pressing "Generate Tasks". Missing input sets the guard message and
      sends nothing; otherwise a delivered list opens the review with the
      error cleared, and a failure shows its message. */
  function HandleGenerateTasks(f: Form, transport: Transport): (r: Form)
    ensures r.projectName == f.projectName && r.template == f.template
    ensures r.expandedTasks == f.expandedTasks
    ensures f.projectName == "" || f.template == "" ==>
      r == f.(error := MissingInputMessage)
    ensures f.projectName != "" && f.template != "" && transport.Delivered? ==>
      && r.generatedTasks == TaskGenerator.GenerateTasks(f.projectName, f.template)
      && r.showTaskReview && r.error == ""
    ensures f.projectName != "" && f.template != "" && transport.Rejected? ==>
      && r.generatedTasks == f.generatedTasks && r.showTaskReview == f.showTaskReview
      && r.error == Message(Classify(transport.error))
  {
    var cleared := f.(error := "");
    if f.projectName == "" || f.template == "" then cleared.(error := MissingInputMessage)
    else
      match RequestTasks(f.projectName, f.template, transport)
      case Success(tasks) => cleared.(generatedTasks := tasks, showTaskReview := true)
      case Failure(message) => cleared.(error := message)
  }

  /** With missing input the transport result has no influence: no request is made. */
  lemma GuardSendsNothing(f: Form, t1: Transport, t2: Transport)
    requires f.projectName == "" || f.template == ""
    ensures HandleGenerateTasks(f, t1) == HandleGenerateTasks(f, t2)
    ensures HandleGenerateTasks(f, t1).error == MissingInputMessage
  {
  }

  /** Pressing "Generate Tasks" on the untouched form only shows the guard
      message: no list is generated and the review stays closed. */
  lemma GenerateFromEmptyForm(transport: Transport)
    ensures var r := HandleGenerateTasks(EmptyForm, transport);
      && r.error == MissingInputMessage
      && !r.showTaskReview
      && r.generatedTasks == []
  {
  }

  const ProjectRoot: string := "/home/project/AI Coder System/"
  const DefaultSubmodules: seq<string> := ["Setup", "Frontend", "Backend", "Database"]

  /** Pressing "Create Project": the project built from the form, with the
      creation time `now` (milliseconds) as its id, and the review closed. */
  function HandleCreateProject(f: Form, now: nat): (r: (Form, Project))
    ensures r.1.id == Decimal.Decimal(now)
    ensures r.1.name == f.projectName
    ensures |r.1.path| == |ProjectRoot| + |f.projectName|
    ensures r.1.path[..|ProjectRoot|] == ProjectRoot && r.1.path[|ProjectRoot|..] == f.projectName
    ensures r.1.tasks == f.generatedTasks
    ensures r.1.submodules == DefaultSubmodules
    ensures r.0 == f.(showTaskReview := false)
  {
    var project := Project(Decimal.Decimal(now), f.projectName, ProjectRoot + f.projectName,
                           f.generatedTasks, DefaultSubmodules);
    (f.(showTaskReview := false), project)
  }

  function ToggleTaskExpansion(f: Form, taskId: string): (r: Form)
    ensures taskId in r.expandedTasks <==> taskId !in f.expandedTasks
    ensures forall y | y != taskId :: y in r.expandedTasks <==> y in f.expandedTasks
    ensures taskId !in f.expandedTasks ==> r.expandedTasks == f.expandedTasks + [taskId]
    ensures r == f.(expandedTasks := r.expandedTasks)
  {
    f.(expandedTasks := Expansion.Toggle(f.expandedTasks, taskId))
  }

  /** Generating then creating yields a project with the seven generated
      pending tasks for the chosen template. */
  lemma GenerateThenCreate(f: Form, now: nat)
    requires f.projectName != "" && f.template != ""
    ensures var created := HandleCreateProject(HandleGenerateTasks(f, Delivered), now).1;
      && created.tasks == TaskGenerator.GenerateTasks(f.projectName, f.template)
      && |created.tasks| == 7
      && (forall i | 0 <= i < 7 :: created.tasks[i].status == Pending)
      && created.name == f.projectName
  {
  }
}
