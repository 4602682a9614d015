/**
 * `Run` of manager/manager.go: after the picker, it settles the target model
 * (asking for a tag on the install tab), then issues at most one request to
 * the daemon — a pull, a delete, or a generate request that keeps a running
 * model loaded or frees it — and returns the selector's action, the target
 * and the error. The picker, the tag spinner, the forms, the progress
 * program and the daemon client are inputs. This revision uses the tab names
 * of tabs/tabs.go.
 */
module Manager {
  import opened Wrappers
  import opened GoStrings
  import Tags
  import Install

  /** The tabs of this revision (tabs/tabs.go). */
  datatype Tab = InstallTab | RunningTab | InstalledTab

  /** The actions on installed models (tabs/tabs.go). */
  datatype InstalledAction = Chat | Update | Delete

  /** What the picker returned: its error, or the action, the manage action and the three selected names. */
  datatype Pick = PickFailed(err: string)
                | Picked(action: Option<Tab>, manageAction: Option<InstalledAction>,
                         installableName: string, installedName: string, runningName: string)

  /** The tag spinner: its failure, or the outcome of the tag download. */
  datatype TagFetch = SpinnerFailed(err: string) | TagPage(page: Result<string>)

  /** The tag form: its failure, or the chosen tag and the confirmation. */
  datatype TagForm = FormFailed(err: string) | Answered(tag: string, confirm: bool)

  /** The form for a running model: its failure, or the chosen option and the confirmation. */
  datatype RunningForm = RunningFormFailed(err: string) | RunningAnswered(choice: string, confirm: bool)

  /** The progress program: its failure, or the `Err` of the renderer it returned. */
  datatype ProgramRun = ProgramFailed(err: string) | ProgramDone(rendererErr: Option<string>)

  /** The daemon client: it could not be created, the call failed, or the call succeeded. */
  datatype ClientOutcome = ClientFailed(err: string) | CallFailed(err: string) | CallOk

  /** A request to the daemon; `keepAlive` is the keep-alive duration of a generate request. */
  datatype DaemonOp = PullRequest(model: string) | DeleteRequest(model: string) | GenerateRequest(model: string, keepAlive: int)

  /** `Run`'s named results. */
  datatype RunResult = RunResult(action: Option<Tab>, manageAction: Option<InstalledAction>,
                                 modelName: string, err: Option<string>)

  const PickFailure := "failed to pick a model :("
  const Declined := "see you"
  const ClientFailure := "failed to initialize client: "
  const DeleteFailure := "failed to delete model: "
  const LoadFailure := "failed to load model: "
  const FreeFailure := "failed to free model: "

  /** Keep-alive of `loadModel` (forever) and `freeModel` (unload now). */
  const KeepForever := -1
  const UnloadNow := 0

  /** The error for a model without tags (note the two spaces). */
  function NoTagsError(name: string): string
  {
    "couldn't load tags for " + name + "  :("
  }

  /** The picker failed or selected nothing. */
  predicate Failed(pick: Pick)
  {
    pick.PickFailed? || (pick.installableName == "" && pick.installedName == "" && pick.runningName == "")
  }

  /** The request a call makes: none when the client cannot be created. */
  function Issued(client: ClientOutcome, op: DaemonOp): (r: Option<DaemonOp>)
    ensures r.Some? <==> !client.ClientFailed?
    ensures r.Some? ==> r.value == op
  {
    if client.ClientFailed? then None else Some(op)
  }

  /** The error of `deleteModel`, `loadModel` or `freeModel`, whose own failure message is `failure`. */
  function ClientCall(client: ClientOutcome, failure: string): (r: Option<string>)
    ensures r.None? <==> client == CallOk
    ensures client.ClientFailed? ==> r == Some(ClientFailure + client.err)
    ensures client.CallFailed? ==> r == Some(failure + client.err)
  {
    match client
    case ClientFailed(e) => Some(ClientFailure + e)
    case CallFailed(e) => Some(failure + e)
    case CallOk => None
  }

  /** The install tab's target: `name:tag`, or the error that stops `Run`. */
  function InstallTarget(name: string, fetch: TagFetch, form: TagForm): Result<string>
  {
    match fetch
    case SpinnerFailed(e) => Err(e)
    case TagPage(page) =>
      if page.Err? then Err(page.error)
      else if Tags.TagsOf(Split(page.value, "\n"), name) == [] then Err(NoTagsError(name))
      else
        match form
        case FormFailed(e) => Err(e)
        case Answered(tag, confirm) => if confirm then Ok(name + ":" + tag) else Err(Declined)
  }

  /** The results once the operation ran: the selector's actions, the target and the operation's error. */
  function Done(pick: Pick, name: string, err: Option<string>): RunResult
    requires pick.Picked?
  {
    RunResult(pick.action, pick.manageAction, name, err)
  }

  /** A pull's results: the program's own failure returns early (the actions stay zero), otherwise the renderer's error. */
  function AfterPull(pick: Pick, target: string, program: ProgramRun): RunResult
    requires pick.Picked?
  {
    match program
    case ProgramFailed(e) => RunResult(None, None, target, Some(e))
    case ProgramDone(e) => Done(pick, target, e)
  }

  /** The tag flow of the install tab. */
  method ChooseTarget(name: string, fetch: TagFetch, form: TagForm) returns (r: Result<string>)
    ensures r == InstallTarget(name, fetch, form)
  {
    if fetch.SpinnerFailed? {
      return Err(fetch.err);
    }
    var modelTags := Tags.GetAvailableTags(name, fetch.page);
    if modelTags.Err? {
      return Err(modelTags.error);
    }
    if |modelTags.value| == 0 {
      return Err(NoTagsError(name));
    }
    if form.FormFailed? {
      return Err(form.err);
    }
    if !form.confirm {
      return Err(Declined);
    }
    return Ok(name + ":" + form.tag);
  }

  /** The running tab: the form, then at most one generate request. */
  method RunningOperation(pick: Pick, form: RunningForm, client: ClientOutcome) returns (res: RunResult, op: Option<DaemonOp>)
    requires pick.Picked?
    ensures var name := pick.runningName;
      match form
      case RunningFormFailed(e) => op == None && res == RunResult(None, None, name, Some(e))
      case RunningAnswered(choice, confirm) =>
        if confirm && choice == "load" then
          op == Issued(client, GenerateRequest(name, KeepForever)) && res == Done(pick, name, ClientCall(client, LoadFailure))
        else if confirm && choice == "free" then
          op == Issued(client, GenerateRequest(name, UnloadNow)) && res == Done(pick, name, ClientCall(client, FreeFailure))
        else op == None && res == Done(pick, name, None)
  {
    var modelName := pick.runningName;
    op := None;
    if form.RunningFormFailed? {
      return RunResult(None, None, modelName, Some(form.err)), None;
    }
    var actionErr: Option<string> := None;
    if form.confirm {
      if form.choice == "load" {
        op := Issued(client, GenerateRequest(modelName, KeepForever));
        actionErr := ClientCall(client, LoadFailure);
      } else if form.choice == "free" {
        op := Issued(client, GenerateRequest(modelName, UnloadNow));
        actionErr := ClientCall(client, FreeFailure);
      } else if form.choice == "none" {
        actionErr := None;
      }
    }
    res := Done(pick, modelName, actionErr);
  }

  /** The installed tab: update pulls the model again, delete removes it, chat does nothing. */
  method InstalledOperation(pick: Pick, program: ProgramRun, client: ClientOutcome) returns (res: RunResult, op: Option<DaemonOp>)
    requires pick.Picked?
    ensures var name := pick.installedName;
      match pick.manageAction
      case Some(Update) => op == Issued(client, PullRequest(name)) && res == AfterPull(pick, name, program)
      case Some(Delete) => op == Issued(client, DeleteRequest(name)) && res == Done(pick, name, ClientCall(client, DeleteFailure))
      case _ => op == None && res == Done(pick, name, None)
  {
    var modelName := pick.installedName;
    op := None;
    var actionErr: Option<string> := None;
    if pick.manageAction == Some(Update) {
      op := Issued(client, PullRequest(modelName));
      if program.ProgramFailed? {
        return RunResult(None, None, modelName, Some(program.err)), op;
      }
      actionErr := program.rendererErr;
    } else if pick.manageAction == Some(Delete) {
      op := Issued(client, DeleteRequest(modelName));
      actionErr := ClientCall(client, DeleteFailure);
    }
    res := Done(pick, modelName, actionErr);
  }

  /** `Run`: the target, the single daemon request (if any) and the four named results. */
  method Run(pick: Pick, fetch: TagFetch, form: TagForm, program: ProgramRun,
             runningForm: RunningForm, client: ClientOutcome)
    returns (res: RunResult, op: Option<DaemonOp>)
    ensures Failed(pick) ==> res == RunResult(None, None, "", Some(PickFailure)) && op == None
    ensures !Failed(pick) && pick.action == Some(InstallTab) ==>
      var name := pick.installableName;
      match InstallTarget(name, fetch, form)
      case Err(e) => res == RunResult(None, None, name, Some(e)) && op == None
      case Ok(target) => op == Issued(client, PullRequest(target)) && res == AfterPull(pick, target, program)
    ensures !Failed(pick) && pick.action == Some(InstalledTab) ==>
      var name := pick.installedName;
      match pick.manageAction
      case Some(Update) => op == Issued(client, PullRequest(name)) && res == AfterPull(pick, name, program)
      case Some(Delete) => op == Issued(client, DeleteRequest(name)) && res == Done(pick, name, ClientCall(client, DeleteFailure))
      case _ => op == None && res == Done(pick, name, None)
    ensures !Failed(pick) && pick.action == Some(RunningTab) ==>
      var name := pick.runningName;
      match runningForm
      case RunningFormFailed(e) => op == None && res == RunResult(None, None, name, Some(e))
      case RunningAnswered(choice, confirm) =>
        if confirm && choice == "load" then
          op == Issued(client, GenerateRequest(name, KeepForever)) && res == Done(pick, name, ClientCall(client, LoadFailure))
        else if confirm && choice == "free" then
          op == Issued(client, GenerateRequest(name, UnloadNow)) && res == Done(pick, name, ClientCall(client, FreeFailure))
        else op == None && res == Done(pick, name, None)
    ensures !Failed(pick) && pick.action == None ==> op == None && res == Done(pick, pick.installedName, None)
  {
    if pick.PickFailed? || (pick.installableName == "" && pick.installedName == "" && pick.runningName == "") {
      return RunResult(None, None, "", Some(PickFailure)), None;
    }
    var modelName: string;
    if pick.action == Some(InstallTab) {
      modelName := pick.installableName;
      var target := ChooseTarget(modelName, fetch, form);
      if target.Err? {
        return RunResult(None, None, modelName, Some(target.error)), None;
      }
      modelName := target.value;
    } else {
      modelName := pick.installedName;
    }
    match pick.action {
      case Some(InstallTab) =>
        op := Issued(client, PullRequest(modelName));
        if program.ProgramFailed? {
          return RunResult(None, None, modelName, Some(program.err)), op;
        }
        res := Done(pick, modelName, program.rendererErr);
      case Some(InstalledTab) =>
        res, op := InstalledOperation(pick, program, client);
      case Some(RunningTab) =>
        res, op := RunningOperation(pick, runningForm, client);
      case None =>
        res, op := Done(pick, modelName, None), None;
    }
  }

  /** A confirmed install targets `name:tag` with a tag the user chose among at least one loaded tag. */
  lemma ConfirmedInstallTarget(name: string, fetch: TagFetch, form: TagForm)
    ensures InstallTarget(name, fetch, form).Ok? <==>
      fetch.TagPage? && fetch.page.Ok? && Tags.TagsOf(Split(fetch.page.value, "\n"), name) != [] &&
      form.Answered? && form.confirm
    ensures InstallTarget(name, fetch, form).Ok? ==> InstallTarget(name, fetch, form).value == name + ":" + form.tag
  {
  }

  /** The installed-model name an install produces splits back into the chosen name and tag. */
  lemma InstallTargetSplitsBack(name: string, fetch: TagFetch, form: TagForm)
    requires InstallTarget(name, fetch, form).Ok?
    requires ':' !in name && ':' !in form.tag
    ensures Install.SplitInstalledName(InstallTarget(name, fetch, form).value) == (name, form.tag)
  {
    Install.SplitInstalledNameRoundTrip(name, form.tag);
  }
}
