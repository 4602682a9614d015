/**
 * The older install/update/delete flow of internal/install/install.go: the
 * status mapping of `deleteModel`, the split of an installed name into base
 * and tag, the loop that forwards the daemon's pull responses to the progress
 * renderer, and the decisions of `Run`. The picker, the tag spinner, the tag
 * form, the renderer program and the HTTP exchanges are inputs.
 */
module Install {
  import opened Wrappers
  import opened GoStrings
  import Tags
  import Progress

  /** What the HTTP layer did with the delete request. */
  datatype HttpOutcome = RequestFailed(err: string) | TransportFailed(err: string) | Replied(code: int)

  const NotFound := "model not found"
  const UnexpectedStatus := "unexpected status code: "

  /** `msg` ends with the wrapped error `err`. */
  predicate Wraps(msg: string, err: string)
  {
    |err| <= |msg| && msg[|msg| - |err|..] == err
  }

  /** `deleteModel`: the error it returns, or `None` for success. */
  function DeleteModel(outcome: HttpOutcome): (r: Option<string>)
    ensures r.None? <==> outcome == Replied(200)
    ensures outcome == Replied(404) ==> r == Some(NotFound)
    ensures !outcome.Replied? ==> r.Some? && Wraps(r.value, outcome.err)
  {
    match outcome
    case RequestFailed(e) => Some("failed to create new request: " + e)
    case TransportFailed(e) => Some("failed to perform request: " + e)
    case Replied(code) =>
      if code == 404 then Some(NotFound)
      else if code != 200 then Some(UnexpectedStatus + DecimalString(code))
      else None
  }

  /** Every status other than 200 and 404 is reported with its code, which the message gives back. */
  lemma UnexpectedStatusReported(code: int)
    requires code != 200 && code != 404
    ensures var r := DeleteModel(Replied(code));
      r.Some? && UnexpectedStatus <= r.value && ParseDecimal(r.value[|UnexpectedStatus|..]) == code
  {
    var r := DeleteModel(Replied(code));
    assert r.value[|UnexpectedStatus|..] == DecimalString(code);
    DecimalRoundTrip(code);
  }

  /** Distinct unexpected statuses give distinct errors. */
  lemma UnexpectedStatusInjective(a: int, b: int)
    requires a != 200 && a != 404 && b != 200 && b != 404
    requires DeleteModel(Replied(a)) == DeleteModel(Replied(b))
    ensures a == b
  {
    UnexpectedStatusReported(a);
    UnexpectedStatusReported(b);
  }

  /** An installed name `base:tag` splits into its base and tag; any other name is kept whole with tag `?`. */
  function SplitInstalledName(name: string): (r: (string, string))
    ensures |Split(name, ":")| == 2 ==> r.0 + ":" + r.1 == name && !Contains(r.0, ":") && !Contains(r.1, ":")
    ensures |Split(name, ":")| != 2 ==> r == (name, "?")
  {
    var info := Split(name, ":");
    if |info| == 2 then
      JoinSplit(name, ":");
      assert Join(info, ":") == info[0] + ":" + Join(info[1..], ":");
      SplitPiecesFree(name, ":", 0);
      SplitPiecesFree(name, ":", 1);
      (info[0], info[1])
    else (name, "?")
  }

  /** A colon-free text holds no occurrence of `:` at any position. */
  lemma NoColon(s: string, j: int)
    requires ':' !in s
    ensures !OccursAt(s, ":", j)
  {
    if 0 <= j && j + 1 <= |s| {
      assert s[j..j + 1][0] == s[j];
    }
  }

  /** Joining a colon-free base and tag with `:` and splitting again gives them back. */
  lemma {:induction false} SplitInstalledNameRoundTrip(base: string, tag: string)
    requires ':' !in base && ':' !in tag
    ensures SplitInstalledName(base + ":" + tag) == (base, tag)
  {
    var s := base + ":" + tag;
    assert s[|base|..|base| + 1] == ":";
    forall j | 0 <= j < |base|
      ensures !OccursAt(s, ":", j)
    {
      assert s[j] == base[j];
      NoColon(base, j);
    }
    FirstPiece(s, ":", |base|);
    assert s[..|base|] == base && s[|base| + 1..] == tag;
    forall j | 0 <= j
      ensures !OccursAt(tag, ":", j)
    {
      NoColon(tag, j);
    }
    assert IndexOf(tag, ":") == None;
    assert Split(s, ":") == [base, tag];
  }

  /** A name with no colon is kept whole, with tag `?`. */
  lemma UntaggedName(name: string)
    requires ':' !in name
    ensures SplitInstalledName(name) == (name, "?")
  {
    forall j | 0 <= j
      ensures !OccursAt(name, ":", j)
    {
      NoColon(name, j);
    }
    assert IndexOf(name, ":") == None;
  }

  /** One value read from the pull response body: a response, or the decoder's error. */
  datatype Decoded = Decoded(response: Progress.Response) | DecodeFailed(err: string)

  /** The decoder's error once the body is exhausted (`io.EOF`). */
  const EndOfStream := "EOF"

  /** The messages sent to the renderer and whether the loop quit the renderer itself. */
  datatype Forwarding = Forwarding(msgs: seq<Progress.Msg>, quit: bool)

  /**
   * The pull loop as written: each decoded response is sent; a `success`
   * response ends the loop after it is sent; a decode error (or the end of
   * the body) quits the renderer without telling it why.
   */
  function Forwarded(stream: seq<Decoded>): Forwarding
  {
    if stream == [] then Forwarding([], true)
    else match stream[0]
      case DecodeFailed(_) => Forwarding([], true)
      case Decoded(r) =>
        if r.status == "success" then Forwarding([Progress.ResponseMsg(r)], false)
        else
          var rest := Forwarded(stream[1..]);
          Forwarding([Progress.ResponseMsg(r)] + rest.msgs, rest.quit)
  }

  /** `Forwarded` on the suffix starting at `i`, unfolded once. */
  lemma ForwardedFrom(stream: seq<Decoded>, i: nat)
    requires i < |stream|
    ensures stream[i].DecodeFailed? ==> Forwarded(stream[i..]) == Forwarding([], true)
    ensures stream[i].Decoded? && stream[i].response.status == "success" ==>
      Forwarded(stream[i..]) == Forwarding([Progress.ResponseMsg(stream[i].response)], false)
    ensures stream[i].Decoded? && stream[i].response.status != "success" ==>
      Forwarded(stream[i..]) ==
        Forwarding([Progress.ResponseMsg(stream[i].response)] + Forwarded(stream[i + 1..]).msgs, Forwarded(stream[i + 1..]).quit)
  {
    assert stream[i..][0] == stream[i] && stream[i..][1..] == stream[i + 1..];
  }

  /** The pull goroutine's loop over the decoded body. */
  method ForwardPull(stream: seq<Decoded>) returns (sent: seq<Progress.Msg>, quit: bool)
    ensures Forwarding(sent, quit) == Forwarded(stream)
  {
    sent := [];
    var i := 0;
    while i < |stream|
      invariant 0 <= i <= |stream|
      invariant Forwarded(stream) == Forwarding(sent + Forwarded(stream[i..]).msgs, Forwarded(stream[i..]).quit)
    {
      ForwardedFrom(stream, i);
      if stream[i].DecodeFailed? {
        assert sent + [] == sent;
        return sent, true;
      }
      var r := stream[i].response;
      ghost var before := sent;
      sent := sent + [Progress.ResponseMsg(r)];
      if r.status == "success" {
        return sent, false;
      }
      assert before + ([Progress.ResponseMsg(r)] + Forwarded(stream[i + 1..]).msgs) == sent + Forwarded(stream[i + 1..]).msgs;
      i := i + 1;
    }
    assert stream[i..] == [];
    assert sent + [] == sent;
    return sent, true;
  }

  /**
   * What the loop forwards: responses in body order, one per decoded value
   * up to the first `success`, none after it; the loop quits the renderer
   * itself exactly when no `success` was forwarded, and then it stopped only
   * at the end of the body or at a value that failed to decode.
   */
  lemma {:induction false} ForwardedShape(stream: seq<Decoded>)
    ensures var f := Forwarded(stream);
      |f.msgs| <= |stream| &&
      (forall i :: 0 <= i < |f.msgs| ==> f.msgs[i].ResponseMsg? && stream[i] == Decoded(f.msgs[i].response)) &&
      (forall i :: 0 <= i < |f.msgs| - 1 ==> f.msgs[i].response.status != "success") &&
      (!f.quit <==> f.msgs != [] && f.msgs[|f.msgs| - 1].response.status == "success") &&
      (f.quit ==> |f.msgs| == |stream| || stream[|f.msgs|].DecodeFailed?)
  {
    if stream != [] && stream[0].Decoded? && stream[0].response.status != "success" {
      ForwardedShape(stream[1..]);
      var rest := Forwarded(stream[1..]);
      var f := Forwarded(stream);
      assert f.msgs == [Progress.ResponseMsg(stream[0].response)] + rest.msgs;
      forall i | 1 <= i < |f.msgs|
        ensures f.msgs[i] == rest.msgs[i - 1] && stream[i] == stream[1..][i - 1]
      {
      }
      if |rest.msgs| < |stream[1..]| {
        assert stream[|f.msgs|] == stream[1..][|rest.msgs|];
      }
    }
  }

  /** The renderer's state after a run of messages (effects dropped). */
  function Render(s: Progress.RenderState, msgs: seq<Progress.Msg>): Progress.RenderState
    decreases |msgs|
  {
    if msgs == [] then s else Render(Progress.Step(s, msgs[0]).0, msgs[1..])
  }

  /** Forwarded responses never set the renderer's error. */
  lemma {:induction false} ForwardedKeepsErr(s: Progress.RenderState, stream: seq<Decoded>)
    ensures Render(s, Forwarded(stream).msgs).err == s.err
    decreases |stream|
  {
    if stream != [] && stream[0].Decoded? {
      var r := stream[0].response;
      var t := Progress.Step(s, Progress.ResponseMsg(r)).0;
      if r.status == "success" {
        assert Forwarded(stream).msgs[1..] == [];
      } else {
        ForwardedKeepsErr(t, stream[1..]);
        assert Forwarded(stream).msgs[1..] == Forwarded(stream[1..]).msgs;
      }
    }
  }

  /**
   * As written, a pull that fails before `success` leaves the renderer with
   * no error, so `Run` reports the failed pull as a success.
   */
  lemma AsWrittenLosesFailure(stream: seq<Decoded>)
    ensures Render(Progress.Initial, Forwarded(stream).msgs).err == None
    ensures Forwarded([DecodeFailed(EndOfStream)]) == Forwarding([], true)
  {
    ForwardedKeepsErr(Progress.Initial, stream);
  }

  /**
   * The corrected loop: a decode error (or the end of the body) is sent to
   * the renderer as its error message, which sets its error and quits it.
   */
  function ForwardedReporting(stream: seq<Decoded>): Forwarding
  {
    if stream == [] then Forwarding([Progress.ProgressErrMsg(EndOfStream)], true)
    else match stream[0]
      case DecodeFailed(e) => Forwarding([Progress.ProgressErrMsg(e)], true)
      case Decoded(r) =>
        if r.status == "success" then Forwarding([Progress.ResponseMsg(r)], false)
        else
          var rest := ForwardedReporting(stream[1..]);
          Forwarding([Progress.ResponseMsg(r)] + rest.msgs, rest.quit)
  }

  /** The correction sends the same responses and adds only the error message at the end of a failed pull. */
  lemma {:induction false} ReportingExtendsForwarded(stream: seq<Decoded>)
    ensures var f := Forwarded(stream);
      var g := ForwardedReporting(stream);
      g.quit == f.quit && |g.msgs| >= 1 &&
      g.msgs[..|g.msgs| - 1] + (if f.quit then [] else [g.msgs[|g.msgs| - 1]]) == f.msgs &&
      (f.quit <==> g.msgs[|g.msgs| - 1].ProgressErrMsg?)
  {
    if stream != [] && stream[0].Decoded? && stream[0].response.status != "success" {
      ReportingExtendsForwarded(stream[1..]);
      var g := ForwardedReporting(stream);
      var g1 := ForwardedReporting(stream[1..]);
      assert g.msgs == [g.msgs[0]] + g1.msgs;
      assert g.msgs[..|g.msgs| - 1] == [g.msgs[0]] + g1.msgs[..|g1.msgs| - 1];
      assert g.msgs[|g.msgs| - 1] == g1.msgs[|g1.msgs| - 1];
    }
  }

  /** With the correction, the renderer ends with an error exactly when the pull did not reach `success`. */
  lemma {:induction false} ReportingFlagsFailure(s: Progress.RenderState, stream: seq<Decoded>)
    requires s.err == None
    ensures var g := ForwardedReporting(stream);
      Render(s, g.msgs).err.Some? <==> g.quit
    decreases |stream|
  {
    var g := ForwardedReporting(stream);
    if stream == [] || stream[0].DecodeFailed? {
      assert g.msgs[1..] == [];
    } else {
      var r := stream[0].response;
      var t := Progress.Step(s, Progress.ResponseMsg(r)).0;
      if r.status == "success" {
        assert g.msgs[1..] == [];
      } else {
        ReportingFlagsFailure(t, stream[1..]);
        assert g.msgs[1..] == ForwardedReporting(stream[1..]).msgs;
      }
    }
  }

  /** What the picker returned: its error, or the chosen action and the two model names. */
  datatype Pick = PickFailed(err: string) | Picked(action: string, installableName: string, installedName: string)

  /** The tag spinner: its own failure, or the outcome of the tag download. */
  datatype TagFetch = SpinnerFailed(err: string) | TagPage(page: Result<string>)

  /** The tag form: its failure, or the chosen tag and the confirmation. */
  datatype TagForm = FormFailed(err: string) | Answered(tag: string, confirm: bool)

  /** The renderer program: its own failure, or the `Err` of the renderer it returned. */
  datatype ProgramRun = ProgramFailed(err: string) | ProgramDone(rendererErr: Option<string>)

  /** The request `Run` sends to the daemon. */
  datatype DaemonOp = Pull(target: string) | Delete(target: string)

  /** `Run`'s four results: action, model name, tag and error. */
  datatype RunResult = RunResult(action: string, modelName: string, tag: string, err: Option<string>)

  const InstallAction := "Install"
  const UpdateAction := "Update"
  const PickFailure := "failed to pick a model :("
  const Declined := "see you"

  function Failure(err: string): RunResult
  {
    RunResult("", "", "", Some(err))
  }

  /** The error for a model without tags (note the two spaces). */
  function NoTagsError(name: string): string
  {
    "couldn't load tags for " + name + "  :("
  }

  /** The tags the spinner loaded, when it and the download succeeded. */
  function LoadedTags(name: string, fetch: TagFetch): Option<seq<string>>
  {
    if fetch.TagPage? && fetch.page.Ok? then Some(Tags.TagsOf(Split(fetch.page.value, "\n"), name)) else None
  }

  /** `Run`: the target of the operation, the single daemon request it makes (if any) and its results. */
  method Run(pick: Pick, fetch: TagFetch, form: TagForm, program: ProgramRun, deletion: HttpOutcome)
    returns (res: RunResult, op: Option<DaemonOp>)
    ensures pick.PickFailed? || (pick.installableName == "" && pick.installedName == "") ==>
      res == Failure(PickFailure) && op == None
    ensures pick.Picked? && (pick.installableName != "" || pick.installedName != "") && pick.action == InstallAction ==>
      var name := pick.installableName;
      (fetch.SpinnerFailed? ==> res == Failure(fetch.err) && op == None) &&
      (fetch.TagPage? && fetch.page.Err? ==> res == Failure(fetch.page.error) && op == None) &&
      (LoadedTags(name, fetch) == Some([]) ==> res == Failure(NoTagsError(name)) && op == None) &&
      (LoadedTags(name, fetch).Some? && LoadedTags(name, fetch) != Some([]) ==>
        (form.FormFailed? ==> res == Failure(form.err) && op == None) &&
        (form.Answered? && !form.confirm ==> res == Failure(Declined) && op == None) &&
        (form.Answered? && form.confirm ==>
          op == Some(Pull(name + ":" + form.tag)) &&
          res == (match program
                  case ProgramFailed(e) => Failure(e)
                  case ProgramDone(e) => RunResult(InstallAction, name, form.tag, e))))
    ensures pick.Picked? && (pick.installableName != "" || pick.installedName != "") && pick.action != InstallAction ==>
      var target := pick.installedName;
      var (base, tag) := SplitInstalledName(target);
      if pick.action == UpdateAction then
        op == Some(Pull(target)) &&
        res == (match program
                case ProgramFailed(e) => Failure(e)
                case ProgramDone(e) => RunResult(UpdateAction, base, tag, e))
      else
        op == Some(Delete(target)) && res == RunResult(pick.action, base, tag, DeleteModel(deletion))
  {
    op := None;
    if pick.PickFailed? || (pick.installableName == "" && pick.installedName == "") {
      return Failure(PickFailure), None;
    }
    var downloadingModel: string;
    var modelName: string;
    var tag: string;
    if pick.action == InstallAction {
      modelName := pick.installableName;
      if fetch.SpinnerFailed? {
        return Failure(fetch.err), None;
      }
      var modelTags := Tags.GetAvailableTags(modelName, fetch.page);
      if modelTags.Err? {
        return Failure(modelTags.error), None;
      }
      if |modelTags.value| == 0 {
        return Failure(NoTagsError(modelName)), None;
      }
      if form.FormFailed? {
        return Failure(form.err), None;
      }
      if !form.confirm {
        return Failure(Declined), None;
      }
      tag := form.tag;
      downloadingModel := modelName + ":" + tag;
    } else {
      downloadingModel := pick.installedName;
      var info := Split(downloadingModel, ":");
      if |info| == 2 {
        modelName := info[0];
        tag := info[1];
      } else {
        modelName := downloadingModel;
        tag := "?";
      }
    }
    var actionErr: Option<string>;
    if pick.action == InstallAction || pick.action == UpdateAction {
      op := Some(Pull(downloadingModel));
      if program.ProgramFailed? {
        return Failure(program.err), op;
      }
      actionErr := program.rendererErr;
    } else {
      op := Some(Delete(downloadingModel));
      actionErr := DeleteModel(deletion);
    }
    return RunResult(pick.action, modelName, tag, actionErr), op;
  }

  /**
   * `Run` for a picked update whose renderer sees only what the pull loop as
   * written sends: it pulls the model and returns no error whatever the body
   * held, a body that fails before `success` included.
   */
  method AsWrittenUpdateRun(name: string, stream: seq<Decoded>, fetch: TagFetch, form: TagForm, deletion: HttpOutcome)
    returns (res: RunResult, op: Option<DaemonOp>)
    requires name != ""
    ensures op == Some(Pull(name))
    ensures res.err == None
  {
    var rendererErr := Render(Progress.Initial, Forwarded(stream).msgs).err;
    AsWrittenLosesFailure(stream);
    res, op := Run(Picked(UpdateAction, "", name), fetch, form, ProgramDone(rendererErr), deletion);
  }

  /**
   * The same call with the corrected loop: `Run` returns an error exactly
   * when the loop as written would have quit the renderer itself, that is
   * when no `success` was forwarded.
   */
  method ReportingUpdateRun(name: string, stream: seq<Decoded>, fetch: TagFetch, form: TagForm, deletion: HttpOutcome)
    returns (res: RunResult, op: Option<DaemonOp>)
    requires name != ""
    ensures op == Some(Pull(name))
    ensures res.err.Some? <==> Forwarded(stream).quit
  {
    var rendererErr := Render(Progress.Initial, ForwardedReporting(stream).msgs).err;
    ReportingFlagsFailure(Progress.Initial, stream);
    ReportingExtendsForwarded(stream);
    res, op := Run(Picked(UpdateAction, "", name), fetch, form, ProgramDone(rendererErr), deletion);
  }
}
