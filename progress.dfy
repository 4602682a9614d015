/**
 * The pull-progress renderer (`InstallModel` in internal/tui/tui.go): a state
 * machine driven by the daemon's stream of pull responses, key presses and
 * window resizes. It turns raw status tokens into labels, prints a completed
 * line for the previous label whenever the status changes, tracks whether a
 * byte count is being downloaded, and stops on "success", on a quit key or on
 * an error message. Spinners, the progress bar's animation and all styling
 * are reduced to the effects they are asked for.
 */
module Progress {
  import opened Wrappers

  /** One decoded pull response; `total` and `completed` count bytes of the current layer. */
  datatype Response = Response(status: string, digest: string, total: int, completed: int)

  datatype Msg =
    | KeyMsg(key: string)
    | WindowSizeMsg(width: int, height: int)
    | ProgressErrMsg(err: string)
    | ResponseMsg(response: Response)
    | FrameMsg
    | SpinnerTickMsg
    | OtherMsg

  /** What one call of `Update` asks the runtime for, in order. */
  datatype Effect =
    | StartSpinner            // a fresh spinner's first tick
    | PrintDone(line: string) // a check-mark line with a finished step's label
    | PauseThenQuit           // the final pause, then quit
    | SetPercent(completed: int, total: int)
    | Quit
    | AnimateProgress
    | SpinSpinner

  /**
   * The renderer's fields: the error it ends with, the current label, the raw
   * token it came from, whether a byte count is shown, the bar width and how
   * many spinners have been started (the spinner itself is random).
   */
  datatype RenderState = RenderState(err: Option<string>, status: string, rawStatus: string,
                                     isDownloading: bool, progressWidth: int, spinners: nat)

  const Padding := 2
  const MaxWidth := 80
  const QuitMessage := "user quit mid download :("

  /** The renderer before the first message. */
  const Initial := RenderState(None, "", "", false, 0, 0)

  /** The label shown for a raw status token. */
  function StatusLabel(raw: string): (text: string)
    ensures |text| > 0
  {
    if raw == "pulling manifest" then "Pulling manifest..."
    else if raw == "verifying sha256 digest" then "Verifying sha256 digest..."
    else if raw == "writing manifest" then "Writing manifest..."
    else if raw == "removing any unused layers" then "Removing any unused layers..."
    else if raw == "success" then "Success!"
    else "Downloading... (" + raw + ") "
  }

  const DownloadingPrefix := "Downloading... ("
  const DownloadingSuffix := ") "

  /** The raw token a label was made from: the inverse of `StatusLabel`. */
  function RawStatus(text: string): Option<string>
  {
    if text == "Pulling manifest..." then Some("pulling manifest")
    else if text == "Verifying sha256 digest..." then Some("verifying sha256 digest")
    else if text == "Writing manifest..." then Some("writing manifest")
    else if text == "Removing any unused layers..." then Some("removing any unused layers")
    else if text == "Success!" then Some("success")
    else if |text| >= |DownloadingPrefix| + |DownloadingSuffix| &&
            text[..|DownloadingPrefix|] == DownloadingPrefix &&
            text[|text| - |DownloadingSuffix|..] == DownloadingSuffix
    then Some(text[|DownloadingPrefix|..|text| - |DownloadingSuffix|])
    else None
  }

  /** A downloading label is none of the fixed labels: they all begin with another letter. */
  lemma NotFixedLabel(text: string)
    requires |text| > 0 && text[0] == 'D'
    ensures text != "Pulling manifest..." && text != "Verifying sha256 digest..." && text != "Writing manifest..."
    ensures text != "Removing any unused layers..." && text != "Success!"
  {
    assert "Pulling manifest..."[0] == 'P' && "Verifying sha256 digest..."[0] == 'V';
    assert "Writing manifest..."[0] == 'W' && "Removing any unused layers..."[0] == 'R' && "Success!"[0] == 'S';
  }

  /** The downloading label of `raw` reads back as `raw`. */
  lemma DownloadingRoundTrip(raw: string)
    ensures RawStatus(DownloadingPrefix + raw + DownloadingSuffix) == Some(raw)
  {
    var text := DownloadingPrefix + raw + DownloadingSuffix;
    assert text[0] == 'D';
    NotFixedLabel(text);
    assert text[..|DownloadingPrefix|] == DownloadingPrefix;
    assert text[|text| - |DownloadingSuffix|..] == DownloadingSuffix;
    assert text[|DownloadingPrefix|..|text| - |DownloadingSuffix|] == raw;
  }

  /** Every raw token is recovered from its label, so distinct tokens get distinct labels. */
  lemma LabelRoundTrip(raw: string)
    ensures RawStatus(StatusLabel(raw)) == Some(raw)
  {
    if raw !in {"pulling manifest", "verifying sha256 digest", "writing manifest",
                "removing any unused layers", "success"} {
      assert StatusLabel(raw) == DownloadingPrefix + raw + DownloadingSuffix;
      DownloadingRoundTrip(raw);
    }
  }

  lemma LabelInjective(a: string, b: string)
    ensures StatusLabel(a) == StatusLabel(b) ==> a == b
  {
    LabelRoundTrip(a);
    LabelRoundTrip(b);
  }

  function Min(a: int, b: int): int { if a <= b then a else b }

  /** The effects of a response that changes the status: new spinner, the finished line, the final pause. */
  function ChangeEffects(s: RenderState, raw: string): seq<Effect>
  {
    [StartSpinner] + (if s.status != "" then [PrintDone(s.status)] else []) +
    (if raw == "success" then [PauseThenQuit] else [])
  }

  /** A pull response. */
  function OnResponse(s: RenderState, r: Response): (RenderState, seq<Effect>)
  {
    var changed := s.rawStatus != r.status;
    var s1 := if changed then s.(status := StatusLabel(r.status), spinners := s.spinners + 1) else s;
    var e1 := if changed then ChangeEffects(s, r.status) else [];
    (s1.(isDownloading := r.total != 0, rawStatus := r.status),
     e1 + (if r.total != 0 then [SetPercent(r.completed, r.total)] else []))
  }

  /** One call of `Update`: the reference definition. */
  function Step(s: RenderState, msg: Msg): (RenderState, seq<Effect>)
  {
    match msg
    case KeyMsg(k) =>
      if k == "ctrl+c" || k == "q" || k == "esc" then (s.(err := Some(QuitMessage)), [Quit]) else (s, [])
    case WindowSizeMsg(w, _) => (s.(progressWidth := Min(w - Padding * 2 - 4, MaxWidth)), [])
    case ProgressErrMsg(e) => (s.(err := Some(e)), [Quit])
    case ResponseMsg(r) => OnResponse(s, r)
    case FrameMsg => (s, [AnimateProgress])
    case SpinnerTickMsg => (s, [SpinSpinner])
    case OtherMsg => (s, [])
  }

  /** What `View` draws: nothing, or the spinner and label with or without the progress bar. */
  datatype Screen = Blank | StatusLine(text: string, withBar: bool)

  function View(s: RenderState): Screen
  {
    if s.err.Some? then Blank
    else if s.rawStatus == "success" then Blank
    else StatusLine(s.status, s.isDownloading)
  }

  /** Quit keys record the user's quit as the error and quit; every other key changes nothing. */
  lemma KeysQuitOrIgnored(s: RenderState, k: string)
    ensures var (t, e) := Step(s, KeyMsg(k));
      (k in {"ctrl+c", "q", "esc"} ==> t == s.(err := Some(QuitMessage)) && e == [Quit] && View(t) == Blank) &&
      (k !in {"ctrl+c", "q", "esc"} ==> t == s && e == [])
  {
  }

  /** An error message becomes the renderer's error, blanks the view and quits. */
  lemma ErrorQuits(s: RenderState, err: string)
    ensures var (t, e) := Step(s, ProgressErrMsg(err));
      t.err == Some(err) && e == [Quit] && View(t) == Blank &&
      t.status == s.status && t.rawStatus == s.rawStatus
  {
  }

  /** A resize sets the bar to the window width less padding, at most 80, and changes nothing else. */
  lemma ResizeBar(s: RenderState, w: int, h: int)
    ensures var (t, e) := Step(s, WindowSizeMsg(w, h));
      t.progressWidth <= MaxWidth && t.progressWidth <= w - 8 &&
      (t.progressWidth == MaxWidth || t.progressWidth == w - 8) &&
      t == s.(progressWidth := t.progressWidth) && e == []
  {
  }

  /**
   * A response: afterwards the raw token is the response's and a byte count is
   * shown exactly when `total` is non-zero, with the percentage set only then.
   * Repeating the current token keeps the label and the spinner. A new token
   * gets its label and a fresh spinner, and the previous label is printed as
   * finished unless there was none yet; "success" schedules the final pause and quit.
   */
  lemma ResponseEffects(s: RenderState, r: Response)
    ensures var (t, e) := Step(s, ResponseMsg(r));
      t.rawStatus == r.status && t.isDownloading == (r.total != 0) && t.err == s.err &&
      t.progressWidth == s.progressWidth &&
      (SetPercent(r.completed, r.total) in e <==> r.total != 0) &&
      (s.rawStatus == r.status ==> t.status == s.status && t.spinners == s.spinners && StartSpinner !in e) &&
      (s.rawStatus != r.status ==>
        t.status == StatusLabel(r.status) && t.spinners == s.spinners + 1 && e[0] == StartSpinner &&
        (PrintDone(s.status) in e <==> s.status != "") &&
        (PauseThenQuit in e <==> r.status == "success"))
    ensures var (t, e) := Step(s, ResponseMsg(r));
      Quit !in e && (forall x :: x in e && x.PrintDone? ==> x.line == s.status)
  {
  }

  /** Once "success" has arrived, or an error is set, the view is blank. */
  lemma SuccessBlanksView(s: RenderState, r: Response)
    requires r.status == "success"
    ensures View(Step(s, ResponseMsg(r)).0) == Blank
  {
  }

  /** The raw tokens of a response stream. */
  function Statuses(rs: seq<Response>): seq<string>
  {
    if rs == [] then [] else [rs[0].status] + Statuses(rs[1..])
  }

  /** The tokens at which the status changes, starting from the current token `raw`. */
  function Changes(raw: string, tokens: seq<string>): seq<string>
    decreases |tokens|
  {
    if tokens == [] then []
    else if tokens[0] == raw then Changes(raw, tokens[1..])
    else [tokens[0]] + Changes(tokens[0], tokens[1..])
  }

  /** The labels printed as finished, for a current label and the changes to come. */
  function PrintedFrom(text: string, changes: seq<string>): seq<string>
    decreases |changes|
  {
    if changes == [] then []
    else (if text == "" then [] else [text]) + PrintedFrom(StatusLabel(changes[0]), changes[1..])
  }

  /** Feed a stream of responses to the renderer, collecting every effect. */
  function Feed(s: RenderState, rs: seq<Response>): (RenderState, seq<Effect>)
    decreases |rs|
  {
    if rs == [] then (s, [])
    else
      var (t, e) := Step(s, ResponseMsg(rs[0]));
      var (u, f) := Feed(t, rs[1..]);
      (u, e + f)
  }

  /** The labels of the finished-step lines among some effects. */
  function Printed(effects: seq<Effect>): seq<string>
  {
    if effects == [] then []
    else (if effects[0].PrintDone? then [effects[0].line] else []) + Printed(effects[1..])
  }

  lemma {:induction false} PrintedAppend(a: seq<Effect>, b: seq<Effect>)
    ensures Printed(a + b) == Printed(a) + Printed(b)
  {
    if a == [] {
      assert a + b == b;
    } else {
      assert (a + b)[0] == a[0] && (a + b)[1..] == a[1..] + b;
      PrintedAppend(a[1..], b);
    }
  }

  /**
   * Over a whole stream, the finished lines are the labels the renderer
   * passes through, each printed when the next change arrives: the current
   * label first (when there is one) and then the label of every change but the last.
   */
  lemma {:induction false} FeedPrints(s: RenderState, rs: seq<Response>)
    ensures Printed(Feed(s, rs).1) == PrintedFrom(s.status, Changes(s.rawStatus, Statuses(rs)))
    decreases |rs|
  {
    if rs != [] {
      var (t, e) := Step(s, ResponseMsg(rs[0]));
      FeedPrints(t, rs[1..]);
      PrintedAppend(e, Feed(t, rs[1..]).1);
      assert Statuses(rs)[1..] == Statuses(rs[1..]);
      ResponsePrints(s, rs[0]);
    }
  }

  /** A response prints the current label exactly when it changes the status and there is a label. */
  lemma ResponsePrints(s: RenderState, r: Response)
    ensures Printed(OnResponse(s, r).1) == (if s.rawStatus == r.status || s.status == "" then [] else [s.status])
  {
    var e := OnResponse(s, r).1;
    var tail := if r.total != 0 then [SetPercent(r.completed, r.total)] else [];
    assert Printed(tail) == [];
    if s.rawStatus == r.status {
      assert e == [] + tail;
    } else {
      var c := ChangeEffects(s, r.status);
      assert e == c + tail;
      PrintedAppend(c, tail);
      var one := if s.status != "" then [PrintDone(s.status)] else [];
      var last := if r.status == "success" then [PauseThenQuit] else [];
      PrintedAppend([StartSpinner] + one, last);
      PrintedAppend([StartSpinner], one);
    }
  }

  /** From a fresh renderer, the finished lines are the labels of every status change but the last. */
  lemma {:induction false} FreshFeedPrints(rs: seq<Response>)
    ensures var d := Changes("", Statuses(rs));
      Printed(Feed(Initial, rs).1) == (if d == [] then [] else LabelsOf(d[..|d| - 1]))
  {
    FeedPrints(Initial, rs);
    PrintedFromFresh(Changes("", Statuses(rs)));
  }

  function LabelsOf(tokens: seq<string>): seq<string>
  {
    if tokens == [] then [] else [StatusLabel(tokens[0])] + LabelsOf(tokens[1..])
  }

  lemma {:induction false} PrintedFromLabel(text: string, d: seq<string>)
    requires text != "" && d != []
    ensures PrintedFrom(text, d) == [text] + LabelsOf(d[..|d| - 1])
    decreases |d|
  {
    if |d| > 1 {
      PrintedFromLabel(StatusLabel(d[0]), d[1..]);
      assert d[1..][..|d[1..]| - 1] == d[..|d| - 1][1..];
    } else {
      assert d[..|d| - 1] == [];
    }
  }

  lemma DropLastCons<T>(d: seq<T>)
    requires |d| > 1
    ensures d[..|d| - 1] == [d[0]] + d[1..][..|d| - 2]
  {
  }

  lemma LabelsOfCons(token: string, tokens: seq<string>)
    ensures LabelsOf([token] + tokens) == [StatusLabel(token)] + LabelsOf(tokens)
  {
    assert ([token] + tokens)[1..] == tokens;
  }

  lemma PrintedFromFresh(d: seq<string>)
    ensures PrintedFrom("", d) == (if d == [] then [] else LabelsOf(d[..|d| - 1]))
  {
    if |d| > 1 {
      var rest := d[1..];
      PrintedFromLabel(StatusLabel(d[0]), rest);
      DropLastCons(d);
      LabelsOfCons(d[0], rest[..|rest| - 1]);
    } else if |d| == 1 {
      assert d[..0] == [];
    }
  }

  /** The renderer object the pull loop drives. */
  class InstallModel {
    var err: Option<string>
    var status: string
    var rawStatus: string
    var isDownloading: bool
    var progressWidth: int
    var spinners: nat

    function State(): RenderState
      reads this
    {
      RenderState(err, status, rawStatus, isDownloading, progressWidth, spinners)
    }

    constructor ()
      ensures State() == Initial
    {
      err := None;
      status := "";
      rawStatus := "";
      isDownloading := false;
      progressWidth := 0;
      spinners := 0;
    }

    /** `Update`: handle one message in place and return the requested effects. */
    method Update(msg: Msg) returns (effects: seq<Effect>)
      modifies this
      ensures (State(), effects) == Step(old(State()), msg)
    {
      effects := [];
      match msg {
        case KeyMsg(k) =>
          if k == "ctrl+c" || k == "q" || k == "esc" {
            err := Some(QuitMessage);
            effects := [Quit];
          }
        case WindowSizeMsg(w, _) =>
          progressWidth := w - Padding * 2 - 4;
          if progressWidth > MaxWidth {
            progressWidth := MaxWidth;
          }
        case ProgressErrMsg(e) =>
          err := Some(e);
          effects := [Quit];
        case ResponseMsg(r) =>
          effects := Receive(r);
        case FrameMsg =>
          effects := [AnimateProgress];
        case SpinnerTickMsg =>
          effects := [SpinSpinner];
        case OtherMsg =>
      }
    }

    /** The response branch of `Update`. */
    method Receive(r: Response) returns (effects: seq<Effect>)
      modifies this
      ensures (State(), effects) == OnResponse(old(State()), r)
    {
      ghost var s0 := State();
      effects := [];
      if rawStatus != r.status {
        spinners := spinners + 1;
        effects := effects + [StartSpinner];
        if status != "" {
          effects := effects + [PrintDone(status)];
        }
        if r.status == "success" {
          status := "Success!";
          effects := effects + [PauseThenQuit];
        } else {
          status := StatusLabel(r.status);
        }
        assert effects == ChangeEffects(s0, r.status);
      }
      isDownloading := r.total != 0;
      rawStatus := r.status;
      if isDownloading {
        effects := effects + [SetPercent(r.completed, r.total)];
      }
      assert effects == OnResponse(s0, r).1;
      assert State() == OnResponse(s0, r).0;
    }
  }
}
