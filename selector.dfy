/**
 * The tabbed model selector (tui/model_selector.go): a key- and resize-driven
 * state machine over the active tab, the help overlay, the chosen action and
 * the three selection slots. `Step` is the reference definition of one call of
 * `Update`; the class `ModelSelector` updates its fields step by step as the
 * Go code does and is proved to agree with `Step`.
 *
 * The three list widgets are abstract: their items, cursor, filtering flag and
 * size. How a list reacts to a message it is handed (cursor movement, fuzzy
 * filtering) is a caller-supplied function `ListStep`.
 */
module Selector {
  import opened Wrappers

  /** The tabs of this revision of the selector. */
  datatype Tab = Install | Manage | Monitor

  /** The actions offered on the manage tab. */
  datatype ManageAction = Update | Delete | Chat

  /** The display name of a manage action. */
  function ActionName(a: ManageAction): string
  {
    match a
    case Update => "Update"
    case Delete => "Delete"
    case Chat => "Chat"
  }

  /** The single-letter key that picks a manage action directly. */
  function ShortcutAction(key: string): (r: Option<ManageAction>)
    ensures r.Some? <==> key in {"u", "d", "c"}
  {
    if key == "u" then Some(Update)
    else if key == "d" then Some(Delete)
    else if key == "c" then Some(Chat)
    else None
  }

  /** A model of the online catalog (the installable list). */
  datatype OllamaModel = OllamaModel(name: string, desc: string, pulls: string, tags: string,
                                     updated: string, extraInfo: seq<string>)

  /** A model already installed on the daemon (the manage list). */
  datatype InstalledModel = InstalledModel(name: string, modifiedAt: string, digest: string, size: int)

  /** A model currently loaded by the daemon (the monitor list). */
  datatype RunningModel = RunningModel(name: string, size: int, sizeVram: int, expiresAt: string)

  /** The zero values of the three records: what an untouched selection slot holds. */
  const NoOllamaModel := OllamaModel("", "", "", "", "", [])
  const NoInstalledModel := InstalledModel("", "", "", 0)
  const NoRunningModel := RunningModel("", 0, 0, "")

  /** A list item; the Go code recovers the record by a type assertion. */
  datatype Item = InstallableItem(installable: OllamaModel)
                | InstalledItem(installed: InstalledModel)
                | RunningItem(running: RunningModel)

  /** A list widget: its items, the highlighted index, whether the user is typing a filter, and its size. */
  datatype ListWidget = ListWidget(items: seq<Item>, cursor: int, filtering: bool, width: int, height: int)

  /** The highlighted item, or nil when the cursor is on no item (an empty or filtered-out list). */
  function SelectedItem(l: ListWidget): (r: Option<Item>)
    ensures r.Some? <==> 0 <= l.cursor < |l.items|
  {
    if 0 <= l.cursor < |l.items| then Some(l.items[l.cursor]) else None
  }

  /** How a list widget reacts to a message (library behaviour, supplied by the caller). */
  type ListStep = (ListWidget, Msg) -> ListWidget

  datatype Msg = KeyMsg(key: string) | WindowSizeMsg(width: int, height: int) | OtherMsg

  /**
   * What `Update` hands back to the runtime: nothing, quit, whatever the list
   * returned, or a panic (a failed type assertion on the highlighted item).
   */
  datatype Cmd = NoCmd | QuitCmd | ListCmd | Panic

  /** The fields of `ModelSelector`; the help widget is reduced to its width. */
  datatype SelectorState = SelectorState(
    installableList: ListWidget,
    installedList: ListWidget,
    runningList: ListWidget,
    helpWidth: int,
    selectedInstallable: OllamaModel,
    selectedRunning: RunningModel,
    selectedInstalled: InstalledModel,
    action: Option<Tab>,
    manageAction: Option<ManageAction>,
    tabs: seq<Tab>,
    approved: seq<ManageAction>,
    width: int,
    height: int,
    activeTab: int,
    infoVisible: bool,
    helpVisible: bool)

  /** A list freshly built from its items: cursor on the first item, not filtering, not yet sized. */
  function NewList(items: seq<Item>): ListWidget
  {
    ListWidget(items, 0, false, 0, 0)
  }

  /** A selector before its first message: the given lists and configuration, every other field zero. */
  function Initial(installable: ListWidget, installed: ListWidget, running: ListWidget,
                   tabs: seq<Tab>, approved: seq<ManageAction>): SelectorState
  {
    SelectorState(installable, installed, running, 0, NoOllamaModel, NoRunningModel,
                  NoInstalledModel, None, None, tabs, approved, 0, 0, 0, false, false)
  }

  /** `Update` indexes `Tabs` by `ActiveTab`: the active tab must exist. */
  predicate Valid(s: SelectorState)
  {
    0 <= s.activeTab < |s.tabs|
  }

  datatype Outcome = Outcome(state: SelectorState, cmd: Cmd)

  /** The margin around the whole view (one cell on every side) and the border of a tab. */
  const DocFrame := 2
  const TabFrame := 2

  /** Go's `/` on `int`: truncates toward zero, so the remainder takes the sign of the dividend. */
  function GoQuot(a: int, b: int): (q: int)
    requires b > 0
    ensures a >= 0 ==> 0 <= a - q * b < b
    ensures a < 0 ==> -b < a - q * b <= 0
  {
    if a >= 0 then a / b
    else
      var n := -a;
      assert n == b * (n / b) + n % b;
      -(n / b)
  }

  function Min(a: int, b: int): int { if a <= b then a else b }
  function Max(a: int, b: int): int { if a >= b then a else b }

  /** The list that belongs to the active tab (the manage list for anything but install and monitor). */
  function ActiveList(s: SelectorState): ListWidget
    requires Valid(s)
  {
    match s.tabs[s.activeTab]
    case Install => s.installableList
    case Monitor => s.runningList
    case Manage => s.installedList
  }

  /** Replace the active tab's list. */
  function WithActiveList(s: SelectorState, l: ListWidget): SelectorState
    requires Valid(s)
  {
    match s.tabs[s.activeTab]
    case Install => s.(installableList := l)
    case Monitor => s.(runningList := l)
    case Manage => s.(installedList := l)
  }

  /** The tail of `Update`: unless the help overlay is up, the active list gets the message. */
  function Forward(s: SelectorState, msg: Msg, listStep: ListStep): Outcome
    requires Valid(s)
  {
    if s.helpVisible then Outcome(s, NoCmd)
    else Outcome(WithActiveList(s, listStep(ActiveList(s), msg)), ListCmd)
  }

  /**
   * `SetSelectedModel`: record the active tab's kind as the action and copy
   * the highlighted item into that kind's slot; install is tested first, then
   * monitor, then manage. `None` is the panic of a nil or mistyped item.
   */
  function Select(s: SelectorState, installAction: bool, manageAction: bool, monitorAction: bool): Option<SelectorState>
  {
    if installAction then
      match SelectedItem(s.installableList)
      case Some(InstallableItem(m)) => Some(s.(action := Some(Install), selectedInstallable := m))
      case _ => None
    else if monitorAction then
      match SelectedItem(s.runningList)
      case Some(RunningItem(m)) => Some(s.(action := Some(Monitor), selectedRunning := m))
      case _ => None
    else if manageAction then
      match SelectedItem(s.installedList)
      case Some(InstalledItem(m)) => Some(s.(action := Some(Manage), selectedInstalled := m))
      case _ => None
    else Some(s)
  }

  /** Select for the active tab and quit, or panic. */
  function Commit(s: SelectorState): Outcome
    requires Valid(s)
  {
    var tab := s.tabs[s.activeTab];
    match Select(s, tab == Install, tab == Manage, tab == Monitor)
    case Some(t) => Outcome(t, QuitCmd)
    case None => Outcome(s, Panic)
  }

  /** Set the list size only when the list's tab is configured. */
  function Resized(l: ListWidget, configured: bool, width: int, height: int): ListWidget
  {
    if configured then l.(width := width, height := height) else l
  }

  /** The width of each list: three fifths of the content width when the info panel shows beside it. */
  function ListWidth(width: int): int
  {
    if width > 90 then 3 * width / 5 else width
  }

  /** The width of the help line: four fifths of the content width, truncated toward zero. */
  function HelpWidth(width: int): int
  {
    GoQuot(8 * width, 10)
  }

  /** The resize branch of `Update` (before the message is forwarded): the new frame, then the lists. */
  function Resize(s: SelectorState, w: int, h: int): SelectorState
  {
    ResizeLists(ResizeFrame(s, w, h))
  }

  /** The content size, the info panel and the help width follow the window. */
  function ResizeFrame(s: SelectorState, w: int, h: int): SelectorState
  {
    var width := w - DocFrame - 2;
    s.(height := h - DocFrame - 1, width := width, infoVisible := width > 90, helpWidth := HelpWidth(width))
  }

  /** Each configured list takes the list width and the height below the tab row. */
  function ResizeLists(s: SelectorState): SelectorState
  {
    var listWidth := ListWidth(s.width);
    var listHeight := s.height - TabFrame;
    s.(installableList := Resized(s.installableList, Install in s.tabs, listWidth, listHeight),
       runningList := Resized(s.runningList, Monitor in s.tabs, listWidth, listHeight),
       installedList := Resized(s.installedList, Manage in s.tabs, listWidth, listHeight))
  }

  /** A key while the help overlay is up: quit, close the overlay, or hand the key to the list. */
  function OverlayKey(s: SelectorState, k: string, listStep: ListStep): Outcome
    requires Valid(s)
  {
    if k == "ctrl+c" || k == "q" then Outcome(s, QuitCmd)
    else if k == "?" || k == "esc" then Outcome(s.(helpVisible := !s.helpVisible), NoCmd)
    else Forward(s, KeyMsg(k), listStep)
  }

  /** A key while browsing the lists. */
  function BrowseKey(s: SelectorState, k: string, listStep: ListStep): Outcome
    requires Valid(s)
  {
    if k == "ctrl+c" || k == "q" || k == "esc" then Outcome(s, QuitCmd)
    else if k == "?" then Outcome(s.(helpVisible := !s.helpVisible), NoCmd)
    else if k == "n" || k == "tab" then
      var t := Min(s.activeTab + 1, |s.tabs| - 1);
      Outcome(s.(activeTab := t, action := Some(s.tabs[t])), NoCmd)
    else if k == "p" || k == "shift+tab" then
      var t := Max(s.activeTab - 1, 0);
      Outcome(s.(activeTab := t, action := Some(s.tabs[t])), NoCmd)
    else SelectKey(s, k, listStep)
  }

  /** The selecting keys while browsing: an approved action's shortcut on the manage tab, or `enter`. */
  function SelectKey(s: SelectorState, k: string, listStep: ListStep): Outcome
    requires Valid(s)
  {
    if ShortcutAction(k).Some? then
      var a := ShortcutAction(k).value;
      if s.tabs[s.activeTab] == Manage && a in s.approved then Commit(s.(manageAction := Some(a)))
      else Forward(s, KeyMsg(k), listStep)
    else if k == "enter" then Commit(s)
    else Forward(s, KeyMsg(k), listStep)
  }

  /** One call of `Update`: the reference definition. */
  function Step(s: SelectorState, msg: Msg, listStep: ListStep): Outcome
    requires Valid(s)
  {
    match msg
    case KeyMsg(k) =>
      if s.installableList.filtering || s.installedList.filtering then Forward(s, msg, listStep)
      else if s.helpVisible then OverlayKey(s, k, listStep)
      else BrowseKey(s, k, listStep)
    case WindowSizeMsg(w, h) => Forward(Resize(s, w, h), msg, listStep)
    case OtherMsg => Forward(s, msg, listStep)
  }

  /** The selection-related fields are the same in both states. */
  predicate SameSelection(s: SelectorState, t: SelectorState)
  {
    t.selectedInstallable == s.selectedInstallable && t.selectedRunning == s.selectedRunning &&
    t.selectedInstalled == s.selectedInstalled && t.action == s.action && t.manageAction == s.manageAction
  }

  /** No call of `Update` changes the configured tabs or approved actions, or leaves the active tab out of range. */
  lemma StepKeepsConfiguration(s: SelectorState, msg: Msg, listStep: ListStep)
    requires Valid(s)
    ensures Valid(Step(s, msg, listStep).state)
    ensures Step(s, msg, listStep).state.tabs == s.tabs
    ensures Step(s, msg, listStep).state.approved == s.approved
  {
    ForwardKeepsConfiguration(s, msg, listStep);
    match msg
    case KeyMsg(k) =>
      CommitKeepsConfiguration(s);
      if ShortcutAction(k).Some? {
        CommitKeepsConfiguration(s.(manageAction := ShortcutAction(k)));
      }
    case WindowSizeMsg(w, h) =>
      ForwardKeepsConfiguration(Resize(s, w, h), msg, listStep);
    case OtherMsg =>
  }

  /** Handing a message to the active list keeps the configuration. */
  lemma ForwardKeepsConfiguration(s: SelectorState, msg: Msg, listStep: ListStep)
    requires Valid(s)
    ensures var t := Forward(s, msg, listStep).state;
      Valid(t) && t.tabs == s.tabs && t.approved == s.approved && t.activeTab == s.activeTab
  {
  }

  /** Committing a selection keeps the configuration. */
  lemma CommitKeepsConfiguration(s: SelectorState)
    requires Valid(s)
    ensures var t := Commit(s).state;
      Valid(t) && t.tabs == s.tabs && t.approved == s.approved && t.activeTab == s.activeTab
  {
  }

  /**
   * Tab keys outside help: `n`/`tab` move right and `p`/`shift+tab` left,
   * clamped to the first and last tab (no wrap-around); the action follows the
   * tab and the program goes on.
   */
  lemma TabKeysClamp(s: SelectorState, k: string, listStep: ListStep)
    requires Valid(s) && !s.installableList.filtering && !s.installedList.filtering && !s.helpVisible
    requires k in {"n", "tab", "p", "shift+tab"}
    ensures var o := Step(s, KeyMsg(k), listStep);
      var t := if k in {"n", "tab"} then Min(s.activeTab + 1, |s.tabs| - 1) else Max(s.activeTab - 1, 0);
      o.cmd == NoCmd && o.state == s.(activeTab := t, action := Some(s.tabs[t])) &&
      0 <= t < |s.tabs| && (k in {"n", "tab"} ==> s.activeTab <= t) && (k in {"p", "shift+tab"} ==> t <= s.activeTab)
  {
  }

  /** Outside help, `ctrl+c`, `q` and `esc` quit and change nothing. */
  lemma QuitKeys(s: SelectorState, k: string, listStep: ListStep)
    requires Valid(s) && !s.installableList.filtering && !s.installedList.filtering && !s.helpVisible
    requires k in {"ctrl+c", "q", "esc"}
    ensures Step(s, KeyMsg(k), listStep) == Outcome(s, QuitCmd)
  {
  }

  /**
   * With the help overlay up, only `ctrl+c` and `q` quit, `?` and `esc` close
   * the overlay, and any other key changes nothing and reaches no list.
   */
  lemma HelpOverlayKeys(s: SelectorState, k: string, listStep: ListStep)
    requires Valid(s) && !s.installableList.filtering && !s.installedList.filtering && s.helpVisible
    ensures var o := Step(s, KeyMsg(k), listStep);
      (k in {"ctrl+c", "q"} ==> o == Outcome(s, QuitCmd)) &&
      (k in {"?", "esc"} ==> o == Outcome(s.(helpVisible := false), NoCmd)) &&
      (k !in {"ctrl+c", "q", "?", "esc"} ==> o == Outcome(s, NoCmd))
  {
  }

  /**
   * While the installable or installed list is filtering, no key quits,
   * switches tab or selects: the key goes to the active list (unless help is up).
   */
  lemma FilteringCapturesKeys(s: SelectorState, k: string, listStep: ListStep)
    requires Valid(s) && (s.installableList.filtering || s.installedList.filtering)
    ensures var o := Step(s, KeyMsg(k), listStep);
      o.cmd != QuitCmd && o.cmd != Panic && o.state.activeTab == s.activeTab &&
      SameSelection(s, o.state) && o.state.helpVisible == s.helpVisible &&
      (s.helpVisible ==> o.state == s) &&
      (!s.helpVisible ==> o.state == WithActiveList(s, listStep(ActiveList(s), KeyMsg(k))))
  {
  }

  /** A filtering running list does not hold keys back: `q` still quits. */
  lemma RunningFilterDoesNotCapture(s: SelectorState, listStep: ListStep)
    requires Valid(s) && !s.installableList.filtering && !s.installedList.filtering
    requires s.runningList.filtering
    ensures Step(s, KeyMsg("q"), listStep).cmd == QuitCmd
  {
  }

  /**
   * `u`, `d` and `c` outside help: when the manage tab is active and the
   * action is approved, they set the manage action, select the highlighted
   * installed model and quit (or panic on a missing item); otherwise no
   * selection field changes, the program goes on and the key goes to the list.
   */
  lemma ShortcutGate(s: SelectorState, k: string, listStep: ListStep)
    requires Valid(s) && !s.installableList.filtering && !s.installedList.filtering && !s.helpVisible
    requires k in {"u", "d", "c"}
    ensures var a := ShortcutAction(k).value;
      var o := Step(s, KeyMsg(k), listStep);
      var fires := s.tabs[s.activeTab] == Manage && a in s.approved;
      (fires ==> (o.cmd == QuitCmd || o.cmd == Panic)) &&
      (fires && o.cmd == QuitCmd ==>
         o.state.manageAction == Some(a) && o.state.action == Some(Manage) &&
         SelectedItem(s.installedList) == Some(InstalledItem(o.state.selectedInstalled)) &&
         o.state.selectedInstallable == s.selectedInstallable && o.state.selectedRunning == s.selectedRunning) &&
      (fires && o.cmd == Panic <==> fires && !(SelectedItem(s.installedList).Some? && SelectedItem(s.installedList).value.InstalledItem?)) &&
      (!fires ==> o.cmd == ListCmd && SameSelection(s, o.state) && o.state.activeTab == s.activeTab)
  {
  }

  /**
   * `enter` outside help: the action becomes the active tab's kind and only
   * that kind's slot is filled, from the highlighted item; the program quits.
   * It panics exactly when the active list highlights no item of its kind.
   */
  lemma EnterFillsOneSlot(s: SelectorState, listStep: ListStep)
    requires Valid(s) && !s.installableList.filtering && !s.installedList.filtering && !s.helpVisible
    ensures var o := Step(s, KeyMsg("enter"), listStep);
      var tab := s.tabs[s.activeTab];
      var item := SelectedItem(ActiveList(s));
      var fits := item.Some? && match tab
        case Install => item.value.InstallableItem?
        case Monitor => item.value.RunningItem?
        case Manage => item.value.InstalledItem?;
      (o.cmd == Panic <==> !fits) &&
      (fits ==>
        o.cmd == QuitCmd && o.state.action == Some(tab) && o.state.manageAction == s.manageAction &&
        (tab == Install ==> item == Some(InstallableItem(o.state.selectedInstallable))) &&
        (tab == Monitor ==> item == Some(RunningItem(o.state.selectedRunning))) &&
        (tab == Manage ==> item == Some(InstalledItem(o.state.selectedInstalled))) &&
        (tab != Install ==> o.state.selectedInstallable == s.selectedInstallable) &&
        (tab != Monitor ==> o.state.selectedRunning == s.selectedRunning) &&
        (tab != Manage ==> o.state.selectedInstalled == s.selectedInstalled))
  {
  }

  /** A list after a resize: resized when its tab is configured, untouched otherwise; items, cursor and filter kept. */
  predicate ResizedTo(before: ListWidget, after: ListWidget, configured: bool, width: int, height: int)
  {
    after.items == before.items && after.cursor == before.cursor && after.filtering == before.filtering &&
    (configured ==> after.width == width && after.height == height) &&
    (!configured ==> after == before)
  }

  /**
   * The resize branch: the inner size is the window less the frame, the info
   * pane shows exactly when the inner width exceeds 90, lists then take three
   * fifths of that width (all of it otherwise), the help overlay takes eight
   * tenths truncated toward zero, and only lists whose tab is configured are
   * resized. Selection, tab and overlay are untouched; the message then goes
   * to the active list as any other would.
   */
  lemma ResizeLayout(s: SelectorState, w: int, h: int, listStep: ListStep)
    requires Valid(s)
    ensures var r := Resize(s, w, h);
      var listWidth := if r.width > 90 then 3 * r.width / 5 else r.width;
      r.width == w - 4 && r.height == h - 3 &&
      r.infoVisible == (r.width > 90) &&
      (r.infoVisible ==> listWidth < r.width) &&
      (r.width >= 0 ==> 0 <= 10 * r.helpWidth <= 8 * r.width < 10 * r.helpWidth + 10) &&
      (r.width < 0 ==> 10 * r.helpWidth - 10 < 8 * r.width <= 10 * r.helpWidth <= 0) &&
      ResizedTo(s.installableList, r.installableList, Install in s.tabs, listWidth, r.height - 2) &&
      ResizedTo(s.runningList, r.runningList, Monitor in s.tabs, listWidth, r.height - 2) &&
      ResizedTo(s.installedList, r.installedList, Manage in s.tabs, listWidth, r.height - 2) &&
      SameSelection(s, r) && r.activeTab == s.activeTab && r.tabs == s.tabs && r.helpVisible == s.helpVisible
    ensures Step(s, WindowSizeMsg(w, h), listStep) == Forward(Resize(s, w, h), WindowSizeMsg(w, h), listStep)
  {
  }

  /** The selector object: the runtime hands every message to `Update`. */
  class ModelSelector {
    var installableList: ListWidget
    var installedList: ListWidget
    var runningList: ListWidget
    var helpWidth: int
    var selectedInstallable: OllamaModel
    var selectedRunning: RunningModel
    var selectedInstalled: InstalledModel
    var action: Option<Tab>
    var manageAction: Option<ManageAction>
    var tabs: seq<Tab>
    var approved: seq<ManageAction>
    var width: int
    var height: int
    var activeTab: int
    var infoVisible: bool
    var helpVisible: bool

    /** The object's fields as a value. */
    function State(): SelectorState
      reads this
    {
      SelectorState(installableList, installedList, runningList, helpWidth,
                    selectedInstallable, selectedRunning, selectedInstalled,
                    action, manageAction, tabs, approved, width, height, activeTab, infoVisible, helpVisible)
    }

    /** A fresh selector as the picker builds it: given lists and configuration, empty slots, first tab. */
    constructor (installable: ListWidget, installed: ListWidget, running: ListWidget,
                 tabs: seq<Tab>, approved: seq<ManageAction>)
      ensures State() == Initial(installable, installed, running, tabs, approved)
    {
      installableList := installable;
      installedList := installed;
      runningList := running;
      helpWidth := 0;
      selectedInstallable := NoOllamaModel;
      selectedRunning := NoRunningModel;
      selectedInstalled := NoInstalledModel;
      action := None;
      manageAction := None;
      this.tabs := tabs;
      this.approved := approved;
      width := 0;
      height := 0;
      activeTab := 0;
      infoVisible := false;
      helpVisible := false;
    }

    /** `SetSelectedModel`; `panicked` reports the failed type assertion. */
    method SetSelectedModel(installAction: bool, manageAction: bool, monitorAction: bool) returns (panicked: bool)
      modifies this
      ensures panicked <==> Select(old(State()), installAction, manageAction, monitorAction).None?
      ensures !panicked ==> State() == Select(old(State()), installAction, manageAction, monitorAction).value
    {
      panicked := false;
      if installAction {
        action := Some(Install);
        var item := SelectedItem(installableList);
        if item.Some? && item.value.InstallableItem? {
          selectedInstallable := item.value.installable;
        } else {
          panicked := true;
        }
      } else if monitorAction {
        action := Some(Monitor);
        var item := SelectedItem(runningList);
        if item.Some? && item.value.RunningItem? {
          selectedRunning := item.value.running;
        } else {
          panicked := true;
        }
      } else if manageAction {
        action := Some(Manage);
        var item := SelectedItem(installedList);
        if item.Some? && item.value.InstalledItem? {
          selectedInstalled := item.value.installed;
        } else {
          panicked := true;
        }
      }
    }

    /** `Update`: handle one message in place; after a panic the fields are not specified. */
    method Update(msg: Msg, listStep: ListStep) returns (cmd: Cmd)
      requires Valid(State())
      modifies this
      ensures cmd == Step(old(State()), msg, listStep).cmd
      ensures cmd != Panic ==> State() == Step(old(State()), msg, listStep).state
    {
      match msg {
        case KeyMsg(k) =>
          cmd := HandleKey(k, listStep);
        case WindowSizeMsg(w, h) =>
          ApplyResize(w, h);
          cmd := ForwardToList(msg, listStep);
        case OtherMsg =>
          cmd := ForwardToList(msg, listStep);
      }
    }

    /** The key branch of `Update`. */
    method HandleKey(k: string, listStep: ListStep) returns (cmd: Cmd)
      requires Valid(State())
      modifies this
      ensures cmd == Step(old(State()), KeyMsg(k), listStep).cmd
      ensures cmd != Panic ==> State() == Step(old(State()), KeyMsg(k), listStep).state
    {
      if installableList.filtering || installedList.filtering {
        cmd := ForwardToList(KeyMsg(k), listStep);
      } else if helpVisible {
        cmd := HandleOverlayKey(k, listStep);
      } else {
        cmd := HandleBrowseKey(k, listStep);
      }
    }

    /** A key while the help overlay is up. */
    method HandleOverlayKey(k: string, listStep: ListStep) returns (cmd: Cmd)
      requires Valid(State())
      modifies this
      ensures cmd == OverlayKey(old(State()), k, listStep).cmd
      ensures State() == OverlayKey(old(State()), k, listStep).state
    {
      if k == "ctrl+c" || k == "q" {
        return QuitCmd;
      } else if k == "?" || k == "esc" {
        helpVisible := !helpVisible;
        return NoCmd;
      }
      cmd := ForwardToList(KeyMsg(k), listStep);
    }

    /** A key while browsing the lists. */
    method HandleBrowseKey(k: string, listStep: ListStep) returns (cmd: Cmd)
      requires Valid(State())
      modifies this
      ensures cmd == BrowseKey(old(State()), k, listStep).cmd
      ensures cmd != Panic ==> State() == BrowseKey(old(State()), k, listStep).state
    {
      if k == "ctrl+c" || k == "q" || k == "esc" {
        return QuitCmd;
      } else if k == "?" {
        helpVisible := !helpVisible;
        return NoCmd;
      } else if k == "n" || k == "tab" {
        activeTab := Min(activeTab + 1, |tabs| - 1);
        action := Some(tabs[activeTab]);
        return NoCmd;
      } else if k == "p" || k == "shift+tab" {
        activeTab := Max(activeTab - 1, 0);
        action := Some(tabs[activeTab]);
        return NoCmd;
      }
      cmd := HandleSelectKey(k, listStep);
    }

    /** The selecting keys while browsing. */
    method HandleSelectKey(k: string, listStep: ListStep) returns (cmd: Cmd)
      requires Valid(State())
      modifies this
      ensures cmd == SelectKey(old(State()), k, listStep).cmd
      ensures cmd != Panic ==> State() == SelectKey(old(State()), k, listStep).state
    {
      var installAction := tabs[activeTab] == Install;
      var manageTab := tabs[activeTab] == Manage;
      var monitorAction := tabs[activeTab] == Monitor;
      if ShortcutAction(k).Some? {
        if manageTab && ShortcutAction(k).value in approved {
          manageAction := ShortcutAction(k);
          var panicked := SetSelectedModel(installAction, manageTab, monitorAction);
          return if panicked then Panic else QuitCmd;
        }
      } else if k == "enter" {
        var panicked := SetSelectedModel(installAction, manageTab, monitorAction);
        return if panicked then Panic else QuitCmd;
      }
      cmd := ForwardToList(KeyMsg(k), listStep);
    }

    /** The resize branch of `Update`. */
    method ApplyResize(w: int, h: int)
      modifies this
      ensures State() == Resize(old(State()), w, h)
    {
      ResizeFrameTo(w, h);
      ResizeConfiguredLists();
    }

    /** The frame half of the resize branch. */
    method ResizeFrameTo(w: int, h: int)
      modifies this
      ensures State() == ResizeFrame(old(State()), w, h)
    {
      height := h - DocFrame - 1;
      width := w - DocFrame - 2;
      infoVisible := width > 90;
      helpWidth := HelpWidth(width);
    }

    /** The list-resizing half of the resize branch. */
    method ResizeConfiguredLists()
      modifies this
      ensures State() == ResizeLists(old(State()))
    {
      var listWidth := ListWidth(width);
      var listHeight := height - TabFrame;
      installableList := Resized(installableList, Install in tabs, listWidth, listHeight);
      runningList := Resized(runningList, Monitor in tabs, listWidth, listHeight);
      installedList := Resized(installedList, Manage in tabs, listWidth, listHeight);
    }

    /** The tail of `Update`: the active list gets the message unless help is up. */
    method ForwardToList(msg: Msg, listStep: ListStep) returns (cmd: Cmd)
      requires Valid(State())
      modifies this
      ensures (State(), cmd) == (Forward(old(State()), msg, listStep).state, Forward(old(State()), msg, listStep).cmd)
    {
      cmd := NoCmd;
      if !helpVisible {
        if tabs[activeTab] == Install {
          installableList := listStep(installableList, msg);
        } else if tabs[activeTab] == Monitor {
          runningList := listStep(runningList, msg);
        } else {
          installedList := listStep(installedList, msg);
        }
        cmd := ListCmd;
      }
    }
  }
}
