/**
 * The older, single-list selector of internal/tui/manager.go. Its tabs are
 * plain strings and only the "Install" tab owns a list (of catalog models);
 * only `ctrl+c` and `q` quit and `enter` commits only on that tab. As in the
 * newer selector, `Step` is the reference definition of one call of
 * `Update` and the class is proved to agree with it.
 */
module LegacySelector {
  import opened Wrappers

  /** The tab name that owns the list. */
  const InstallTab: string := "Install"

  /** A catalog model as this revision records it. */
  datatype OllamaModel = OllamaModel(name: string, desc: string, pulls: string, tags: string, updated: string)

  const NoOllamaModel := OllamaModel("", "", "", "", "")

  /** The list widget: its models, the highlighted index, the filtering flag and its size. */
  datatype ListWidget = ListWidget(items: seq<OllamaModel>, cursor: int, filtering: bool, width: int, height: int)

  function SelectedItem(l: ListWidget): (r: Option<OllamaModel>)
    ensures r.Some? <==> 0 <= l.cursor < |l.items|
  {
    if 0 <= l.cursor < |l.items| then Some(l.items[l.cursor]) else None
  }

  datatype Msg = KeyMsg(key: string) | WindowSizeMsg(width: int, height: int) | OtherMsg

  /** How the list reacts to a message (library behaviour, supplied by the caller). */
  type ListStep = (ListWidget, Msg) -> ListWidget

  /** Nothing, quit, whatever the list returned, or the panic of a nil highlighted item. */
  datatype Cmd = NoCmd | QuitCmd | ListCmd | Panic

  datatype LegacyState = LegacyState(list: ListWidget, selected: OllamaModel, tabs: seq<string>,
                                     width: int, height: int, activeTab: int, infoVisible: bool)

  predicate Valid(s: LegacyState)
  {
    0 <= s.activeTab < |s.tabs|
  }

  datatype Outcome = Outcome(state: LegacyState, cmd: Cmd)

  function Min(a: int, b: int): int { if a <= b then a else b }
  function Max(a: int, b: int): int { if a >= b then a else b }

  predicate OnInstall(s: LegacyState)
    requires Valid(s)
  {
    s.tabs[s.activeTab] == InstallTab
  }

  /** The tail of `Update`: only the install tab's list receives messages. */
  function Forward(s: LegacyState, msg: Msg, listStep: ListStep): Outcome
    requires Valid(s)
  {
    if OnInstall(s) then Outcome(s.(list := listStep(s.list, msg)), ListCmd) else Outcome(s, NoCmd)
  }

  /** The resize branch: window less the one-cell margin, list less the tab border. */
  function Resize(s: LegacyState, w: int, h: int): LegacyState
  {
    var height := h - 2 - 1;
    var width := w - 2 - 2;
    var listWidth := if width > 90 then 3 * width / 5 else width;
    s.(height := height, width := width, infoVisible := width > 90,
       list := s.list.(width := listWidth, height := height - 2))
  }

  /** One call of `Update`: the reference definition. */
  function Step(s: LegacyState, msg: Msg, listStep: ListStep): Outcome
    requires Valid(s)
  {
    match msg
    case KeyMsg(k) =>
      if OnInstall(s) && s.list.filtering then Forward(s, msg, listStep)
      else if k == "ctrl+c" || k == "q" then Outcome(s, QuitCmd)
      else if k == "n" || k == "tab" then Outcome(s.(activeTab := Min(s.activeTab + 1, |s.tabs| - 1)), NoCmd)
      else if k == "p" || k == "shift+tab" then Outcome(s.(activeTab := Max(s.activeTab - 1, 0)), NoCmd)
      else if k == "enter" && OnInstall(s) then
        match SelectedItem(s.list)
        case Some(m) => Outcome(s.(selected := m), QuitCmd)
        case None => Outcome(s, Panic)
      else Forward(s, msg, listStep)
    case WindowSizeMsg(w, h) => Forward(Resize(s, w, h), msg, listStep)
    case OtherMsg => Forward(s, msg, listStep)
  }

  /** No message changes the tabs or moves the active tab out of range. */
  lemma StepKeepsTabs(s: LegacyState, msg: Msg, listStep: ListStep)
    requires Valid(s)
    ensures Valid(Step(s, msg, listStep).state) && Step(s, msg, listStep).state.tabs == s.tabs
  {
  }

  /** Tab keys clamp the active tab to the first and last tab, with no wrap-around, and do not quit. */
  lemma TabKeysClamp(s: LegacyState, k: string, listStep: ListStep)
    requires Valid(s) && !(OnInstall(s) && s.list.filtering)
    requires k in {"n", "tab", "p", "shift+tab"}
    ensures var o := Step(s, KeyMsg(k), listStep);
      var t := if k in {"n", "tab"} then Min(s.activeTab + 1, |s.tabs| - 1) else Max(s.activeTab - 1, 0);
      o == Outcome(s.(activeTab := t), NoCmd) && 0 <= t < |s.tabs| &&
      (s.activeTab == |s.tabs| - 1 && k in {"n", "tab"} ==> t == s.activeTab) &&
      (s.activeTab == 0 && k in {"p", "shift+tab"} ==> t == 0)
  {
  }

  /** Exactly `ctrl+c` and `q` quit (unless the install list is filtering); `esc` does not. */
  lemma QuitKeys(s: LegacyState, k: string, listStep: ListStep)
    requires Valid(s) && !(OnInstall(s) && s.list.filtering)
    ensures Step(s, KeyMsg(k), listStep).cmd == QuitCmd <==>
      k in {"ctrl+c", "q"} || (k == "enter" && OnInstall(s) && SelectedItem(s.list).Some?)
    ensures k in {"ctrl+c", "q"} ==> Step(s, KeyMsg(k), listStep).state == s
  {
  }

  /**
   * `enter` commits the highlighted model and quits only on the install tab
   * (panicking when nothing is highlighted); elsewhere it changes nothing.
   */
  lemma EnterCommitsOnInstallOnly(s: LegacyState, listStep: ListStep)
    requires Valid(s) && !(OnInstall(s) && s.list.filtering)
    ensures var o := Step(s, KeyMsg("enter"), listStep);
      (OnInstall(s) && SelectedItem(s.list).Some? ==> o == Outcome(s.(selected := SelectedItem(s.list).value), QuitCmd)) &&
      (OnInstall(s) && SelectedItem(s.list).None? ==> o.cmd == Panic) &&
      (!OnInstall(s) ==> o == Outcome(s, NoCmd))
  {
  }

  /** While the install list is filtering on its tab, every key goes to the list and nothing else changes. */
  lemma FilteringSkipsKeys(s: LegacyState, k: string, listStep: ListStep)
    requires Valid(s) && OnInstall(s) && s.list.filtering
    ensures Step(s, KeyMsg(k), listStep) == Outcome(s.(list := listStep(s.list, KeyMsg(k))), ListCmd)
  {
  }

  /** Off the install tab the list never changes except by a resize, and is never handed a message. */
  lemma ListOnlyOnInstall(s: LegacyState, msg: Msg, listStep: ListStep)
    requires Valid(s) && !OnInstall(s)
    ensures var o := Step(s, msg, listStep);
      o.cmd != ListCmd && o.state.selected == s.selected &&
      o.state.list.items == s.list.items && o.state.list.cursor == s.list.cursor &&
      o.state.list.filtering == s.list.filtering
  {
  }

  /** A resize: the info pane shows exactly when the inner width exceeds 90; the list then takes three fifths. */
  lemma ResizeLayout(s: LegacyState, w: int, h: int)
    ensures var r := Resize(s, w, h);
      r.width == w - 4 && r.height == h - 3 && r.infoVisible == (r.width > 90) &&
      r.list.width == (if r.infoVisible then 3 * r.width / 5 else r.width) &&
      (r.infoVisible ==> 0 < r.list.width < r.width) &&
      r.list.height == r.height - 2 &&
      r.list.items == s.list.items && r.list.cursor == s.list.cursor && r.selected == s.selected
  {
  }

  /** The selector object of this revision. */
  class ModelSelector {
    var list: ListWidget
    var selected: OllamaModel
    var tabs: seq<string>
    var width: int
    var height: int
    var activeTab: int
    var infoVisible: bool

    function State(): LegacyState
      reads this
    {
      LegacyState(list, selected, tabs, width, height, activeTab, infoVisible)
    }

    /** `Update`: handle one message in place; after a panic the fields are not specified. */
    method Update(msg: Msg, listStep: ListStep) returns (cmd: Cmd)
      requires Valid(State())
      modifies this
      ensures cmd == Step(old(State()), msg, listStep).cmd
      ensures cmd != Panic ==> State() == Step(old(State()), msg, listStep).state
    {
      match msg {
        case KeyMsg(k) =>
          if !(tabs[activeTab] == InstallTab && list.filtering) {
            if k == "ctrl+c" || k == "q" {
              return QuitCmd;
            } else if k == "n" || k == "tab" {
              activeTab := Min(activeTab + 1, |tabs| - 1);
              return NoCmd;
            } else if k == "p" || k == "shift+tab" {
              activeTab := Max(activeTab - 1, 0);
              return NoCmd;
            } else if k == "enter" {
              if tabs[activeTab] == InstallTab {
                var item := SelectedItem(list);
                if item.None? {
                  return Panic;
                }
                selected := item.value;
                return QuitCmd;
              }
            }
          }
        case WindowSizeMsg(w, h) =>
          height := h - 2 - 1;
          width := w - 2 - 2;
          var listWidth := width;
          if width > 90 {
            listWidth := 3 * width / 5;
            infoVisible := true;
          } else {
            infoVisible := false;
          }
          list := list.(width := listWidth, height := height - 2);
        case OtherMsg =>
      }
      cmd := NoCmd;
      if tabs[activeTab] == InstallTab {
        list := listStep(list, msg);
        cmd := ListCmd;
      }
    }
  }
}
