/**
 * `ModelPicker` of tui/model_picker.go: the stages that run before and after
 * the selector program. It loads the catalogs the configured tabs need (each
 * behind a spinner), builds the three lists, runs the selector, rejects an
 * empty selection and, when the manage tab was left without an approved
 * action, asks for one. The spinners, the catalog downloads, the selector
 * program and the action menu are inputs; `Resolve` is the reference
 * definition of the whole call and `ModelPicker` follows the Go stages.
 */
module Picker {
  import opened Wrappers
  import opened Selector

  /** One catalog stage: the spinner failed (with whatever error the loader had set), or the loader's result pair. */
  datatype Fetch<T> = SpinnerFailed(err: Option<string>) | Fetched(models: seq<T>, err: Option<string>)

  /** The selector program: its failure, or the selector it returned. */
  datatype RunOutcome = RunFailed(err: string) | RunDone(final: SelectorState)

  /** The action menu: its failure, or the chosen action. */
  datatype MenuOutcome = MenuFailed(err: string) | Chosen(action: ManageAction)

  /** The selector program, as a function of the selector it starts from. */
  type Program = SelectorState -> RunOutcome

  /** The action menu, as a function of the options it offers. */
  type Menu = seq<ManageAction> -> MenuOutcome

  /** The catalogs, in the order their stages run. */
  datatype Catalog = InstallableCatalog | InstalledCatalog | RunningCatalog

  /**
   * The selector returned (`None` is the zero selector), the error, the
   * catalog stages that ran, and the options of the action menu if it was shown.
   */
  datatype PickerOutcome = PickerOutcome(selector: Option<SelectorState>, err: Option<string>,
                                         stages: seq<Catalog>, menu: Option<seq<ManageAction>>)

  const PickFailure := "failed to pick a model :("

  function Abort(err: Option<string>, stages: seq<Catalog>): PickerOutcome
  {
    PickerOutcome(None, err, stages, None)
  }

  /** Every element wrapped as a list item, in order. */
  function Wrap<T>(models: seq<T>, wrap: T -> Item): (items: seq<Item>)
    ensures |items| == |models|
    ensures forall k :: 0 <= k < |models| ==> items[k] == wrap(models[k])
  {
    if models == [] then [] else [wrap(models[0])] + Wrap(models[1..], wrap)
  }

  function AsInstallable(m: OllamaModel): Item { InstallableItem(m) }
  function AsInstalled(m: InstalledModel): Item { InstalledItem(m) }
  function AsRunning(m: RunningModel): Item { RunningItem(m) }

  /** No selection slot holds a model. */
  predicate SelectedNothing(s: SelectorState)
  {
    s.selectedInstallable.name == "" && s.selectedInstalled.name == "" && s.selectedRunning.name == ""
  }

  /** The manage tab was chosen without an approved action. */
  predicate NeedsAction(s: SelectorState)
  {
    s.action == Some(Manage) && !(s.manageAction.Some? && s.manageAction.value in s.approved)
  }

  /** What happens after the selector program returned `final`. */
  function Finish(final: SelectorState, menu: Menu, stages: seq<Catalog>): PickerOutcome
  {
    if SelectedNothing(final) then Abort(Some(PickFailure), stages)
    else if NeedsAction(final) then
      match menu(final.approved)
      case MenuFailed(e) => PickerOutcome(None, Some(e), stages, Some(final.approved))
      case Chosen(a) => PickerOutcome(Some(final.(manageAction := Some(a))), None, stages, Some(final.approved))
    else PickerOutcome(Some(final), None, stages, None)
  }

  /** The running stage onwards: a failed running download is ignored, only its spinner aborts. */
  function FromRunning(installable: ListWidget, installed: ListWidget, tabs: seq<Tab>, approved: seq<ManageAction>,
                       running: Fetch<RunningModel>, run: Program, menu: Menu, stages: seq<Catalog>): PickerOutcome
  {
    match running
    case SpinnerFailed(e) => Abort(e, stages)
    case Fetched(models, _) =>
      var runningList := NewList(Wrap(models, AsRunning));
      match run(Initial(installable, installed, runningList, tabs, approved))
      case RunFailed(e) => Abort(Some(e), stages)
      case RunDone(final) => Finish(final, menu, stages)
  }

  /** The installed stage onwards: a failed download aborts with its error. */
  function FromInstalled(installable: ListWidget, tabs: seq<Tab>, approved: seq<ManageAction>,
                         installed: Fetch<InstalledModel>, running: Fetch<RunningModel>,
                         run: Program, menu: Menu, stages: seq<Catalog>): PickerOutcome
  {
    match installed
    case SpinnerFailed(e) => Abort(e, stages)
    case Fetched(models, err) =>
      if err.Some? then Abort(err, stages)
      else
        FromRunning(installable, NewList(Wrap(models, AsInstalled)), tabs, approved, running, run, menu,
                    stages + [RunningCatalog])
  }

  /** The whole call of `ModelPicker`: the reference definition. */
  function Resolve(tabs: seq<Tab>, approved: seq<ManageAction>, catalog: Fetch<OllamaModel>,
                   installed: Fetch<InstalledModel>, running: Fetch<RunningModel>,
                   run: Program, menu: Menu): PickerOutcome
  {
    if tabs == [] then Abort(None, [])
    else if Install in tabs then
      match catalog
      case SpinnerFailed(e) => Abort(e, [InstallableCatalog])
      case Fetched(models, err) =>
        if err.Some? then Abort(err, [InstallableCatalog])
        else
          FromInstalled(NewList(Wrap(models, AsInstallable)), tabs, approved, installed, running, run, menu,
                        [InstallableCatalog, InstalledCatalog])
    else
      FromInstalled(NewList([]), tabs, approved, installed, running, run, menu, [InstalledCatalog])
  }

  /** The item-building loops: one item per fetched model, in order. */
  method BuildList<T>(models: seq<T>, wrap: T -> Item) returns (l: ListWidget)
    ensures l == NewList(Wrap(models, wrap))
  {
    var items: seq<Item> := [];
    var i := 0;
    while i < |models|
      invariant 0 <= i <= |models| && |items| == i
      invariant forall k :: 0 <= k < i ==> items[k] == wrap(models[k])
    {
      items := items + [wrap(models[i])];
      i := i + 1;
    }
    assert items == Wrap(models, wrap);
    l := NewList(items);
  }

  /** The option-building loop of the action menu: one option per approved action, in order. */
  method MenuOptions(approved: seq<ManageAction>) returns (options: seq<ManageAction>)
    ensures options == approved
  {
    options := [];
    var i := 0;
    while i < |approved|
      invariant 0 <= i <= |approved| && options == approved[..i]
    {
      options := options + [approved[i]];
      i := i + 1;
    }
    assert approved[..i] == approved;
  }

  /** The stages after the selector program returned. */
  method Conclude(final: SelectorState, menu: Menu, stages: seq<Catalog>) returns (o: PickerOutcome)
    ensures o == Finish(final, menu, stages)
  {
    if final.selectedInstallable.name == "" && final.selectedInstalled.name == "" && final.selectedRunning.name == "" {
      return Abort(Some(PickFailure), stages);
    }
    if final.action == Some(Manage) && !(final.manageAction.Some? && final.manageAction.value in final.approved) {
      var options := MenuOptions(final.approved);
      var answer := menu(options);
      if answer.MenuFailed? {
        return PickerOutcome(None, Some(answer.err), stages, Some(options));
      }
      return PickerOutcome(Some(final.(manageAction := Some(answer.action))), None, stages, Some(options));
    }
    return PickerOutcome(Some(final), None, stages, None);
  }

  /** The running stage and the selector program. */
  method RunningStage(installable: ListWidget, installed: ListWidget, tabs: seq<Tab>, approved: seq<ManageAction>,
                      running: Fetch<RunningModel>, run: Program, menu: Menu, stages: seq<Catalog>)
    returns (o: PickerOutcome)
    ensures o == FromRunning(installable, installed, tabs, approved, running, run, menu, stages)
  {
    if running.SpinnerFailed? {
      return Abort(running.err, stages);
    }
    var runningList := BuildList(running.models, AsRunning);
    var result := run(Initial(installable, installed, runningList, tabs, approved));
    if result.RunFailed? {
      return Abort(Some(result.err), stages);
    }
    o := Conclude(result.final, menu, stages);
  }

  /** The installed stage onwards. */
  method InstalledStage(installable: ListWidget, tabs: seq<Tab>, approved: seq<ManageAction>,
                        installed: Fetch<InstalledModel>, running: Fetch<RunningModel>,
                        run: Program, menu: Menu, stages: seq<Catalog>)
    returns (o: PickerOutcome)
    ensures o == FromInstalled(installable, tabs, approved, installed, running, run, menu, stages)
  {
    if installed.SpinnerFailed? {
      return Abort(installed.err, stages);
    }
    if installed.err.Some? {
      return Abort(installed.err, stages);
    }
    var installedList := BuildList(installed.models, AsInstalled);
    o := RunningStage(installable, installedList, tabs, approved, running, run, menu, stages + [RunningCatalog]);
  }

  /** `ModelPicker`, stage by stage. */
  method ModelPicker(tabs: seq<Tab>, approved: seq<ManageAction>, catalog: Fetch<OllamaModel>,
                     installed: Fetch<InstalledModel>, running: Fetch<RunningModel>,
                     run: Program, menu: Menu)
    returns (o: PickerOutcome)
    ensures o == Resolve(tabs, approved, catalog, installed, running, run, menu)
  {
    if |tabs| == 0 {
      return Abort(None, []);
    }
    var stages: seq<Catalog> := [];
    var installableList := NewList([]);
    if Install in tabs {
      stages := [InstallableCatalog];
      if catalog.SpinnerFailed? {
        return Abort(catalog.err, stages);
      }
      if catalog.err.Some? {
        return Abort(catalog.err, stages);
      }
      installableList := BuildList(catalog.models, AsInstallable);
    }
    stages := stages + [InstalledCatalog];
    assert stages == if Install in tabs then [InstallableCatalog, InstalledCatalog] else [InstalledCatalog];
    o := InstalledStage(installableList, tabs, approved, installed, running, run, menu, stages);
  }

  /** No tabs: the zero selector, no error, and no catalog is loaded. */
  lemma NoTabsNoFetch(approved: seq<ManageAction>, catalog: Fetch<OllamaModel>, installed: Fetch<InstalledModel>,
                      running: Fetch<RunningModel>, run: Program, menu: Menu)
    ensures Resolve([], approved, catalog, installed, running, run, menu) == PickerOutcome(None, None, [], None)
  {
  }

  /** The stages that ran always come in catalog order, starting with the installable one exactly when the install tab is configured. */
  lemma StagesInOrder(tabs: seq<Tab>, approved: seq<ManageAction>, catalog: Fetch<OllamaModel>,
                      installed: Fetch<InstalledModel>, running: Fetch<RunningModel>, run: Program, menu: Menu)
    requires tabs != []
    ensures var st := Resolve(tabs, approved, catalog, installed, running, run, menu).stages;
      var all := if Install in tabs then [InstallableCatalog, InstalledCatalog, RunningCatalog]
                 else [InstalledCatalog, RunningCatalog];
      |st| >= 1 && st <= all && (InstallableCatalog in st <==> Install in tabs)
  {
  }

  /** A failed download of the installed models aborts with its error before the running models are loaded. */
  lemma InstalledErrorAborts(tabs: seq<Tab>, approved: seq<ManageAction>, catalog: Fetch<OllamaModel>,
                             models: seq<InstalledModel>, e: string, running: Fetch<RunningModel>,
                             run: Program, menu: Menu)
    requires tabs != []
    ensures var o := Resolve(tabs, approved, catalog, Fetched(models, Some(e)), running, run, menu);
      o.selector == None && o.menu == None && RunningCatalog !in o.stages &&
      (InstalledCatalog in o.stages ==> o.err == Some(e))
  {
  }

  /** A failed download of the running models is ignored: the outcome is the one for the same models without the error. */
  lemma RunningErrorIgnored(tabs: seq<Tab>, approved: seq<ManageAction>, catalog: Fetch<OllamaModel>,
                            installed: Fetch<InstalledModel>, models: seq<RunningModel>, e: string,
                            run: Program, menu: Menu)
    ensures Resolve(tabs, approved, catalog, installed, Fetched(models, Some(e)), run, menu) ==
            Resolve(tabs, approved, catalog, installed, Fetched(models, None), run, menu)
  {
  }

  /** A failed spinner returns the zero selector with whatever error the loader had set, possibly none. */
  lemma SpinnerFailureKeepsLoaderError(tabs: seq<Tab>, approved: seq<ManageAction>, catalog: Fetch<OllamaModel>,
                                       e: Option<string>, running: Fetch<RunningModel>, run: Program, menu: Menu)
    requires tabs != [] && (Install in tabs ==> catalog.Fetched? && catalog.err.None?)
    ensures Resolve(tabs, approved, catalog, SpinnerFailed(e), running, run, menu) ==
            Abort(e, (if Install in tabs then [InstallableCatalog] else []) + [InstalledCatalog])
  {
  }

  /** A selector that returns with every slot empty is a failure, whatever the tab. */
  lemma EmptySelectionFails(final: SelectorState, menu: Menu, stages: seq<Catalog>)
    requires SelectedNothing(final)
    ensures Finish(final, menu, stages) == Abort(Some(PickFailure), stages)
  {
  }

  /**
   * The action menu is shown exactly when the manage tab was chosen without
   * an approved action, and it offers the approved actions in order; its
   * failure is returned with the zero selector, its choice becomes the
   * action. Otherwise the selector comes back unchanged with no error.
   */
  lemma MenuRule(final: SelectorState, menu: Menu, stages: seq<Catalog>)
    requires !SelectedNothing(final)
    ensures var o := Finish(final, menu, stages);
      (o.menu.Some? <==> NeedsAction(final)) &&
      (o.menu.Some? ==> o.menu.value == final.approved) &&
      (NeedsAction(final) && menu(final.approved).MenuFailed? ==>
        o.selector == None && o.err == Some(menu(final.approved).err)) &&
      (NeedsAction(final) && menu(final.approved).Chosen? ==>
        o.selector == Some(final.(manageAction := Some(menu(final.approved).action))) && o.err == None) &&
      (!NeedsAction(final) ==> o.selector == Some(final) && o.err == None)
  {
  }

  /**
   * When the menu picks only among the options it is offered, a selection on
   * the manage tab always comes back with an approved action: either the
   * selector already held one, or the menu supplied one.
   */
  lemma FinishApprovesManage(final: SelectorState, menu: Menu, stages: seq<Catalog>)
    requires forall opts :: menu(opts).Chosen? ==> menu(opts).action in opts
    ensures var o := Finish(final, menu, stages);
      o.selector.Some? && o.selector.value.action == Some(Manage) ==>
        o.selector.value.manageAction.Some? && o.selector.value.manageAction.value in final.approved
  {
    if !SelectedNothing(final) && NeedsAction(final) && menu(final.approved).Chosen? {
      assert menu(final.approved).action in final.approved;
    }
  }

  /**
   * The same over the whole call: with a selector program that keeps the
   * approved actions it was started with, and a menu that picks among its
   * options, `ModelPicker` never returns a manage selection whose action was
   * not approved.
   */
  lemma ResolveApprovesManage(tabs: seq<Tab>, approved: seq<ManageAction>, catalog: Fetch<OllamaModel>,
                               installed: Fetch<InstalledModel>, running: Fetch<RunningModel>,
                               run: Program, menu: Menu)
    requires forall s :: run(s).RunDone? ==> run(s).final.approved == s.approved
    requires forall opts :: menu(opts).Chosen? ==> menu(opts).action in opts
    ensures var o := Resolve(tabs, approved, catalog, installed, running, run, menu);
      o.selector.Some? && o.selector.value.action == Some(Manage) ==>
        o.selector.value.manageAction.Some? && o.selector.value.manageAction.value in approved
  {
    if tabs != [] && installed.Fetched? && installed.err.None? && running.Fetched? {
      var installable := if Install in tabs && catalog.Fetched? then NewList(Wrap(catalog.models, AsInstallable))
                         else NewList([]);
      var stages := if Install in tabs then [InstallableCatalog, InstalledCatalog, RunningCatalog]
                    else [InstalledCatalog, RunningCatalog];
      var start := Initial(installable, NewList(Wrap(installed.models, AsInstalled)),
                           NewList(Wrap(running.models, AsRunning)), tabs, approved);
      if run(start).RunDone? {
        FinishApprovesManage(run(start).final, menu, stages);
      }
    }
  }

  /** The selector program starts from the fetched lists, the configured tabs and approved actions, and nothing selected. */
  lemma ProgramStartsFresh(tabs: seq<Tab>, approved: seq<ManageAction>, catalog: Fetch<OllamaModel>,
                           installed: Fetch<InstalledModel>, running: Fetch<RunningModel>, menu: Menu)
    requires tabs != [] && installed.Fetched? && installed.err.None? && running.Fetched?
    requires Install in tabs ==> catalog.Fetched? && catalog.err.None?
    ensures var start := Initial(
              NewList(if Install in tabs then Wrap(catalog.models, AsInstallable) else []),
              NewList(Wrap(installed.models, AsInstalled)),
              NewList(Wrap(running.models, AsRunning)), tabs, approved);
      Valid(start) && start.action == None && SelectedNothing(start) &&
      Resolve(tabs, approved, catalog, installed, running, (s: SelectorState) => RunDone(s), menu) ==
      Abort(Some(PickFailure), if Install in tabs then [InstallableCatalog, InstalledCatalog, RunningCatalog]
                               else [InstalledCatalog, RunningCatalog])
  {
  }
}
