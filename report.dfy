/**
 * `PrintActionResult` of utils/utils.go: what is printed after an operation
 * and what is returned. An error is printed and returned unchanged; on
 * success, the monitor tab prints nothing, the manage tab reports the manage
 * action and every other tab reports its own name. Styling is not modelled.
 */
module Report {
  import opened Wrappers
  import opened Selector

  /** The tab name as Go's string conversion gives it; the zero action is the empty string. */
  function TabName(t: Option<Tab>): string
  {
    match t
    case None => ""
    case Some(Install) => "Install"
    case Some(Manage) => "Manage"
    case Some(Monitor) => "Monitor"
  }

  /** The manage action's name; the zero action is the empty string. */
  function ManageName(a: Option<ManageAction>): string
  {
    if a.Some? then ActionName(a.value) else ""
  }

  /** What reaches the terminal: nothing, the error, or a success line with its action label and model. */
  datatype Printed = NothingPrinted | ErrorPrinted(err: string) | SuccessPrinted(actionText: string, model: string)

  /** The returned error and what was printed. */
  datatype ActionReport = ActionReport(returned: Option<string>, printed: Printed)

  /** `PrintActionResult`. */
  function PrintActionResult(action: Option<Tab>, manageAction: Option<ManageAction>, modelName: string,
                             err: Option<string>): (r: ActionReport)
    ensures r.returned == err
    ensures err.Some? ==> r.printed == ErrorPrinted(err.value)
    ensures err.None? ==> (r.printed == NothingPrinted <==> action == Some(Monitor))
    ensures r.printed.SuccessPrinted? ==> r.printed.model == modelName && err.None?
  {
    if err.Some? then ActionReport(err, ErrorPrinted(err.value))
    else
      var text := if action == Some(Manage) then ManageName(manageAction) else TabName(action);
      if action != Some(Monitor) then ActionReport(None, SuccessPrinted(text, modelName))
      else ActionReport(None, NothingPrinted)
  }

  /**
   * On success outside the monitor tab, the reported action is the manage
   * action on the manage tab and the tab itself otherwise.
   */
  lemma SuccessLabel(action: Option<Tab>, manageAction: Option<ManageAction>, modelName: string)
    requires action != Some(Monitor)
    ensures var r := PrintActionResult(action, manageAction, modelName, None);
      r.printed.SuccessPrinted? &&
      r.printed.actionText == (if action == Some(Manage) then ManageName(manageAction) else TabName(action))
  {
  }

  /** Distinct outcomes are reported with distinct labels: install and each manage action can be told apart. */
  lemma LabelsDistinguishOutcomes(a: ManageAction, b: ManageAction, model: string)
    ensures PrintActionResult(Some(Manage), Some(a), model, None) == PrintActionResult(Some(Manage), Some(b), model, None)
      <==> a == b
    ensures PrintActionResult(Some(Install), None, model, None) != PrintActionResult(Some(Manage), Some(a), model, None)
  {
    if ActionName(a) == ActionName(b) {
      assert ActionName(a)[0] == ActionName(b)[0];
    }
    assert TabName(Some(Install))[0] != ActionName(a)[0];
  }
}
