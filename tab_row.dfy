/**
 * The integer arithmetic of the selector's `View` (tui/model_selector.go):
 * how wide each tab of the tab row is, how a label that does not fit is cut,
 * and which key the help overlay advertises for each approved manage action.
 * Styling and layout of the rendered strings are not modelled.
 */
module TabRow {
  import opened Wrappers
  import opened Selector

  /**
   * The width of every tab but the first: the view width divided by the
   * number of tabs, rounded down (`math.Floor` of a float quotient; exact for
   * widths far below 2^53).
   */
  function TabWidth(width: int, numTabs: int): (tw: int)
    requires numTabs > 0
    ensures tw * numTabs <= width < tw * numTabs + numTabs
  {
    width / numTabs
  }

  /** The first tab takes what the others leave, less one cell per tab. */
  function FirstWidth(width: int, numTabs: int): int
    requires numTabs > 0
  {
    width - (numTabs - 1) * TabWidth(width, numTabs) - numTabs
  }

  /** The width of tab `i`. */
  function CellWidth(i: nat, width: int, numTabs: int): int
    requires numTabs > 0
  {
    if i == 0 then FirstWidth(width, numTabs) else TabWidth(width, numTabs)
  }

  /** The first tab absorbs the rounding: it is narrower than the others by between 1 and `numTabs` cells. */
  lemma FirstWidthBounds(width: int, numTabs: int)
    requires numTabs > 0
    ensures TabWidth(width, numTabs) - numTabs <= FirstWidth(width, numTabs) < TabWidth(width, numTabs)
  {
    var tw := TabWidth(width, numTabs);
    assert FirstWidth(width, numTabs) == (width - tw * numTabs) + tw - numTabs;
  }

  /** The total width of the first `k` tabs. */
  function WidthsUpTo(k: nat, width: int, numTabs: int): int
    requires numTabs > 0
  {
    if k == 0 then 0 else WidthsUpTo(k - 1, width, numTabs) + CellWidth(k - 1, width, numTabs)
  }

  /** All tabs together are exactly `numTabs` cells narrower than the view. */
  lemma {:induction false} RowFillsWidth(width: int, numTabs: int)
    requires numTabs > 0
    ensures WidthsUpTo(numTabs, width, numTabs) == width - numTabs
  {
    PartialWidths(numTabs, width, numTabs);
  }

  lemma {:induction false} PartialWidths(k: nat, width: int, numTabs: int)
    requires numTabs > 0 && k >= 1
    ensures WidthsUpTo(k, width, numTabs) == FirstWidth(width, numTabs) + (k - 1) * TabWidth(width, numTabs)
  {
    if k > 1 {
      PartialWidths(k - 1, width, numTabs);
    }
  }

  /**
   * A label longer than `w - 2` is cut to its first `w - 2` characters, or to
   * its first character when `w` is 2 or less; a label that fits is kept.
   * Go panics on an empty label that is too long (`t[:1]`), hence the precondition.
   */
  function Truncate(t: string, w: int): (r: string)
    requires |t| > 0 || w >= 2
    ensures |r| <= |t| && r == t[..|r|]
    ensures |t| <= w - 2 ==> r == t
    ensures |t| > w - 2 ==> |r| == (if w > 2 then w - 2 else 1)
    ensures 1 <= |r| || t == []
  {
    if |t| > w - 2 then
      if w > 2 then t[..w - 2] else t[..1]
    else t
  }

  /** One rendered tab: its (possibly cut) label, its width and whether it is the active one. */
  datatype TabCell = TabCell(text: string, width: int, active: bool)

  /** The tab-row loop of `View`: one cell per label, in order. */
  method RenderTabs(labels: seq<string>, width: int, activeTab: int) returns (cells: seq<TabCell>)
    requires |labels| > 0
    requires forall i :: 0 <= i < |labels| ==> |labels[i]| > 0
    ensures |cells| == |labels|
    ensures forall i :: 0 <= i < |cells| ==>
      cells[i].width == CellWidth(i, width, |labels|) &&
      cells[i].text == Truncate(labels[i], cells[i].width) &&
      cells[i].active == (i == activeTab)
  {
    var numTabs := |labels|;
    var tabWidth := TabWidth(width, numTabs);
    cells := [];
    var i := 0;
    while i < numTabs
      invariant 0 <= i <= numTabs && |cells| == i
      invariant forall j :: 0 <= j < i ==>
        cells[j].width == CellWidth(j, width, numTabs) &&
        cells[j].text == Truncate(labels[j], cells[j].width) &&
        cells[j].active == (j == activeTab)
    {
      var t := labels[i];
      var w := tabWidth;
      if i == 0 {
        w := width - ((numTabs - 1) * tabWidth) - numTabs;
      }
      if |t| > w - 2 {
        if w > 2 {
          t := t[..w - 2];
        } else {
          t := t[..1];
        }
      }
      cells := cells + [TabCell(t, w, i == activeTab)];
      i := i + 1;
    }
  }

  /** ASCII lower-casing of one character. */
  function Lower(c: char): char
  {
    if 'A' <= c <= 'Z' then (c as int + 32) as char else c
  }

  /** The help key letter of an action name: the first character of the lower-cased name. */
  function HelpKey(name: string): string
    requires |name| > 0
  {
    [Lower(name[0])]
  }

  /** The key the help overlay advertises for an action is the key `Update` answers to with that action. */
  lemma HelpKeyIsShortcut(a: ManageAction)
    ensures |ActionName(a)| > 0 && ShortcutAction(HelpKey(ActionName(a))) == Some(a)
  {
  }

  /** One help-overlay entry: the key and the action name it is shown with. */
  datatype Binding = Binding(key: string, help: string)

  /** The manage-tab help loop of `View`: one binding per approved action, in order. */
  method HelpBindings(approved: seq<ManageAction>) returns (bindings: seq<Binding>)
    ensures |bindings| == |approved|
    ensures forall i :: 0 <= i < |bindings| ==>
      bindings[i].key == HelpKey(ActionName(approved[i])) && bindings[i].help == ActionName(approved[i])
    ensures forall i :: 0 <= i < |bindings| ==> ShortcutAction(bindings[i].key) == Some(approved[i])
  {
    bindings := [];
    var i := 0;
    while i < |approved|
      invariant 0 <= i <= |approved| && |bindings| == i
      invariant forall j :: 0 <= j < i ==>
        bindings[j].key == HelpKey(ActionName(approved[j])) && bindings[j].help == ActionName(approved[j])
      invariant forall j :: 0 <= j < i ==> ShortcutAction(bindings[j].key) == Some(approved[j])
    {
      var name := ActionName(approved[i]);
      HelpKeyIsShortcut(approved[i]);
      bindings := bindings + [Binding(HelpKey(name), name)];
      i := i + 1;
    }
  }
}
