/** The review queue of the interactive merge screen (src/chezmerge/ui.py),
    without its widgets: the items under review, the cursor over them, the
    texts and titles of the four panes, the focused pane and the value the
    screen exits with. */
module Ui {
  import opened Optional
  import opened Logic

  /** The pane ids, in the order the focus cycles through them. */
  const PaneOrder: seq<string> := ["theirs", "base", "ours", "template"]

  /** The text a pane shows and the title on its border. */
  datatype Pane = Pane(text: string, title: string)

  // ---------------------------------------------------------------------------
  // The progress label

  function Digit(d: nat): char
    requires d < 10
  {
    "0123456789"[d]
  }

  predicate IsDigits(s: string)
  {
    forall k :: 0 <= k < |s| ==> '0' <= s[k] <= '9'
  }

  /** A number written in decimal, as Python formats an int. */
  function Decimal(n: nat): (r: string)
    ensures |r| > 0 && IsDigits(r)
    ensures r[0] == '0' ==> n == 0
  {
    if n < 10 then [Digit(n)] else Decimal(n / 10) + [Digit(n % 10)]
  }

  /** The number a string of decimal digits denotes. */
  function DecimalValue(s: string): nat
    requires IsDigits(s)
  {
    if s == [] then 0 else DecimalValue(s[..|s| - 1]) * 10 + (s[|s| - 1] as int - '0' as int)
  }

  /** Reading back the decimal form gives the number. */
  lemma {:induction false} DecimalRoundTrip(n: nat)
    ensures DecimalValue(Decimal(n)) == n
  {
    if n >= 10 {
      var d := Decimal(n);
      assert d[..|d| - 1] == Decimal(n / 10);
      DecimalRoundTrip(n / 10);
    }
  }

  /** The screen's subtitle while item `index` of `total` is loaded: the
      position counts from one. */
  function ProgressLabel(index: nat, total: nat, path: string): (r: string)
    ensures |r| == |"Merging ["| + |Decimal(index + 1)| + 1 + |Decimal(total)| + |"]: "| + |path|
    ensures r[..|"Merging ["|] == "Merging [" && r[|r| - |path|..] == path
    ensures var n := |"Merging ["| + |Decimal(index + 1)|;
      r[|"Merging ["|..n] == Decimal(index + 1) && r[n] == '/'
      && r[n + 1..n + 1 + |Decimal(total)|] == Decimal(total)
  {
    "Merging [" + Decimal(index + 1) + "/" + Decimal(total) + "]: " + path
  }

  // ---------------------------------------------------------------------------
  // Saving an edit

  /** Two items that agree on everything but the template's text. */
  predicate SameButTemplateText(a: MergeItem, b: MergeItem)
  {
    a.path == b.path && a.base == b.base && a.theirs == b.theirs && a.ours == b.ours
    && a.scenario == b.scenario
    && a.template.path == b.template.path && a.template.isTemplate == b.template.isTemplate
  }

  /** The item list after saving `text` as the template of item `i`: that text
      and nothing else changes. */
  function SaveEdit(items: seq<MergeItem>, i: nat, text: string): (r: seq<MergeItem>)
    requires i < |items|
    ensures |r| == |items|
    ensures r[i].template.content == text && SameButTemplateText(r[i], items[i])
    ensures forall k :: 0 <= k < |items| && k != i ==> r[k] == items[k]
  {
    items[i := items[i].(template := items[i].template.(content := text))]
  }

  // ---------------------------------------------------------------------------
  // Focus

  /** The position of a pane id in the cycle. */
  function IndexOf(order: seq<string>, id: string): (i: nat)
    requires id in order
    ensures i < |order| && order[i] == id
    ensures forall j :: 0 <= j < i ==> order[j] != id
  {
    if order[0] == id then 0 else 1 + IndexOf(order[1..], id)
  }

  /** The pane that receives the focus after the focused widget `focused`
      (its id; None when nothing with an id has the focus). */
  function NextPane(focused: Option<string>): (next: string)
    ensures next in PaneOrder
    ensures focused == Some("theirs") ==> next == "base"
    ensures focused == Some("base") ==> next == "ours"
    ensures focused == Some("ours") ==> next == "template"
    ensures focused == Some("template") ==> next == "theirs"
    ensures focused.None? || focused.value !in PaneOrder ==> next == "template"
  {
    if focused.Some? && focused.value in PaneOrder then
      PaneOrder[(IndexOf(PaneOrder, focused.value) + 1) % |PaneOrder|]
    else "template"
  }

  /** Cycling the focus four times from any pane comes back to it, and never
      stays on the same pane. */
  lemma FocusCycle(id: string)
    requires id in PaneOrder
    ensures NextPane(Some(id)) != id
    ensures NextPane(Some(NextPane(Some(NextPane(Some(NextPane(Some(id)))))))) == id
  {
  }

  // ---------------------------------------------------------------------------
  // The screen

  class ChezmergeApp {
    var items: seq<MergeItem>
    var currentIndex: nat
    var subTitle: string
    var theirsPane: Pane
    var basePane: Pane
    var oursPane: Pane
    var templatePane: Pane
    /** The id of the focused widget; None when nothing with an id has the focus. */
    var focused: Option<string>
    /** The value the screen exited with, once it has. */
    var exitValue: Option<seq<MergeItem>>
    /** The items the screen was opened with. */
    ghost var initial: seq<MergeItem>

    /** Only template texts ever change, and only those of items already
        behind the cursor. */
    ghost predicate Valid()
      reads this
    {
      |items| == |initial|
      && (forall k :: 0 <= k < |items| ==> SameButTemplateText(items[k], initial[k]))
      && (forall k :: currentIndex <= k < |items| ==> items[k] == initial[k])
    }

    /** Item `i` is on screen: the three read-only panes hold the upstream,
        ancestor and local texts, the editable pane the template source, which
        has the focus, and the subtitle shows the position. */
    ghost predicate Shows(i: nat)
      reads this
      requires i < |items|
    {
      var item := items[i];
      theirsPane == Pane(item.theirs.content, "Theirs (Upstream)")
      && basePane == Pane(item.base.content, "Base (Ancestor)")
      && oursPane == Pane(item.ours.content, "Ours (Local)")
      && templatePane == Pane(item.template.content, "Template (Editable): " + item.path)
      && focused == Some("template")
      && subTitle == ProgressLabel(i, |items|, item.path)
    }

    /** A new screen holds the given items with the cursor on the first. */
    constructor (items: seq<MergeItem>)
      ensures Valid()
      ensures this.items == items && initial == items && currentIndex == 0
      ensures exitValue == None && focused == None && subTitle == ""
      ensures theirsPane == basePane == oursPane == templatePane == Pane("", "")
    {
      this.items := items;
      initial := items;
      currentIndex := 0;
      subTitle := "";
      theirsPane, basePane, oursPane, templatePane := Pane("", ""), Pane("", ""), Pane("", ""), Pane("", "");
      focused := None;
      exitValue := None;
    }

    /** Shows the item under the cursor, or exits with the item list when the
        cursor is past the end. */
    method LoadCurrentItem()
      requires Valid()
      modifies this
      ensures Valid()
      ensures items == old(items) && currentIndex == old(currentIndex) && initial == old(initial)
      ensures |items| == 0 || currentIndex >= |items| ==>
        exitValue == Some(items) && subTitle == old(subTitle) && focused == old(focused)
        && theirsPane == old(theirsPane) && basePane == old(basePane)
        && oursPane == old(oursPane) && templatePane == old(templatePane)
      ensures currentIndex < |items| ==> exitValue == old(exitValue) && Shows(currentIndex)
    {
      if |items| == 0 || currentIndex >= |items| {
        exitValue := Some(items);
        return;
      }
      var item := items[currentIndex];
      subTitle := ProgressLabel(currentIndex, |items|, item.path);
      theirsPane := Pane(item.theirs.content, "Theirs (Upstream)");
      basePane := Pane(item.base.content, "Base (Ancestor)");
      oursPane := Pane(item.ours.content, "Ours (Local)");
      templatePane := Pane(item.template.content, "Template (Editable): " + item.path);
      focused := Some("template");
    }

    /** Saves `edited`, the text of the editable pane, as the template of the
        item under the cursor (when there is one), moves the cursor on by one and
        loads what is under it. */
    method SaveMerge(edited: string)
      requires Valid()
      modifies this
      ensures Valid()
      ensures initial == old(initial)
      ensures old(currentIndex) < |old(items)| ==> items == SaveEdit(old(items), old(currentIndex), edited)
      ensures old(currentIndex) >= |old(items)| ==> items == old(items)
      ensures currentIndex == old(currentIndex) + 1
      ensures currentIndex >= |items| ==>
        exitValue == Some(items) && subTitle == old(subTitle) && focused == old(focused)
        && theirsPane == old(theirsPane) && basePane == old(basePane)
        && oursPane == old(oursPane) && templatePane == old(templatePane)
      ensures currentIndex < |items| ==> exitValue == old(exitValue) && Shows(currentIndex)
    {
      if currentIndex < |items| {
        items := SaveEdit(items, currentIndex, edited);
      }
      currentIndex := currentIndex + 1;
      LoadCurrentItem();
    }

    /** Moves the focus to the next pane of the cycle. */
    method CycleFocus()
      modifies this`focused
      ensures focused == Some(NextPane(old(focused)))
    {
      var next := "template";
      if focused.Some? && focused.value in PaneOrder {
        var idx := IndexOf(PaneOrder, focused.value);
        next := PaneOrder[(idx + 1) % |PaneOrder|];
      }
      focused := Some(next);
    }
  }
}
