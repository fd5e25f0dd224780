/** The medico study hub (app/frontend/src/components/medico/medico-dashboard.tsx):
    the tool cards split into frequently used and other tools, the tool
    whose dialog is open, and the dialog state. */
module MedicoDashboard {
  import opened Common

  /** A tool of the hub's tool list; presentation fields are left out. */
  datatype Tool = Tool(id: string, title: string, isFrequentlyUsed: bool)

  /** `allMedicoToolsList.filter(t => t.isFrequentlyUsed).map(t => t.id)` */
  function FrequentlyUsedIds(all: seq<Tool>): (ids: seq<string>)
    ensures |ids| <= |all|
    ensures forall x :: x in ids <==> exists t :: t in all && t.isFrequentlyUsed && t.id == x
  {
    if all == [] then []
    else
      var rest := FrequentlyUsedIds(all[1..]);
      assert forall t :: t in all[1..] ==> t in all;
      assert forall t :: t in all ==> t == all[0] || t in all[1..];
      (if all[0].isFrequentlyUsed then [all[0].id] else []) + rest
  }

  /** `displayedTools.filter(tool => ids.includes(tool.id) == inIds)`:
      `inIds` selects the frequently used tools, `!inIds` the others. */
  function ToolsWhere(tools: seq<Tool>, ids: seq<string>, inIds: bool): (r: seq<Tool>)
    ensures |r| <= |tools|
    ensures forall t :: t in r <==> t in tools && ((t.id in ids) == inIds)
  {
    if tools == [] then []
    else (if (tools[0].id in ids) == inIds then [tools[0]] else []) + ToolsWhere(tools[1..], ids, inIds)
  }

  /** Merges two lists by a list of choices: `true` takes from the first. */
  function Interleave(choices: seq<bool>, xs: seq<Tool>, ys: seq<Tool>): seq<Tool> {
    if choices == [] then []
    else if choices[0] then
      (if xs == [] then [] else [xs[0]] + Interleave(choices[1..], xs[1..], ys))
    else
      (if ys == [] then [] else [ys[0]] + Interleave(choices[1..], xs, ys[1..]))
  }

  /** Every displayed tool lands in exactly one of the two lists. */
  lemma {:induction false} PartitionCovers(tools: seq<Tool>, ids: seq<string>)
    ensures multiset(ToolsWhere(tools, ids, true)) + multiset(ToolsWhere(tools, ids, false)) == multiset(tools)
  {
    if tools != [] {
      PartitionCovers(tools[1..], ids);
      var f, o := ToolsWhere(tools[1..], ids, true), ToolsWhere(tools[1..], ids, false);
      if tools[0].id in ids {
        assert ToolsWhere(tools, ids, true) == [tools[0]] + f;
        assert ToolsWhere(tools, ids, false) == o;
      } else {
        assert ToolsWhere(tools, ids, true) == f;
        assert ToolsWhere(tools, ids, false) == [tools[0]] + o;
      }
      assert tools == [tools[0]] + tools[1..];
    }
  }

  /** Merging the two lists by the tools' membership gives back the
      displayed order, so each list keeps the order of the displayed one. */
  lemma {:induction false} PartitionKeepsOrder(tools: seq<Tool>, ids: seq<string>)
    ensures Interleave(Membership(tools, ids), ToolsWhere(tools, ids, true), ToolsWhere(tools, ids, false)) == tools
  {
    if tools != [] {
      PartitionKeepsOrder(tools[1..], ids);
      var m := Membership(tools, ids);
      var m' := Membership(tools[1..], ids);
      assert m == [m[0]] + m';
      var f, o := ToolsWhere(tools[1..], ids, true), ToolsWhere(tools[1..], ids, false);
      if tools[0].id in ids {
        assert ToolsWhere(tools, ids, true) == [tools[0]] + f;
        assert ToolsWhere(tools, ids, false) == o;
        assert Interleave(m, [tools[0]] + f, o) == [tools[0]] + Interleave(m', f, o);
      } else {
        assert ToolsWhere(tools, ids, true) == f;
        assert ToolsWhere(tools, ids, false) == [tools[0]] + o;
        assert Interleave(m, f, [tools[0]] + o) == [tools[0]] + Interleave(m', f, o);
      }
      assert tools == [tools[0]] + tools[1..];
    }
  }

  /** Whether each displayed tool is a frequently used one. */
  function Membership(tools: seq<Tool>, ids: seq<string>): (m: seq<bool>)
    ensures |m| == |tools|
    ensures forall i :: 0 <= i < |tools| ==> m[i] == (tools[i].id in ids)
  {
    seq(|tools|, i requires 0 <= i < |tools| => tools[i].id in ids)
  }

  /** No tool is in both lists. */
  lemma PartitionDisjoint(tools: seq<Tool>, ids: seq<string>)
    ensures forall t :: t in ToolsWhere(tools, ids, true) ==> t !in ToolsWhere(tools, ids, false)
  {
  }

  /** The position of the first tool whose id is `id`, or -1: `find`. */
  function FindTool(all: seq<Tool>, id: Option<string>): (k: int)
    ensures -1 <= k < |all|
    ensures k == -1 <==> (id.None? || forall t :: t in all ==> t.id != id.value)
    ensures k >= 0 ==> id.Some? && all[k].id == id.value && forall j :: 0 <= j < k ==> all[j].id != id.value
  {
    if id.None? || all == [] then -1
    else if all[0].id == id.value then 0
    else
      var k := FindTool(all[1..], id);
      assert forall t :: t in all ==> t == all[0] || t in all[1..];
      if k == -1 then -1 else k + 1
  }

  /** `currentTool` */
  function CurrentTool(all: seq<Tool>, activeDialog: Option<string>): (t: Option<Tool>)
    ensures t.Some? <==> activeDialog.Some? && exists u :: u in all && u.id == activeDialog.value
    ensures t.Some? ==> t.value in all && t.value.id == activeDialog.value
  {
    var k := FindTool(all, activeDialog);
    if k == -1 then None else Some(all[k])
  }

  /** The hub's state. */
  class Hub {
    const all: seq<Tool>
    var displayedTools: seq<Tool>
    var activeDialog: Option<string>
    var initialTopic: Option<string>
    var isEditMode: bool

    constructor (all: seq<Tool>)
      ensures this.all == all && displayedTools == all
      ensures activeDialog.None? && initialTopic.None? && !isEditMode
    {
      this.all := all;
      displayedTools := all;
      activeDialog, initialTopic, isEditMode := None, None, false;
    }

    /** `<Dialog open={!!activeDialog}>` */
    predicate DialogOpen()
      reads this
    {
      Truthy(activeDialog)
    }

    /** `handleLaunchTool(toolId, topic = null)` */
    method LaunchTool(toolId: Option<string>, topic: Option<string>)
      modifies this
      ensures initialTopic == topic && activeDialog == toolId
      ensures displayedTools == old(displayedTools) && isEditMode == old(isEditMode)
    {
      initialTopic := topic;
      activeDialog := toolId;
    }

    /** `onOpenChange`: closing resets `activeDialog`; opening changes nothing. */
    method DialogOpenChange(isOpen: bool)
      modifies this
      ensures !isOpen ==> activeDialog.None? && !DialogOpen()
      ensures isOpen ==> activeDialog == old(activeDialog)
      ensures displayedTools == old(displayedTools) && initialTopic == old(initialTopic)
      ensures isEditMode == old(isEditMode)
    {
      if !isOpen {
        activeDialog := None;
      }
    }

    /** The Customize / Save Layout button. */
    method ToggleEditMode()
      modifies this
      ensures isEditMode == !old(isEditMode)
      ensures displayedTools == old(displayedTools) && activeDialog == old(activeDialog)
      ensures initialTopic == old(initialTopic)
    {
      isEditMode := !isEditMode;
    }

    /** `onReorder={setDisplayedTools}` */
    method Reorder(order: seq<Tool>)
      modifies this
      ensures displayedTools == order
      ensures activeDialog == old(activeDialog) && initialTopic == old(initialTopic)
      ensures isEditMode == old(isEditMode)
    {
      displayedTools := order;
    }

    /** The two sections of the hub. */
    function Sections(): (s: (seq<Tool>, seq<Tool>))
      reads this
      ensures multiset(s.0) + multiset(s.1) == multiset(displayedTools)
      ensures forall t :: t in s.0 <==> t in displayedTools && t.id in FrequentlyUsedIds(all)
      ensures forall t :: t in s.1 <==> t in displayedTools && t.id !in FrequentlyUsedIds(all)
    {
      var ids := FrequentlyUsedIds(all);
      PartitionCovers(displayedTools, ids);
      (ToolsWhere(displayedTools, ids, true), ToolsWhere(displayedTools, ids, false))
    }
  }

  /** Launching a listed tool opens its dialog on that tool, with the topic
      passed along. */
  method LaunchOpensTool(h: Hub, id: string, topic: Option<string>)
    requires id != "" && exists t :: t in h.all && t.id == id
    modifies h
    ensures h.DialogOpen() && h.initialTopic == topic
    ensures var t := CurrentTool(h.all, h.activeDialog); t.Some? && t.value.id == id
  {
    h.LaunchTool(Some(id), topic);
  }
}
