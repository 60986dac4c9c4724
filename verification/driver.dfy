/** The application driver of the `ui_thread` revision
  * (`ui_thread/driver.rs`): it applies the commands the script thread posts,
  * and turns widget actions into events for the script, naming the widget by
  * the script's id, which it finds by searching the registry for the
  * toolkit id the action came from. */
module Driver {
  import opened Common
  import opened Kinds
  import opened Registry
  import opened Toolkit
  import opened Creation
  import opened Handler
  import opened ThreadHandler
  import Events

  /** What reaches `on_action`: a posted command, a checkbox toggle, a number
    * (a slider's new value), or any other action, known by its type name. */
  datatype Action =
    | CommandAction(cmd: JsCommand)
    | CheckboxToggled(checked: bool)
    | NumberAction(value: real)
    | OtherAction(typeName: string)

  /** Some record carries toolkit id `widgetId`. */
  ghost predicate Known(w: Widgets, widgetId: nat) {
    exists k :: k in w && w[k].widgetId == widgetId
  }

  /** No two records share a toolkit id. */
  ghost predicate UniqueNativeIds(w: Widgets) {
    forall a, b :: a in w && b in w && w[a].widgetId == w[b].widgetId ==> a == b
  }

  /** Every record's toolkit id was handed out before `next`. */
  ghost predicate IdsBelow(w: Widgets, next: nat) {
    forall k :: k in w ==> w[k].widgetId < next
  }

  /** `find_js_id`: the script id of a record carrying `widgetId`, or None
    * when there is none. The registry is searched in no particular order;
    * with unique toolkit ids the answer is the one such record. */
  method FindJsId(w: Widgets, widgetId: nat) returns (r: Option<string>)
    ensures r.Some? ==> r.value in w && w[r.value].widgetId == widgetId
    ensures r.None? <==> !Known(w, widgetId)
  {
    var rest := w.Keys;
    while rest != {}
      invariant rest <= w.Keys
      invariant forall k :: k in w && k !in rest ==> w[k].widgetId != widgetId
      decreases |rest|
    {
      var k :| k in rest;
      if w[k].widgetId == widgetId {
        return Some(k);
      }
      rest := rest - {k};
    }
    return None;
  }

  /** A creation keeps toolkit ids unique and below the allocator: the new
    * record takes the allocator's id, which no record had yet. */
  lemma CreationKeepsIdsUnique(w0: Widgets, c0: map<string, nat>, ops0: seq<NativeOp>, next0: nat,
                               w: Widgets, c: map<string, nat>, ops: seq<NativeOp>, next: nat,
                               id: string, kind: WidgetKind, parentId: Option<string>, text: Option<string>,
                               style: Option<StyleTypes.BoxStyle>, data: Option<WidgetData>,
                               decode: seq<Byte> -> Option<Pixels>)
    requires IdsBelow(w0, next0) && UniqueNativeIds(w0)
    requires Created(w0, c0, ops0, next0, w, c, ops, next, id, kind, parentId, text, style, data, decode)
    ensures IdsBelow(w, next) && UniqueNativeIds(w)
  {
    if w != w0 {
      assert w == w0[id := WidgetInfo(next0, kind, parentId, ChildCount(w0, parentId.GetOr(RootKey)))];
      forall a, b | a in w && b in w && w[a].widgetId == w[b].widgetId
        ensures a == b
      {
        if a != id && b != id {
          assert w[a] == w0[a] && w[b] == w0[b];
        }
      }
    }
  }

  /** A removal keeps toolkit ids unique and below the allocator: surviving
    * records keep their ids. */
  lemma RemovalKeepsIdsUnique(w0: Widgets, c0: map<string, nat>, w: Widgets, c: map<string, nat>, id: string, next: nat)
    requires IdsBelow(w0, next) && UniqueNativeIds(w0)
    requires Removed(w0, c0, w, c, id)
    ensures IdsBelow(w, next) && UniqueNativeIds(w)
  {
    forall a, b | a in w && b in w && w[a].widgetId == w[b].widgetId
      ensures a == b
    {
      assert w0[a].widgetId == w[a].widgetId && w0[b].widgetId == w[b].widgetId;
    }
  }

  /** The event log after announcing `kind` for the widget with toolkit id
    * `widgetId`: one event naming its script id, or nothing when no record
    * carries that id. */
  ghost predicate Announced(before: seq<Events.UiEvent>, after: seq<Events.UiEvent>, w: Widgets, widgetId: nat,
                            kind: Events.WidgetActionKind)
  {
    if Known(w, widgetId)
    then exists k :: k in w && w[k].widgetId == widgetId && after == before + [Events.WidgetAction(k, kind)]
    else after == before
  }

  /** `AppJsDriver`: the registry it owns, the process-wide id allocator and
    * the events it has sent to the script thread. */
  class AppJsDriver {
    const manager: WidgetManager
    const ids: IdAllocator
    var sent: seq<Events.UiEvent>

    /** Toolkit ids in the registry are distinct and all handed out already,
      * so the search by toolkit id has at most one answer. */
    ghost predicate Valid()
      reads this, manager, ids
    {
      IdsBelow(manager.widgets, ids.next) && UniqueNativeIds(manager.widgets)
    }

    /** `AppJsDriver::new`: an empty registry, nothing sent. */
    constructor (ids: IdAllocator)
      ensures this.ids == ids && fresh(manager) && manager.widgets == map[] && sent == []
      ensures Valid()
    {
      this.ids := ids;
      manager := new WidgetManager();
      sent := [];
    }

    /** `on_action`. A posted command goes to the handler and sends nothing;
      * a toggle updates the checkbox and sends 1 or 0; a number is sent as
      * the new value; a button press is sent as a click; anything else is
      * ignored. Events are sent only for widgets the registry knows. */
    method OnAction(root: RenderRoot, widgetId: nat, action: Action, numbers: NumberParsers,
                    decode: seq<Byte> -> Option<Pixels>)
      requires Valid()
      modifies this, root, manager, ids
      ensures Valid()
      ensures action.CommandAction? ==> sent == old(sent)
      ensures action.CommandAction? && !action.cmd.CreateWidget? && !action.cmd.RemoveWidget? ==>
                && manager.widgets == old(manager.widgets) && manager.childCounts == old(manager.childCounts)
                && ids.next == old(ids.next)
                && root.ops == old(root.ops) + ThreadEdits(action.cmd, old(manager.widgets), numbers, decode)
      ensures action.CommandAction? && action.cmd.CreateWidget? ==>
                Created(old(manager.widgets), old(manager.childCounts), old(root.ops), old(ids.next),
                        manager.widgets, manager.childCounts, root.ops, ids.next,
                        action.cmd.id, action.cmd.kind, action.cmd.parentId, action.cmd.initialText,
                        action.cmd.initialStyle, action.cmd.data, decode)
      ensures action.CommandAction? && action.cmd.RemoveWidget? ==>
                && root.ops == old(root.ops) + RemovalEffect(old(manager.widgets), action.cmd.id).edits
                && Removed(old(manager.widgets), old(manager.childCounts), manager.widgets, manager.childCounts, action.cmd.id)
                && ids.next == old(ids.next)
      ensures !action.CommandAction? ==>
                manager.widgets == old(manager.widgets) && manager.childCounts == old(manager.childCounts)
                && ids.next == old(ids.next)
      ensures action.CheckboxToggled? ==>
                && root.ops == old(root.ops) + [SetCheckboxChecked(widgetId, action.checked)]
                && Announced(old(sent), sent, manager.widgets, widgetId,
                             Events.ValueChanged(if action.checked then 1.0 else 0.0))
      ensures action.NumberAction? ==>
                root.ops == old(root.ops) && Announced(old(sent), sent, manager.widgets, widgetId, Events.ValueChanged(action.value))
      ensures action.OtherAction? && Contains(action.typeName, "ButtonPress") ==>
                root.ops == old(root.ops) && Announced(old(sent), sent, manager.widgets, widgetId, Events.Click)
      ensures action.OtherAction? && !Contains(action.typeName, "ButtonPress") ==>
                root.ops == old(root.ops) && sent == old(sent)
    {
      match action {
        case CommandAction(cmd) =>
          ghost var w0, c0, ops0, next0 := manager.widgets, manager.childCounts, root.ops, ids.next;
          HandleJsCommand(cmd, root, manager, ids, numbers, decode);
          if cmd.CreateWidget? {
            CreationKeepsIdsUnique(w0, c0, ops0, next0, manager.widgets, manager.childCounts, root.ops, ids.next,
                                   cmd.id, cmd.kind, cmd.parentId, cmd.initialText, cmd.initialStyle, cmd.data, decode);
          } else if cmd.RemoveWidget? {
            RemovalKeepsIdsUnique(w0, c0, manager.widgets, manager.childCounts, cmd.id, ids.next);
          }
        case CheckboxToggled(checked) =>
          root.Edit(SetCheckboxChecked(widgetId, checked));
          var id := FindJsId(manager.widgets, widgetId);
          if id.Some? {
            sent := sent + [Events.WidgetAction(id.value, Events.ValueChanged(if checked then 1.0 else 0.0))];
          }
        case NumberAction(value) =>
          var id := FindJsId(manager.widgets, widgetId);
          if id.Some? {
            sent := sent + [Events.WidgetAction(id.value, Events.ValueChanged(value))];
          }
        case OtherAction(typeName) =>
          if Contains(typeName, "ButtonPress") {
            var id := FindJsId(manager.widgets, widgetId);
            if id.Some? {
              sent := sent + [Events.WidgetAction(id.value, Events.Click)];
            }
          }
      }
    }
  }

  /** With unique toolkit ids, an announcement names the one record carrying
    * the id: the event is determined by the registry. */
  lemma AnnouncementDetermined(before: seq<Events.UiEvent>, after1: seq<Events.UiEvent>,
                               after2: seq<Events.UiEvent>, w: Widgets, widgetId: nat,
                               kind: Events.WidgetActionKind)
    requires UniqueNativeIds(w)
    requires Announced(before, after1, w, widgetId, kind) && Announced(before, after2, w, widgetId, kind)
    ensures after1 == after2
  {
    if Known(w, widgetId) {
      var k1 :| k1 in w && w[k1].widgetId == widgetId && after1 == before + [Events.WidgetAction(k1, kind)];
      var k2 :| k2 in w && w[k2].widgetId == widgetId && after2 == before + [Events.WidgetAction(k2, kind)];
      assert k1 == k2;
    }
  }
}
