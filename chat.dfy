/**
 * components/HubSpotChat.tsx: the floating chat widget. Its mount effect
 * appends the loader script unless one is already in the document, its
 * cleanup removes the widget, and a second effect opens the widget when
 * `show` holds. The component itself renders nothing.
 */
module HubSpotChat {
  import opened Browser

  /** The mount effect (`show` is `true` when the prop is omitted). Returns whether a cleanup function was registered. */
  method Mount(w: Window, portalId: string, show: bool) returns (cleanup: bool)
    modifies w`document
    ensures cleanup == show
    ensures !show ==> unchanged(w)
    ensures show ==> w.document == AppendLoaderIfAbsent(old(w.document), portalId)
    ensures CountId(old(w.document), LoaderId) <= 1 ==> CountId(w.document, LoaderId) <= 1
  {
    if !show {
      return false;
    }
    var script := LoaderScript(portalId);
    if !HasElementWithId(w.document, LoaderId) {
      w.document := w.document + [script];
    }
    cleanup := true;
    if CountId(old(w.document), LoaderId) <= 1 {
      AppendLoaderKeepsOne(old(w.document), portalId);
    }
  }

  /** The cleanup registered by `Mount`: remove the widget when it exists, swallowing errors. */
  method Cleanup(w: Window)
    modifies w`apiCalls
    ensures w.apiCalls == old(w.apiCalls) + (if w.HasWidget() then [WidgetRemove] else [])
  {
    w.RemoveWidgetIfPresent();
  }

  /** The open-on-show effect: `widget.open()` when `show` holds and the widget exists, errors swallowed. */
  method OpenOnShow(w: Window, show: bool)
    modifies w`apiCalls
    ensures w.apiCalls == old(w.apiCalls) + (if show && w.HasWidget() then [WidgetOpen] else [])
  {
    if show && w.HasWidget() {
      w.apiCalls := w.apiCalls + [WidgetOpen];
    }
  }
}
