/**
 * components/HubSpotChatIframe.tsx: embeds the chat widget inline in a
 * container element. Its mount effect configures the widget, appends the
 * loader script unless one is already in the document, and registers the
 * ready callback; its cleanup removes the widget.
 */
module HubSpotChatIframe {
  import opened Js
  import opened Browser

  /** The id of the element the widget is embedded into. */
  const ContainerId: string := "hubspot-chat-container"

  /** The settings this component writes: load at once, inline in the container. */
  function InlineEmbedSettings(): (s: Settings)
    ensures s.Keys == {"loadImmediately", "inlineEmbedSelector"}
    ensures s["loadImmediately"] == JBool(true)
    ensures s["inlineEmbedSelector"] == JStr("#hubspot-chat-container")
  {
    var selector := "#" + ContainerId;
    assert selector == "#hubspot-chat-container";
    map["loadImmediately" := JBool(true), "inlineEmbedSelector" := JStr(selector)]
  }

  /** What the component renders. */
  datatype Rendered = NothingRendered | ChatContainer(id: string)

  /** The container is rendered exactly when `show` holds. */
  function Render(show: bool): (r: Rendered)
    ensures r.ChatContainer? <==> show
    ensures r.ChatContainer? ==> r.id == ContainerId
  {
    if show then ChatContainer(ContainerId) else NothingRendered
  }

  /**
   * The mount effect (`show` is `true` when the prop is omitted).
   * `containerMounted` says whether the container ref is
   * attached, which it is whenever `show` rendered the container. Returns
   * whether a cleanup function was registered.
   */
  method Mount(w: Window, portalId: string, show: bool, containerMounted: bool) returns (cleanup: bool)
    modifies w`settings, w`document, w`onReady
    ensures cleanup <==> show && containerMounted
    ensures !cleanup ==> unchanged(w)
    ensures cleanup ==> w.settings == Some(InlineEmbedSettings())
    ensures cleanup ==> w.document == AppendLoaderIfAbsent(old(w.document), portalId)
    ensures cleanup ==> w.onReady == Some([LoadWidgetCallback])
    ensures CountId(old(w.document), LoaderId) <= 1 ==> CountId(w.document, LoaderId) <= 1
  {
    if !show || !containerMounted {
      return false;
    }
    // The settings are in place before the loader script is requested.
    w.settings := Some(InlineEmbedSettings());
    var script := LoaderScript(portalId);
    if !HasElementWithId(w.document, LoaderId) {
      w.document := w.document + [script];
    }
    // The ready list is replaced, not extended.
    w.onReady := Some([LoadWidgetCallback]);
    cleanup := true;
    if CountId(old(w.document), LoaderId) <= 1 {
      AppendLoaderKeepsOne(old(w.document), portalId);
    }
  }

  /** The cleanup registered by `Mount`: remove the widget when it exists, swallowing errors. */
  method Cleanup(w: Window)
    modifies w`apiCalls
    ensures w.apiCalls == old(w.apiCalls) + (if w.HasWidget() then [WidgetRemove] else [])
  {
    w.RemoveWidgetIfPresent();
  }
}
