/**
 * The browser globals the chat components share (declared on `Window` in
 * components/SmartHubSpotChat.tsx): the tenant record, the `_hsq` tracking
 * queue, the widget settings, the `hsConversationsOnReady` list, the
 * third-party `HubSpotConversations` API, the document's elements and
 * `localStorage`. The third-party API is code this model cannot see: only
 * whether it is present, and the calls made into it, are recorded.
 *
 * Also here: the loader script both chat components append, and the
 * argument that at most one loader element is ever in the document.
 */
module Browser {
  import opened Js

  /** A value stored in a settings object: a boolean, a string or `undefined`. */
  datatype JsValue = JBool(b: bool) | JStr(s: string) | JUndefined

  /** `window.hsConversationsSettings`, a record from property name to value. */
  type Settings = map<string, JsValue>

  /** `window.compoundDirectTenant`. */
  datatype Tenant = Tenant(slug: string, hostname: string)

  /** The visitor record pushed with an `identify` command; absent properties are `None`. */
  datatype IdentifyData = IdentifyData(
    email: string,
    firstname: Option<string>,
    lastname: Option<string>,
    workspaceSlug: Option<string>,
    workspaceHostname: Option<string>,
    company: Option<string>)

  /** An entry of the `_hsq` queue. */
  datatype HsqCommand = Identify(data: IdentifyData) | TrackPageView

  /** The callbacks this project puts on `hsConversationsOnReady`: load the widget if present. */
  datatype ReadyCallback = LoadWidgetCallback

  /** `window.HubSpotConversations`: absent, or present with or without its `widget`. */
  datatype ConversationsApi = NoApi | Api(hasWidget: bool)

  /** A call made into the third-party API. */
  datatype ApiCall = WidgetLoad | WidgetOpen | WidgetRemove | Clear(resetWidget: bool)

  /** A document element: its tag name, `id`, `src` and the `async`/`defer` flags. */
  datatype Element = Element(tag: string, id: string, src: string, async: bool, defer: bool)

  class Window {
    var tenant: Option<Tenant>
    var hsq: Option<seq<HsqCommand>>
    var settings: Option<Settings>
    var onReady: Option<seq<ReadyCallback>>
    var api: ConversationsApi
    /** Every call made into `HubSpotConversations`, oldest first. */
    var apiCalls: seq<ApiCall>
    /** The document's elements in document order; `appendChild` on the body adds at the end. */
    var document: seq<Element>
    var storage: map<string, string>

    /** A page as loaded: no globals set yet, the given API, elements and storage. */
    constructor (api: ConversationsApi, document: seq<Element>, storage: map<string, string>)
      ensures this.tenant == None && this.hsq == None && this.settings == None && this.onReady == None
      ensures this.api == api && this.apiCalls == [] && this.document == document && this.storage == storage
    {
      this.tenant := None;
      this.hsq := None;
      this.settings := None;
      this.onReady := None;
      this.api := api;
      this.apiCalls := [];
      this.document := document;
      this.storage := storage;
    }

    /** Whether `HubSpotConversations?.widget` is truthy. */
    predicate HasWidget()
      reads this
    {
      api.Api? && api.hasWidget
    }

    /**
     * The unmount cleanup of both chat components: call `widget.remove()`
     * when the widget exists. An error it throws is caught and only logged,
     * so the cleanup always completes.
     */
    method RemoveWidgetIfPresent()
      modifies this`apiCalls
      ensures apiCalls == old(apiCalls) + (if HasWidget() then [WidgetRemove] else [])
    {
      if HasWidget() {
        apiCalls := apiCalls + [WidgetRemove];
      }
    }

    /**
     * The callback this project registers on `hsConversationsOnReady`, as
     * the external script runs it once the API is ready: `widget.load()`
     * when the widget exists, nothing otherwise.
     */
    method RunLoadWidgetCallback()
      modifies this`apiCalls
      ensures apiCalls == old(apiCalls) + (if HasWidget() then [WidgetLoad] else [])
    {
      if HasWidget() {
        apiCalls := apiCalls + [WidgetLoad];
      }
    }
  }

  // ---------------------------------------------------------------------------
  // the loader script

  /** The fixed id that marks the chat loader script. */
  const LoaderId: string := "hs-script-loader"

  /** The script element both chat components build: `//js.hs-scripts.com/<portalId>.js`, async, deferred. */
  function LoaderScript(portalId: string): (e: Element)
    ensures e.tag == "script" && e.id == LoaderId && e.async && e.defer
    ensures e.src == "//js.hs-scripts.com/" + portalId + ".js"
  {
    Element("script", LoaderId, "//js.hs-scripts.com/" + portalId + ".js", true, true)
  }

  /** `document.getElementById(id)` finds something. */
  predicate HasElementWithId(doc: seq<Element>, id: string)
  {
    exists i :: 0 <= i < |doc| && doc[i].id == id
  }

  /** How many elements carry `id`. */
  function CountId(doc: seq<Element>, id: string): nat
  {
    if |doc| == 0 then 0
    else (if doc[0].id == id then 1 else 0) + CountId(doc[1..], id)
  }

  lemma {:induction false} CountIdPositiveIffPresent(doc: seq<Element>, id: string)
    ensures CountId(doc, id) > 0 <==> HasElementWithId(doc, id)
  {
    if |doc| > 0 {
      CountIdPositiveIffPresent(doc[1..], id);
      if HasElementWithId(doc[1..], id) {
        var i :| 0 <= i < |doc[1..]| && doc[1..][i].id == id;
        assert doc[i + 1].id == id;
      }
      if HasElementWithId(doc, id) && doc[0].id != id {
        var i :| 0 <= i < |doc| && doc[i].id == id;
        assert doc[1..][i - 1].id == id;
      }
    }
  }

  lemma {:induction false} CountIdAppend(doc: seq<Element>, e: Element, id: string)
    ensures CountId(doc + [e], id) == CountId(doc, id) + (if e.id == id then 1 else 0)
  {
    if |doc| > 0 {
      assert (doc + [e])[1..] == doc[1..] + [e];
      CountIdAppend(doc[1..], e, id);
    }
  }

  /** Mounting either chat component: append the loader script unless an element with its id exists. */
  function AppendLoaderIfAbsent(doc: seq<Element>, portalId: string): seq<Element>
  {
    if HasElementWithId(doc, LoaderId) then doc else doc + [LoaderScript(portalId)]
  }

  /**
   * A mount leaves exactly one loader element when there was at most one
   * before, and changes nothing when one was already there.
   */
  lemma AppendLoaderKeepsOne(doc: seq<Element>, portalId: string)
    requires CountId(doc, LoaderId) <= 1
    ensures CountId(AppendLoaderIfAbsent(doc, portalId), LoaderId) == 1
    ensures HasElementWithId(doc, LoaderId) ==> AppendLoaderIfAbsent(doc, portalId) == doc
  {
    CountIdPositiveIffPresent(doc, LoaderId);
    CountIdAppend(doc, LoaderScript(portalId), LoaderId);
  }

  /** A second mount, with any portal id, inserts nothing. */
  lemma AppendLoaderIdempotent(doc: seq<Element>, first: string, second: string)
    ensures AppendLoaderIfAbsent(AppendLoaderIfAbsent(doc, first), second) == AppendLoaderIfAbsent(doc, first)
  {
    var d := AppendLoaderIfAbsent(doc, first);
    if !HasElementWithId(doc, LoaderId) {
      assert d[|doc|].id == LoaderId;
    }
  }

  /** The document after one mount per portal id, in order. */
  function MountAll(doc: seq<Element>, portalIds: seq<string>): seq<Element>
    decreases |portalIds|
  {
    if |portalIds| == 0 then doc
    else MountAll(AppendLoaderIfAbsent(doc, portalIds[0]), portalIds[1..])
  }

  /**
   * Across any number of mounts the document holds at most one loader
   * element, and exactly one once anything has mounted; the loader found is
   * the one the first mount that found none appended.
   */
  lemma {:induction false} MountAllKeepsOneLoader(doc: seq<Element>, portalIds: seq<string>)
    requires CountId(doc, LoaderId) <= 1
    ensures CountId(MountAll(doc, portalIds), LoaderId) <= 1
    ensures |portalIds| > 0 ==> CountId(MountAll(doc, portalIds), LoaderId) == 1
    ensures |portalIds| > 0 ==> MountAll(doc, portalIds) == AppendLoaderIfAbsent(doc, portalIds[0])
    decreases |portalIds|
  {
    if |portalIds| > 0 {
      var d := AppendLoaderIfAbsent(doc, portalIds[0]);
      AppendLoaderKeepsOne(doc, portalIds[0]);
      CountIdPositiveIffPresent(d, LoaderId);
      MountAllKeepsOneLoader(d, portalIds[1..]);
      if |portalIds| > 1 {
        assert MountAll(d, portalIds[1..]) == AppendLoaderIfAbsent(d, portalIds[1]);
        AppendLoaderIdempotent(doc, portalIds[0], portalIds[1]);
      }
    }
  }
}
