/** A webview's own listener table, updated in place by `listen_js` and
    `unlisten_js`. Evaluating a script in the webview is an abstract effect:
    the caller says whether the evaluation succeeded, and the webview records
    the scripts it evaluated. */
module WebviewState {
  import opened Wrappers
  import opened JsListeners

  /** The listener install and teardown scripts, by what they carry. */
  datatype Script =
    | ListenScript(event: string, id: EventId, source: EventSource, handler: nat)
    | UnlistenScript(event: string, id: EventId)

  /** `crate::Result` of the two operations: a script evaluation can fail. */
  datatype EvalResult<T> = Ok(value: T) | EvalFailed

  /** The application's event-id counter, shared by every webview. It is kept by
      the application's listener manager, which is not part of this model; only
      its allocation of ids in increasing order is. */
  class EventIdCounter {
    var next: EventId

    constructor ()
      ensures next == 0
    {
      next := 0;
    }

    method NextEventId() returns (id: EventId)
      modifies this
      ensures id == old(next) && next == old(next) + 1
    {
      id := next;
      next := next + 1;
    }
  }

  class Webview {
    const webviewLabel: string
    /** Label of the window hosting this webview. */
    const windowLabel: string
    const counter: EventIdCounter
    var jsEventListeners: ListenerMap
    /** Scripts evaluated in this webview, oldest first. */
    var evaluated: seq<Script>

    /** The table is well formed and holds only ids the counter has handed out,
        so the next id allocated is registered nowhere. */
    ghost predicate Valid()
      reads this, counter
    {
      && WellFormed(jsEventListeners)
      && forall k, id :: k in jsEventListeners && id in jsEventListeners[k] ==> id < counter.next
    }

    constructor (webviewLabel: string, windowLabel: string, counter: EventIdCounter)
      ensures Valid()
      ensures this.webviewLabel == webviewLabel && this.windowLabel == windowLabel && this.counter == counter
      ensures jsEventListeners == map[] && evaluated == []
    {
      this.webviewLabel := webviewLabel;
      this.windowLabel := windowLabel;
      this.counter := counter;
      jsEventListeners := map[];
      evaluated := [];
    }

    /** `listen_js`: allocates an id, evaluates the install script, and only
        then registers the id under `(source, event)`. A failed evaluation
        leaves the table as it was, though the id is spent. */
    method ListenJs(source: EventSource, event: string, handler: nat, evalOk: bool) returns (r: EvalResult<EventId>)
      requires Valid()
      modifies this, counter
      ensures Valid()
      ensures counter.next == old(counter.next) + 1
      ensures r.Ok? <==> evalOk
      ensures r.Ok? ==> r.value == old(counter.next)
      ensures r.Ok? ==>
        && jsEventListeners == Inserted(old(jsEventListeners), JsEventListenerKey(source, event), r.value)
        && evaluated == old(evaluated) + [ListenScript(event, r.value, source, handler)]
      ensures r.EvalFailed? ==> jsEventListeners == old(jsEventListeners) && evaluated == old(evaluated)
    {
      var eventId := counter.NextEventId();
      if !evalOk {
        return EvalFailed;
      }
      evaluated := evaluated + [ListenScript(event, eventId, source, handler)];
      var key := JsEventListenerKey(source, event);
      InsertedKeepsWellFormed(jsEventListeners, key, eventId);
      var ids := if key in jsEventListeners then jsEventListeners[key] else {};
      jsEventListeners := jsEventListeners[key := ids + {eventId}];
      r := Ok(eventId);
    }

    /** `unlisten_js`: evaluates the teardown script, then walks the table in
        no particular order, removes `id` from the first set holding it and
        stops; a set left empty loses its key afterwards. The event name only
        goes into the script: the id is removed wherever it is registered. */
    method UnlistenJs(event: string, id: EventId, evalOk: bool) returns (r: EvalResult<()>)
      requires Valid()
      modifies this
      ensures Valid()
      ensures r.Ok? <==> evalOk
      ensures jsEventListeners == if evalOk then WithoutId(old(jsEventListeners), id) else old(jsEventListeners)
      ensures evaluated == if evalOk then old(evaluated) + [UnlistenScript(event, id)] else old(evaluated)
    {
      if !evalOk {
        return EvalFailed;
      }
      evaluated := evaluated + [UnlistenScript(event, id)];

      ghost var before := jsEventListeners;
      ghost var found := false;
      var empty: Option<JsEventListenerKey> := None;
      var unvisited := jsEventListeners.Keys;
      while unvisited != {}
        invariant unvisited <= before.Keys
        invariant jsEventListeners == before && empty == None && !found
        invariant forall k :: k in before && k !in unvisited ==> id !in before[k]
        decreases unvisited
      {
        var key :| key in unvisited;
        var ids := jsEventListeners[key];
        if id in ids {
          WithoutIdTouchesOneKey(before, key, id);
          ids := ids - {id};
          jsEventListeners := jsEventListeners[key := ids];
          if ids == {} {
            empty := Some(key);
            assert jsEventListeners - {key} == WithoutId(before, id);
          } else {
            assert jsEventListeners == WithoutId(before, id);
          }
          found := true;
          break;
        }
        unvisited := unvisited - {key};
      }
      if !found {
        WithoutUnregistered(before, id);
      }

      if empty.Some? {
        jsEventListeners := jsEventListeners - {empty.value};
      }
      WithoutIdKeepsWellFormed(before, id);
      r := Ok(());
    }
  }

  /** Register a webview listener, see an emission reach the webview, remove
      the listener, and see the emission no longer reach it. */
  method ListenEmitUnlistenScenario(counter: EventIdCounter)
    modifies counter
  {
    var webview := new Webview("main", "main", counter);
    var source := EventSource.Webview("main");
    var listened := webview.ListenJs(source, "ping", 1, true);
    assert HasJsListener(webview.jsEventListeners, webview.windowLabel, source, "ping") by {
      assert Receives(JsEventListenerKey(source, "ping"), "main", source, "ping");
    }
    var _ := webview.UnlistenJs("ping", listened.value, true);
    assert webview.jsEventListeners == map[];
    assert !HasJsListener(webview.jsEventListeners, webview.windowLabel, source, "ping");
    assert webview.evaluated == [ListenScript("ping", listened.value, source, 1), UnlistenScript("ping", listened.value)];
  }
}
