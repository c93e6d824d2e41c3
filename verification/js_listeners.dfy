/** Event addressing and the per-webview table of script-side event listeners,
    taken as plain values: the table maps a listener key (event source and
    event name) to the set of listener ids registered under it. The webview
    that owns and updates such a table is in module WebviewState. */
module JsListeners {

  /** A listener id handed out by the application's event-id counter. */
  type EventId = nat

  /** Who an event is addressed to, or who registered for it; `name` is the
      label of the window or webview. */
  datatype EventSource = Global | Window(name: string) | Webview(name: string)

  /** Key of the listener table; equality is structural, as the derived `PartialEq`. */
  datatype JsEventListenerKey = JsEventListenerKey(source: EventSource, event: string)

  type ListenerMap = map<JsEventListenerKey, set<EventId>>

  /** The values the key's `Hash` implementation feeds the hasher, in order:
      the event name, a tag naming the variant, then the label if there is one. */
  function HashFeed(k: JsEventListenerKey): (feed: seq<string>)
    ensures |feed| == (if k.source.Global? then 2 else 3) && feed[0] == k.event
  {
    match k.source
    case Global => [k.event, "global"]
    case Webview(name) => [k.event, "webview", name]
    case Window(name) => [k.event, "window", name]
  }

  /** Hashing agrees with equality in both directions: equal keys feed the
      same values, and keys that feed the same values are equal, so a lookup
      goes by variant, label and event name and nothing else. */
  lemma HashFeedAgreesWithEquality(k1: JsEventListenerKey, k2: JsEventListenerKey)
    ensures k1 == k2 <==> HashFeed(k1) == HashFeed(k2)
  {
    if HashFeed(k1) == HashFeed(k2) {
      assert HashFeed(k1)[1] == HashFeed(k2)[1];
      assert "global" != "webview" && "global" != "window" && "webview" != "window" by {
        assert "global"[0] != "webview"[0];
        assert "webview"[1] != "window"[1];
      }
    }
  }

  /** The ids registered under `key`, or none when the key is absent. */
  function IdsOf(m: ListenerMap, key: JsEventListenerKey): set<EventId> {
    if key in m then m[key] else {}
  }

  /** `id` is registered under some key of the table. */
  ghost predicate Registered(m: ListenerMap, id: EventId) {
    exists k :: k in m && id in m[k]
  }

  /** The table's invariant: no key maps to an empty set, and an id is
      registered under at most one key. */
  ghost predicate WellFormed(m: ListenerMap) {
    && (forall k :: k in m ==> m[k] != {})
    && (forall k1, k2, id :: k1 in m && k2 in m && id in m[k1] && id in m[k2] ==> k1 == k2)
  }

  /** The table after `entry(key).or_default().insert(id)`. */
  function Inserted(m: ListenerMap, key: JsEventListenerKey, id: EventId): (r: ListenerMap)
    ensures r.Keys == m.Keys + {key}
    ensures id in r[key] && r[key] - {id} == IdsOf(m, key) - {id}
    ensures forall k :: k in m && k != key ==> r[k] == m[k]
  {
    m[key := IdsOf(m, key) + {id}]
  }

  /** The table once `id` is unregistered: the id leaves its set, and a set it
      leaves empty takes its key with it. Keys are never added. */
  function WithoutId(m: ListenerMap, id: EventId): (r: ListenerMap)
    ensures !Registered(r, id)
    ensures r.Keys <= m.Keys
    ensures forall k :: k in m ==> (k in r <==> m[k] - {id} != {})
    ensures forall k :: k in r ==> r[k] + {id} == m[k] + {id}
  {
    map k | k in m && m[k] - {id} != {} :: m[k] - {id}
  }

  /** Registering a fresh id keeps the table well formed. */
  lemma InsertedKeepsWellFormed(m: ListenerMap, key: JsEventListenerKey, id: EventId)
    requires WellFormed(m) && !Registered(m, id)
    ensures WellFormed(Inserted(m, key, id))
  {
    var r := Inserted(m, key, id);
    assert forall k :: k in m ==> id !in m[k];
    forall k1, k2, x | k1 in r && k2 in r && x in r[k1] && x in r[k2] && x != id
      ensures k1 == k2
    {
      assert x in IdsOf(m, k1) && x in IdsOf(m, k2);
    }
  }

  /** Unregistering keeps the table well formed. */
  lemma WithoutIdKeepsWellFormed(m: ListenerMap, id: EventId)
    requires WellFormed(m)
    ensures WellFormed(WithoutId(m, id))
  {
  }

  /** Unregistering an id that no set holds leaves the table as it was. */
  lemma WithoutUnregistered(m: ListenerMap, id: EventId)
    requires WellFormed(m) && !Registered(m, id)
    ensures WithoutId(m, id) == m
  {
    var r := WithoutId(m, id);
    forall k | k in m ensures k in r && r[k] == m[k] {
      assert id !in m[k];
    }
  }

  /** In a well-formed table the id sits in one set only, so unregistering it
      changes that one key: its set shrinks, or the key goes when `id` was its
      last id. Every other key keeps its set. */
  lemma WithoutIdTouchesOneKey(m: ListenerMap, key: JsEventListenerKey, id: EventId)
    requires WellFormed(m) && key in m && id in m[key]
    ensures WithoutId(m, id) == if m[key] == {id} then m - {key} else m[key := m[key] - {id}]
  {
    var r := WithoutId(m, id);
    var expected := if m[key] == {id} then m - {key} else m[key := m[key] - {id}];
    forall k | k in m && k != key ensures k in r && r[k] == m[k] {
      assert id !in m[k];
    }
    assert r.Keys == expected.Keys;
  }

  /** Registering a fresh id and then unregistering it restores the table. */
  lemma InsertThenRemove(m: ListenerMap, key: JsEventListenerKey, id: EventId)
    requires WellFormed(m) && !Registered(m, id)
    ensures WithoutId(Inserted(m, key, id), id) == m
  {
    var ins := Inserted(m, key, id);
    var r := WithoutId(ins, id);
    forall k | k in m ensures k in r && r[k] == m[k] {
      assert id !in m[k];
      assert m[k] != {};
    }
    assert r.Keys == m.Keys;
  }

  /** Per-key delivery rule: an emission from `source` for `event` reaches a
      listener registered under `k` in a webview hosted by window `windowLabel`
      when the names agree and either side is global, the sources are the same,
      or the emission addresses the hosting window and the listener its
      same-labelled webview (window events cascade to the webview, never the
      other way round). */
  predicate Receives(k: JsEventListenerKey, windowLabel: string, source: EventSource, event: string) {
    && k.event == event
    && (|| source == Global
        || k.source == Global
        || k.source == source
        || (source == Window(windowLabel) && k.source == Webview(windowLabel)))
  }

  /** `has_js_listener`: whether an emission reaches a webview of window
      `windowLabel` whose listener table is `listeners`. */
  function HasJsListener(listeners: ListenerMap, windowLabel: string, source: EventSource, event: string): (r: bool)
    ensures r <==> exists k :: k in listeners && Receives(k, windowLabel, source, event)
  {
    if source.Global? then
      exists k | k in listeners :: k.event == event
    else if source.Window? && source.name == windowLabel then
      || JsEventListenerKey(source, event) in listeners
      || JsEventListenerKey(Webview(source.name), event) in listeners
      || JsEventListenerKey(Global, event) in listeners
    else
      || JsEventListenerKey(source, event) in listeners
      || JsEventListenerKey(Global, event) in listeners
  }

  /** A global emission reaches the webview exactly when some listener has that
      event name, whatever source it registered for. */
  lemma GlobalEmission(m: ListenerMap, windowLabel: string, event: string)
    ensures HasJsListener(m, windowLabel, Global, event) <==> exists k :: k in m && k.event == event
  {
  }

  /** An emission to the hosting window reaches the webview exactly when a
      listener is registered for that window, for the same-labelled webview,
      or globally. */
  lemma OwnWindowEmission(m: ListenerMap, windowLabel: string, event: string)
    ensures HasJsListener(m, windowLabel, Window(windowLabel), event) <==>
      || JsEventListenerKey(Window(windowLabel), event) in m
      || JsEventListenerKey(Webview(windowLabel), event) in m
      || JsEventListenerKey(Global, event) in m
  {
  }

  /** Any other emission (a webview, or another window) reaches the webview
      exactly when a listener is registered for that very source or globally. */
  lemma OtherEmission(m: ListenerMap, windowLabel: string, source: EventSource, event: string)
    requires source != Global && source != Window(windowLabel)
    ensures HasJsListener(m, windowLabel, source, event) <==>
      JsEventListenerKey(source, event) in m || JsEventListenerKey(Global, event) in m
  {
  }

  /** The cascade is one-way: an emission to webview `w` does not reach a
      listener registered only for window `w`. */
  lemma WebviewEmissionSkipsWindowListener(windowLabel: string, w: string, event: string, ids: set<EventId>)
    ensures !HasJsListener(map[JsEventListenerKey(Window(w), event) := ids], windowLabel, Webview(w), event)
  {
  }

  /** An emission to some other window reaches no listener registered for a webview. */
  lemma ForeignWindowEmissionSkipsWebviewListeners(m: ListenerMap, windowLabel: string, name: string, event: string)
    requires name != windowLabel
    requires forall k :: k in m ==> k.source.Webview?
    ensures !HasJsListener(m, windowLabel, Window(name), event)
  {
  }

  /** A global emission reaches every webview any other emission of the same event reaches. */
  lemma GlobalEmissionIsWidest(m: ListenerMap, windowLabel: string, source: EventSource, event: string)
    ensures HasJsListener(m, windowLabel, source, event) ==> HasJsListener(m, windowLabel, Global, event)
  {
  }

  /** Registering under `key` makes emissions from the key's own source reach
      the webview; unregistering that listener again restores whatever
      delivery the table had before, for every emission. */
  lemma ListenThenUnlistenDelivery(m: ListenerMap, key: JsEventListenerKey, id: EventId,
                                   windowLabel: string, source: EventSource, event: string)
    requires WellFormed(m) && !Registered(m, id)
    ensures HasJsListener(Inserted(m, key, id), windowLabel, key.source, key.event)
    ensures HasJsListener(WithoutId(Inserted(m, key, id), id), windowLabel, source, event)
        == HasJsListener(m, windowLabel, source, event)
  {
    assert Receives(key, windowLabel, key.source, key.event);
    InsertThenRemove(m, key, id);
  }
}
