# Tauri webview IPC core: listener table and invoke routing

A Dafny model of two parts of a Tauri webview (`core/tauri/src/webview/mod.rs`).

1. **The script-side event listener table.** Every webview keeps a map from a
   listener key (an event source and an event name) to a set of listener ids.
   - `listen_js` registers a fresh id under a key.
   - `unlisten_js` removes an id from the first set that holds it and drops a
     key whose set becomes empty.
   - `has_js_listener` decides whether an emission from a given source reaches
     the webview.

   The webview is a class, `WebviewState.Webview`. Its field `jsEventListeners`
   is a `map<JsEventListenerKey, set<EventId>>`, and its methods `ListenJs` and
   `UnlistenJs` update that field in place. `UnlistenJs` walks the keys in no
   fixed order, as the hash map does. Its loop stops at the first set that
   holds the id.

   Both methods are proved against value-level specification functions in
   module `JsListeners`: `Inserted` and `WithoutId`. The same module holds the
   table invariant `WellFormed`: no key maps to an empty set, and no id sits
   under two keys. Both operations keep it. The delivery predicate
   `HasJsListener` is a pure function, proved equal to a per-key rule
   (`Receives`). The three delivery cases and the one-way window-to-webview
   cascade are lemmas about it.

2. **The routing and authorisation decision of `on_message`**, in module
   `Invoke`.
   - `IsLocalUrl` classifies the webview's current URL.
   - A remote URL without an IPC scope is rejected. The flags of the failed
     scope lookup choose the message.
   - A `plugin:<name>|<command>` command goes through `replace("plugin:", "")`
     and is split on `|`.
   - The plugin is gated against the scope's plugin list. The channel
     pseudo-plugin is exempt.
   - `Route` returns `Reject(message)`, `DispatchPlugin(plugin, command)` or
     `DispatchDirect(command)`.
   - `OnMessage` adds the last step: a dispatched request that no handler
     claims is rejected with `Command <command> not found`.

   `Text` models the two string operations used here: `str::replace` with an
   empty replacement (`RemoveAll`) and `str::split` on one character (`Split`).

Inputs of the model, in place of code this model does not contain:
- `make_relative` against the app URL is a boolean. The scheme and domain of
  the current URL and of the custom protocol URL are values.
- Whether this is a development build (`cfg!(dev)`) is a boolean.
- The result of the IPC scope lookup `remote_access_for` is a `RemoteAccess`
  value.
- Whether the plugin table (`extend_api`) or the direct command table
  (`run_invoke_handler`) claimed the request is the boolean `handled`.
- Whether a script evaluation succeeded is the boolean `evalOk`. The scripts a
  webview evaluated are recorded by what they carry, not as text.
- New ids come from `EventIdCounter`, which stands for the application's
  shared event-id counter. That counter lives in the listener manager, which
  is not part of this model. The model's counter starts at 0 and hands out
  consecutive ids, one per call.

`on_message` keeps the second `|`-separated token as the command and ignores
any further tokens (mod.rs:867-873). `replace` drops every `plugin:`, not only
the leading one (`PrefixRemovedEverywhere`).

The channel pseudo-plugin's name is defined in the IPC channel module. That
module is not part of this model. The model uses the value
`"__TAURI_CHANNEL__"`, and no proof depends on it except that it differs from
`"fs"`.

## Model

| member | source | states |
|---|---|---|
| `JsListeners.HashFeed` | core/tauri/src/webview/mod.rs:96-113 | the hasher is fed the event name first, then a variant tag, then the label for `Window`/`Webview` keys |
| `JsListeners.HashFeedAgreesWithEquality` | core/tauri/src/webview/mod.rs:87-113 | two keys are equal (derived `PartialEq`) iff they feed the hasher the same values, so lookups go by variant, label and event name |
| `JsListeners.Inserted` | core/tauri/src/webview/mod.rs:966-971 | after `entry(key).or_default().insert(id)` the key is present and its set holds `id`, is otherwise the old set or empty, and every other key keeps its set |
| `JsListeners.WithoutId` | core/tauri/src/webview/mod.rs:984-1001 | after unregistering, no set holds the id, no key is added, a key stays iff its set keeps some other id, and a remaining set loses only the id |
| `JsListeners.InsertedKeepsWellFormed` | core/tauri/src/webview/mod.rs:966-971 | registering a fresh id keeps "no empty set, each id under one key" |
| `JsListeners.WithoutIdKeepsWellFormed` | core/tauri/src/webview/mod.rs:984-1001 | unregistering keeps "no empty set, each id under one key" |
| `JsListeners.WithoutUnregistered` | core/tauri/src/webview/mod.rs:984-999 | unregistering an id that no set holds leaves the table unchanged |
| `JsListeners.WithoutIdTouchesOneKey` | core/tauri/src/webview/mod.rs:986-1001 | removing an id changes only the key holding it: the set shrinks, or the key is dropped when the id was its last; all other keys are untouched |
| `JsListeners.InsertThenRemove` | core/tauri/src/webview/mod.rs:949-1002 | registering a fresh id and then unregistering it restores the table exactly |
| `JsListeners.HasJsListener` | core/tauri/src/webview/mod.rs:1013-1050 | true iff some registered key receives the emission under the per-key rule (same event name, and the emission is global, the key is global, the sources agree, or a hosting-window emission meets a same-label webview key) |
| `JsListeners.GlobalEmission` | core/tauri/src/webview/mod.rs:1017-1018 | a `Global` emission matches iff some key has that event name, whatever its source |
| `JsListeners.OwnWindowEmission` | core/tauri/src/webview/mod.rs:1021-1036 | an emission to the hosting window matches iff `(Window{w}, e)`, `(Webview{w}, e)` or `(Global, e)` is a key |
| `JsListeners.OtherEmission` | core/tauri/src/webview/mod.rs:1037-1048 | any other emission matches iff its exact key or `(Global, e)` is a key |
| `JsListeners.WebviewEmissionSkipsWindowListener` | core/tauri/src/webview/mod.rs:1037-1048 | a `Webview{w}` emission does not match a `Window{w}` registration |
| `JsListeners.ForeignWindowEmissionSkipsWebviewListeners` | core/tauri/src/webview/mod.rs:1037-1048 | a `Window` emission for another window's label reaches no `Webview` listener |
| `JsListeners.GlobalEmissionIsWidest` | core/tauri/src/webview/mod.rs:1013-1050 | whenever any emission of an event reaches the webview, a global emission of it does too |
| `JsListeners.ListenThenUnlistenDelivery` | core/tauri/src/webview/mod.rs:949-1050 | after registering, an emission from the key's source reaches the webview; after unregistering that id, delivery is what it was before |
| `WebviewState.EventIdCounter.NextEventId` | core/tauri/src/webview/mod.rs:955 | returns the current counter value and advances it by one (the counter's own code is not part of this model) |
| `WebviewState.Webview.constructor` | core/tauri/src/webview/mod.rs:667-673 | a new webview starts with an empty listener table |
| `WebviewState.Webview.ListenJs` | core/tauri/src/webview/mod.rs:949-974 | always spends one id; if the script evaluates, returns that id, registers it under `(source, event)` as `Inserted` says and records the install script; if not, the table is unchanged; the table invariant is kept |
| `WebviewState.Webview.UnlistenJs` | core/tauri/src/webview/mod.rs:977-1002 | if the teardown script evaluates, the table becomes `WithoutId` of the old table, whatever the event name; the loop removes the id from the first set holding it, breaks, then drops the emptied key; if the script fails, the table is unchanged |
| `Text.RemoveAll` | core/tauri/src/webview/mod.rs:866 | `replace(pattern, "")` never lengthens the string |
| `Text.RemoveAllWithoutOccurrence` | core/tauri/src/webview/mod.rs:866 | a string without an occurrence of the pattern is returned unchanged |
| `Text.RemoveAllKeepsCount` | core/tauri/src/webview/mod.rs:866-867 | removing a pattern without `c` keeps the number of `c`s, so the `|` separators survive the replace |
| `Text.Split` | core/tauri/src/webview/mod.rs:867-869 | `split(sep)` gives one more token than there are separators, no token contains the separator, and joining the tokens with it gives back the input |
| `Text.SplitWithoutSeparator` | core/tauri/src/webview/mod.rs:867-873 | a string without separator splits into itself alone |
| `Text.SplitAtFirst` | core/tauri/src/webview/mod.rs:867-869 | the first token ends at the first separator |
| `Invoke.IsLocalUrl` | core/tauri/src/webview/mod.rs:790-802 | in a release build a URL is local iff it is relative to the app URL or has the protocol URL's scheme and domain; in any build a URL relative to the app URL or with the protocol URL's scheme and domain is local; in a development build a URL on the loopback domain is local too, and nothing else makes a URL local |
| `Invoke.ScopeNotFoundErrorMessage` | core/tauri/src/webview/mod.rs:51-53 | the message names the webview label and the URL and ends with the configuration help text |
| `Invoke.ScopeWindowErrorMessage` | core/tauri/src/webview/mod.rs:55-57 | the message names the label and ends with the configuration help text |
| `Invoke.ScopeDomainErrorMessage` | core/tauri/src/webview/mod.rs:59-61 | the message names the URL and ends with the configuration help text |
| `Invoke.CommandNotFoundMessage` | core/tauri/src/webview/mod.rs:931-939 | the message is `Command `, the command itself, then ` not found` |
| `Invoke.ScopeErrorMessage` | core/tauri/src/webview/mod.rs:810-826 | the message starts with `Scope not defined for URL` iff the lookup matched the window |
| `Invoke.ParsePluginCommand` | core/tauri/src/webview/mod.rs:866-873 | plugin and command contain no `|`; without a `|` the command is empty and the plugin is the whole stripped text |
| `Invoke.StripLeadingPrefix` | core/tauri/src/webview/mod.rs:866 | the leading `plugin:` is removed like any other occurrence |
| `Invoke.SplitNameAndCommand` | core/tauri/src/webview/mod.rs:867-873 | a name, a separator, a command, then nothing or another separator and more text, yields the name and the command as the first two tokens |
| `Invoke.ParseWellFormed` | core/tauri/src/webview/mod.rs:865-873 | `plugin:` followed by a name, a separator and a command (and optionally further tokens) parses to `(name, command)` when none contains a colon |
| `Invoke.RemoveAllAfterSeparator` | core/tauri/src/webview/mod.rs:866 | no `plugin:` can start inside a colon-free text ending in the separator, so removal only affects what follows it |
| `Invoke.PrefixRemovedEverywhere` | core/tauri/src/webview/mod.rs:866 | a command that repeats `plugin:` after the separator still parses to `(name, command)`: every occurrence of the prefix is dropped |
| `Invoke.PluginWithoutCommand` | core/tauri/src/webview/mod.rs:866-873 | `plugin:<name>` without a separator names the plugin and an empty command |
| `Invoke.Route` | core/tauri/src/webview/mod.rs:805-940 | a remote origin gets past routing only with a scope; a plugin dispatch carries the parsed plugin and command and is local, the channel plugin, or a listed plugin; a direct dispatch happens iff the origin is local or has a scope and the command lacks the prefix, and carries the raw command |
| `Invoke.OnMessage` | core/tauri/src/webview/mod.rs:805-941 | a routing rejection ends the request with that message and no handler invoked; a handler takes over iff routing dispatched and the handler claimed the request; a rejection before any handler is the routing rejection; a rejection after a handler is a not-found message |
| `Invoke.RemoteWithoutScopeRejected` | core/tauri/src/webview/mod.rs:810-864 | a remote origin without a scope is rejected with no handler invoked: the domain message if the window matched, else the window message if the domain matched, else the combined message |
| `Invoke.LocalOriginBypassesScope` | core/tauri/src/webview/mod.rs:807-879 | for a local origin the scope lookup does not affect the decision, and routing never rejects |
| `Invoke.RemotePluginGate` | core/tauri/src/webview/mod.rs:865-883 | for a remote origin with a scope, a plugin command is dispatched iff its plugin is the channel plugin or listed, and is rejected with `Not allowed by the scope` otherwise |
| `Invoke.DirectCommandsIgnorePluginList` | core/tauri/src/webview/mod.rs:934-936 | with a scope, a command without the plugin prefix is dispatched directly whatever the plugin list holds |
| `Invoke.UnclaimedIsNotFound` | core/tauri/src/webview/mod.rs:885-939 | a dispatched request that no handler claims is rejected as `Command <command> not found`, naming the command without the plugin |
| `Invoke.RemoteUnlistedPluginRejected` | core/tauri/src/webview/mod.rs:865-883 | a plugin command `plugin:<name>`, separator, `<command>`, whose name and command are colon-free and separator-free, for a plugin neither the channel plugin nor listed, from a remote origin with a scope, is rejected with `Not allowed by the scope` and no handler is invoked |
| `Invoke.RemoteUnlistedParsedPluginRejected` | core/tauri/src/webview/mod.rs:865-883 | any command with the plugin prefix whose parsed plugin is neither the channel plugin nor listed, from a remote origin with a scope, is rejected with `Not allowed by the scope` and no handler is invoked |
| `Invoke.RemoteFsCallRejected` | core/tauri/src/webview/mod.rs:865-883 | the command `plugin:fs` + separator + `readFile` from a remote origin whose scope lists only `dialog` is rejected with `Not allowed by the scope`, whatever the handlers would do |
| `Invoke.UnknownDirectCommand` | core/tauri/src/webview/mod.rs:934-939 | an unclaimed direct command `doStuff` is rejected as `Command doStuff not found` |

## Left out

- The invoke resolver's single-use response slot. It is only built here, as a `Some` behind a lock. The code that takes from it, the responder and the custom responder live in the IPC module, which is not part of this model.
- The text of the listener install, teardown and emit scripts, and the `emit_js` call. Script evaluation is an effect that succeeds or fails, given by `evalOk`.
- The mobile fallback for unclaimed plugin commands (mod.rs:893-929). It walks the JSON payload and calls a native mobile command runner.
- URL semantics. `make_relative`, and the computation of scheme and domain, belong to the `url` crate. They are inputs.
- The IPC scope lookup `remote_access_for`, and the plugin and direct handler tables. They are inputs (`RemoteAccess`, `handled`).
- Locking of the listener table (`Arc<Mutex<..>>`) and sharing it between clones of a webview. The table is owned by one `Webview` object.
- WebviewState.EventIdCounter.NextEventId: ids are unbounded naturals. The 32-bit width of `EventId` and any wrap-around of the manager's counter are not modelled.
- The webview builder, platform handles, `with_webview`, `print`, devtools, navigation, and `listen`/`unlisten`/`once`/`emit*`. These are configuration or forward to the application manager.
- `core/tauri/src/path/desktop.rs`. Every function there wraps an operating-system directory lookup.
