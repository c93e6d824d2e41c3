/** The routing and authorisation decision `on_message` takes for one invoke
    request: classify the webview's current URL as local or remote, reject a
    remote origin the IPC scope does not cover, split a `plugin:<name>|<cmd>`
    command, gate the plugin against the scope's plugin list, and reject a
    command no handler claims. The URL comparisons, the scope lookup and the
    handler tables are inputs; what a handler then does is not modelled. */
module Invoke {
  import opened Wrappers
  import opened Text

  /** Rejection for a plugin the remote scope does not list. */
  const IpcScopeDoesNotAllow := "Not allowed by the scope"
  const PluginPrefix := "plugin:"
  /** The channel transport's pseudo-plugin, defined in the IPC channel module
      (not part of this model); every origin may reach it. */
  const ChannelPluginName := "__TAURI_CHANNEL__"
  /** Domain the development server is reached on. */
  const DevLoopbackDomain := "tauri.localhost"
  const ScopeHelp := "See https://tauri.app/v1/api/config/#securityconfig.dangerousremotedomainipcaccess and https://docs.rs/tauri/1/tauri/scope/struct.IpcScope.html#method.configure_remote_access"

  /** Scheme and domain of a URL; `domain` is `None` for a URL without a host name. */
  datatype UrlParts = UrlParts(scheme: string, domain: Option<string>)

  /** `is_local_url`: the current URL is relative to the app URL (the outcome
      of `make_relative`, an input here), or has the scheme and domain of the
      app's custom protocol URL, or, in a development build only, is on the
      development loopback domain. */
  function IsLocalUrl(relativeToAppUrl: bool, current: UrlParts, protocol: UrlParts, devBuild: bool): (local: bool)
    ensures relativeToAppUrl || current == protocol ==> local
    ensures !devBuild ==>
      (local <==> relativeToAppUrl || current == protocol)
    ensures devBuild && current.domain == Some(DevLoopbackDomain) ==> local
    ensures local && !relativeToAppUrl && current != protocol ==>
      devBuild && current.domain == Some(DevLoopbackDomain)
  {
    || relativeToAppUrl
    || (current.scheme == protocol.scheme && current.domain == protocol.domain)
    || (devBuild && current.domain == Some(DevLoopbackDomain))
  }

  /** Rejection when neither the window nor the URL has a remote-access scope. */
  function ScopeNotFoundErrorMessage(webviewLabel: string, url: string): (msg: string)
    ensures StartsWith(msg, "Scope not defined for window `" + webviewLabel + "` and URL `" + url + "`.")
    ensures EndsWith(msg, ScopeHelp)
  {
    "Scope not defined for window `" + webviewLabel + "` and URL `" + url + "`. " + ScopeHelp
  }

  /** Rejection when the URL has a scope but not for this window. */
  function ScopeWindowErrorMessage(webviewLabel: string): (msg: string)
    ensures StartsWith(msg, "Scope not defined for window `" + webviewLabel + "`.")
    ensures EndsWith(msg, ScopeHelp)
  {
    "Scope not defined for window `" + webviewLabel + "`. " + ScopeHelp
  }

  /** Rejection when the window has a scope but not for this URL. */
  function ScopeDomainErrorMessage(url: string): (msg: string)
    ensures StartsWith(msg, "Scope not defined for URL `" + url + "`.")
    ensures EndsWith(msg, ScopeHelp)
  {
    "Scope not defined for URL `" + url + "`. " + ScopeHelp
  }

  /** Rejection for a command no handler claimed. */
  function CommandNotFoundMessage(command: string): (msg: string)
    ensures StartsWith(msg, "Command ") && EndsWith(msg, " not found")
    ensures |msg| == |command| + 18 && msg[8..8 + |command|] == command
  {
    "Command " + command + " not found"
  }

  /** Result of the IPC scope lookup for a remote URL: the plugins the matching
      scope lets the origin call, or which of window and domain found a scope. */
  datatype RemoteAccess =
    | Allowed(plugins: set<string>)
    | Denied(matchesWindow: bool, matchesDomain: bool)

  /** An invoke request as the webview's transport delivers it; the body and
      headers only travel on to the handler and are not modelled. */
  datatype InvokeRequest = InvokeRequest(cmd: string, callback: nat, error: nat)

  /** What the webview knows when a request arrives: its label, its current
      URL (as text and by parts), the app's custom protocol URL, whether the
      current URL is relative to the app URL, whether this is a development
      build, and what the IPC scope says about the current URL. */
  datatype WebviewContext = WebviewContext(
    webviewLabel: string,
    url: string,
    current: UrlParts,
    protocol: UrlParts,
    relativeToAppUrl: bool,
    devBuild: bool,
    access: RemoteAccess)

  function IsLocal(ctx: WebviewContext): bool {
    IsLocalUrl(ctx.relativeToAppUrl, ctx.current, ctx.protocol, ctx.devBuild)
  }

  /** The message chosen for a failed scope lookup. The default names both
      window and URL; a lookup that matched the window complains about the
      URL, one that matched only the domain complains about the window. */
  function ScopeErrorMessage(matchesWindow: bool, matchesDomain: bool, webviewLabel: string, url: string): (msg: string)
    ensures StartsWith(msg, "Scope not defined for URL `") <==> matchesWindow
  {
    var byUrl := "Scope not defined for URL `";
    if matchesWindow then ScopeDomainErrorMessage(url)
    else if matchesDomain then
      var msg := ScopeWindowErrorMessage(webviewLabel);
      assert msg[22] == 'w' != byUrl[22];
      msg
    else
      var msg := ScopeNotFoundErrorMessage(webviewLabel, url);
      assert msg[22] == 'w' != byUrl[22];
      msg
  }

  /** `cmd.replace("plugin:", "")` split on `'|'`: the plugin is the first
      token, the command the second token or empty. Every occurrence of the
      prefix is dropped, not just the leading one, and tokens after the second
      are ignored. */
  function ParsePluginCommand(cmd: string): (parsed: (string, string))
    ensures '|' !in parsed.0 && '|' !in parsed.1
    ensures '|' !in cmd ==> parsed.1 == [] && parsed.0 == RemoveAll(cmd, PluginPrefix)
  {
    var stripped := RemoveAll(cmd, PluginPrefix);
    var tokens := Split(stripped, '|');
    RemoveAllKeepsCount(cmd, PluginPrefix, '|');
    (tokens[0], if |tokens| > 1 then tokens[1] else [])
  }

  lemma {:induction false} NoCharNoOccurrence(s: string, pattern: string, c: char)
    requires c in pattern && c !in s
    ensures !Occurs(s, pattern)
  {
    if s != [] {
      NoCharNoOccurrence(s[1..], pattern, c);
    }
  }

  /** The leading prefix goes like any other occurrence. */
  lemma StripLeadingPrefix(body: string)
    ensures RemoveAll(PluginPrefix + body, PluginPrefix) == RemoveAll(body, PluginPrefix)
  {
    var cmd := PluginPrefix + body;
    assert cmd[..|PluginPrefix|] == PluginPrefix;
    assert cmd[|PluginPrefix|..] == body;
  }

  /** The first two tokens of `name|command` followed by nothing or by more
      `|`-separated text. */
  lemma {:induction false} SplitNameAndCommand(name: string, command: string, tail: string)
    requires '|' !in name && '|' !in command
    requires tail == [] || tail[0] == '|'
    ensures var tokens := Split(name + "|" + command + tail, '|');
      |tokens| >= 2 && tokens[0] == name && tokens[1] == command
  {
    var rest := command + tail;
    assert name + "|" + command + tail == name + ['|'] + rest;
    SplitAtFirst(name, rest, '|');
    var restTokens := Split(rest, '|');
    assert Split(name + "|" + command + tail, '|') == [name] + restTokens;
    if tail == [] {
      assert rest == command;
      SplitWithoutSeparator(command, '|');
      assert restTokens == [command];
    } else {
      assert rest == command + ['|'] + tail[1..];
      SplitAtFirst(command, tail[1..], '|');
      assert restTokens == [command] + Split(tail[1..], '|');
    }
  }

  /** A well-formed plugin command `plugin:<name>|<command>`, optionally
      followed by more `|`-separated text, parses to its name and command when
      none of them contains a colon. */
  lemma {:induction false} ParseWellFormed(name: string, command: string, tail: string)
    requires '|' !in name && '|' !in command
    requires ':' !in name && ':' !in command && ':' !in tail
    requires tail == [] || tail[0] == '|'
    ensures ParsePluginCommand(PluginPrefix + name + "|" + command + tail) == (name, command)
  {
    var body := name + "|" + command + tail;
    assert PluginPrefix + name + "|" + command + tail == PluginPrefix + body;
    StripLeadingPrefix(body);
    NoCharNoOccurrence(body, PluginPrefix, ':');
    RemoveAllWithoutOccurrence(body, PluginPrefix);
    SplitNameAndCommand(name, command, tail);
  }

  /** No occurrence of the prefix can start inside a colon-free text that
      ends with a separator, so removal there only affects what follows. */
  lemma {:induction false} RemoveAllAfterSeparator(a: string, b: string)
    requires ':' !in a && (a == [] || a[|a| - 1] == '|')
    ensures RemoveAll(a + b, PluginPrefix) == a + RemoveAll(b, PluginPrefix)
  {
    if a != [] {
      var s := a + b;
      if |s| >= |PluginPrefix| {
        if |a| >= |PluginPrefix| {
          assert s[6] == a[6] != ':';
        } else {
          assert s[|a| - 1] == '|';
        }
        assert s[..|PluginPrefix|] != PluginPrefix;
        assert s[1..] == a[1..] + b;
        RemoveAllAfterSeparator(a[1..], b);
        assert a == [a[0]] + a[1..];
      } else {
        assert RemoveAll(b, PluginPrefix) == b;
      }
    } else {
      assert a + b == b;
    }
  }

  /** `replace` drops the prefix wherever it occurs: a command that repeats it
      after the separator still names the same plugin and command. */
  lemma {:induction false} PrefixRemovedEverywhere(name: string, command: string)
    requires '|' !in name && '|' !in command
    requires ':' !in name && ':' !in command
    ensures ParsePluginCommand(PluginPrefix + name + "|" + PluginPrefix + command) == (name, command)
  {
    var cmd := PluginPrefix + name + "|" + PluginPrefix + command;
    var head := name + "|";
    assert cmd == PluginPrefix + (head + (PluginPrefix + command));
    StripLeadingPrefix(head + (PluginPrefix + command));
    RemoveAllAfterSeparator(head, PluginPrefix + command);
    StripLeadingPrefix(command);
    NoCharNoOccurrence(command, PluginPrefix, ':');
    RemoveAllWithoutOccurrence(command, PluginPrefix);
    assert RemoveAll(cmd, PluginPrefix) == name + "|" + command + [];
    SplitNameAndCommand(name, command, []);
  }

  /** The decision taken before any handler runs. */
  datatype Decision =
    | Reject(message: string)
    | DispatchPlugin(plugin: string, command: string)
    | DispatchDirect(command: string)

  /** Routing and authorisation in `on_message`. */
  function Route(cmd: string, ctx: WebviewContext): (d: Decision)
    ensures !IsLocal(ctx) && !d.Reject? ==> ctx.access.Allowed?
    ensures d.DispatchPlugin? ==>
      && StartsWith(cmd, PluginPrefix)
      && (d.plugin, d.command) == ParsePluginCommand(cmd)
      && (IsLocal(ctx) || d.plugin == ChannelPluginName || d.plugin in ctx.access.plugins)
    ensures d.DispatchDirect? <==> (IsLocal(ctx) || ctx.access.Allowed?) && !StartsWith(cmd, PluginPrefix)
    ensures d.DispatchDirect? ==> d.command == cmd
  {
    var isLocal := IsLocal(ctx);
    var scope: Option<set<string>> :=
      if isLocal then None
      else if ctx.access.Allowed? then Some(ctx.access.plugins)
      else None;
    if !isLocal && scope.None? then
      Reject(ScopeErrorMessage(ctx.access.matchesWindow, ctx.access.matchesDomain, ctx.webviewLabel, ctx.url))
    else if StartsWith(cmd, PluginPrefix) then
      var (plugin, command) := ParsePluginCommand(cmd);
      if !(isLocal || plugin == ChannelPluginName || (if scope.Some? then plugin in scope.value else true)) then
        Reject(IpcScopeDoesNotAllow)
      else
        DispatchPlugin(plugin, command)
    else
      DispatchDirect(cmd)
  }

  /** How the request ends, as far as this step decides: rejected (and whether
      a handler had been asked first), or taken over by the handler. */
  datatype Outcome =
    | Rejected(message: string, handlerInvoked: bool)
    | Handled(decision: Decision)

  /** `on_message`: route the request, hand a dispatched one to the plugin or
      direct handler table (`handled` is whether some handler claimed it) and
      reject an unclaimed one as not found. */
  function OnMessage(request: InvokeRequest, ctx: WebviewContext, handled: bool): (o: Outcome)
    ensures Route(request.cmd, ctx).Reject? ==> o == Rejected(Route(request.cmd, ctx).message, false)
    ensures o.Handled? <==> handled && !Route(request.cmd, ctx).Reject?
    ensures o.Handled? ==> o.decision == Route(request.cmd, ctx)
    ensures o.Rejected? && !o.handlerInvoked ==> Route(request.cmd, ctx) == Reject(o.message)
    ensures o.Rejected? && o.handlerInvoked ==> !handled && StartsWith(o.message, "Command ")
  {
    match Route(request.cmd, ctx)
    case Reject(message) => Rejected(message, false)
    case DispatchPlugin(_, command) =>
      if handled then Handled(Route(request.cmd, ctx)) else Rejected(CommandNotFoundMessage(command), true)
    case DispatchDirect(command) =>
      if handled then Handled(Route(request.cmd, ctx)) else Rejected(CommandNotFoundMessage(command), true)
  }

  /** A remote origin the scope does not cover is rejected before any handler
      runs, with the message the lookup's flags select. */
  lemma RemoteWithoutScopeRejected(request: InvokeRequest, ctx: WebviewContext, handled: bool)
    requires !IsLocal(ctx) && ctx.access.Denied?
    ensures OnMessage(request, ctx, handled) == Rejected(
      if ctx.access.matchesWindow then ScopeDomainErrorMessage(ctx.url)
      else if ctx.access.matchesDomain then ScopeWindowErrorMessage(ctx.webviewLabel)
      else ScopeNotFoundErrorMessage(ctx.webviewLabel, ctx.url),
      false)
  {
  }

  /** A local origin bypasses the scope: the scope lookup does not affect the
      decision, and routing never rejects. */
  lemma LocalOriginBypassesScope(cmd: string, ctx: WebviewContext, other: RemoteAccess)
    requires IsLocal(ctx)
    ensures Route(cmd, ctx) == Route(cmd, ctx.(access := other))
    ensures !Route(cmd, ctx).Reject?
  {
  }

  /** For a remote origin the scope covers, a plugin command is dispatched
      exactly when its plugin is the channel plugin or on the scope's list;
      otherwise it is rejected as not allowed, before any handler runs. */
  lemma RemotePluginGate(cmd: string, ctx: WebviewContext)
    requires !IsLocal(ctx) && ctx.access.Allowed? && StartsWith(cmd, PluginPrefix)
    ensures var (plugin, command) := ParsePluginCommand(cmd);
      Route(cmd, ctx) ==
        if plugin == ChannelPluginName || plugin in ctx.access.plugins then DispatchPlugin(plugin, command)
        else Reject(IpcScopeDoesNotAllow)
  {
  }

  /** The scope's plugin list gates plugin commands only: a remote origin the
      scope covers reaches the direct command table whatever the list holds. */
  lemma DirectCommandsIgnorePluginList(cmd: string, ctx: WebviewContext)
    requires ctx.access.Allowed? && !StartsWith(cmd, PluginPrefix)
    ensures Route(cmd, ctx) == DispatchDirect(cmd)
  {
  }

  /** A dispatched request that no handler claims is rejected with
      `Command <command> not found`, naming the command without plugin. */
  lemma UnclaimedIsNotFound(request: InvokeRequest, ctx: WebviewContext)
    requires !Route(request.cmd, ctx).Reject?
    ensures OnMessage(request, ctx, false) == Rejected(CommandNotFoundMessage(Route(request.cmd, ctx).command), true)
  {
  }

  /** A well-formed plugin command for a plugin that is neither the channel
      plugin nor on the scope's list, from a remote origin the scope covers,
      is rejected as not allowed before any handler runs. */
  lemma RemoteUnlistedPluginRejected(name: string, command: string, request: InvokeRequest, ctx: WebviewContext, handled: bool)
    requires request.cmd == PluginPrefix + name + "|" + command
    requires '|' !in name && '|' !in command && ':' !in name && ':' !in command
    requires !IsLocal(ctx) && ctx.access.Allowed?
    requires name != ChannelPluginName && name !in ctx.access.plugins
    ensures OnMessage(request, ctx, handled) == Rejected(IpcScopeDoesNotAllow, false)
  {
    var cmd := request.cmd;
    assert cmd == PluginPrefix + name + "|" + command + [];
    ParseWellFormed(name, command, []);
    assert cmd[..|PluginPrefix|] == PluginPrefix;
    RemotePluginGate(cmd, ctx);
  }

  /** Any command with the plugin prefix whose parsed plugin is neither the
      channel plugin nor on the scope's list, from a remote origin the scope
      covers, is rejected as not allowed before any handler runs, however
      many colons or separators it holds. */
  lemma RemoteUnlistedParsedPluginRejected(request: InvokeRequest, ctx: WebviewContext, handled: bool)
    requires !IsLocal(ctx) && ctx.access.Allowed? && StartsWith(request.cmd, PluginPrefix)
    requires ParsePluginCommand(request.cmd).0 != ChannelPluginName
    requires ParsePluginCommand(request.cmd).0 !in ctx.access.plugins
    ensures OnMessage(request, ctx, handled) == Rejected(IpcScopeDoesNotAllow, false)
  {
    RemotePluginGate(request.cmd, ctx);
  }

  /** `plugin:fs|readFile` from a remote origin whose scope lists only
      `dialog` is rejected as not allowed, whatever the handlers would do. */
  lemma RemoteFsCallRejected(request: InvokeRequest, ctx: WebviewContext, handled: bool)
    requires request.cmd == PluginPrefix + "fs" + "|" + "readFile"
    requires !IsLocal(ctx) && ctx.access == Allowed({"dialog"})
    ensures OnMessage(request, ctx, handled) == Rejected(IpcScopeDoesNotAllow, false)
  {
    assert "fs" != ChannelPluginName && "fs" !in {"dialog"} by {
      assert |"fs"| != |ChannelPluginName| && |"fs"| != |"dialog"|;
    }
    assert ':' !in "fs" && ':' !in "readFile" && '|' !in "fs" && '|' !in "readFile";
    RemoteUnlistedPluginRejected("fs", "readFile", request, ctx, handled);
  }

  /** An unclaimed direct command `doStuff` is rejected as `Command doStuff not found`. */
  lemma UnknownDirectCommand(request: InvokeRequest, ctx: WebviewContext)
    requires request.cmd == "doStuff"
    requires IsLocal(ctx) || ctx.access.Allowed?
    ensures OnMessage(request, ctx, false) == Rejected("Command doStuff not found", true)
  {
    assert !StartsWith("doStuff", PluginPrefix) by {
      assert "doStuff"[0] != PluginPrefix[0];
    }
    assert Route("doStuff", ctx) == DispatchDirect("doStuff");
    assert CommandNotFoundMessage("doStuff") == "Command doStuff not found";
  }

  /** A plugin command without separator, `plugin:fs`, names the plugin and an
      empty command, so an unclaimed one is reported as `Command  not found`. */
  lemma PluginWithoutCommand(name: string)
    requires '|' !in name && ':' !in name
    ensures ParsePluginCommand(PluginPrefix + name) == (name, [])
  {
    ParseWellFormed(name, [], []);
    assert PluginPrefix + name + "|" + [] + [] == PluginPrefix + name + "|";
    var cmd := PluginPrefix + name;
    assert cmd[..|PluginPrefix|] == PluginPrefix && cmd[|PluginPrefix|..] == name;
    NoCharNoOccurrence(name, PluginPrefix, ':');
    RemoveAllWithoutOccurrence(name, PluginPrefix);
    SplitWithoutSeparator(name, '|');
  }
}
