/** Which requests are this computer's, which are another device's, and what lets one of those in. */
module RemoteAccess {
  import opened Options
  import opened Texts
  import opened Positions

  // ----- Requests -----

  datatype Header = Header(name: string, value: string)

  /** The address a connection arrived on; a Unix socket has no port. */
  datatype Server = NoServer | Server(host: string, port: Option<int>)

  datatype Kind = Http | Websocket | OtherKind

  datatype Scope = Scope(
    kind: Kind, server: Server, client: Option<string>, headers: seq<Header>, secure: bool, path: string,
    remote: bool, remoteHttps: bool)

  const FORWARDING_HEADERS := {"forwarded", "x-forwarded-for", "x-forwarded-host", "x-forwarded-proto", "x-real-ip"}

  const HTTPS_EXEMPT_PATHS := {"/api/health"}

  /** Address arithmetic. */
  datatype Net = Net(isLoopback: string -> bool, sameAddress: (string, string) -> bool)

  datatype Listener =
    | SocketListener(path: string)
    | ProxyPort(port: int)
    | PrivatePort(port: int, host: string)

  /** `accepted`: whether the connection arrived on the remote listener. */
  predicate ArrivedOn(net: Net, listener: Listener, scope: Scope) {
    scope.server.Server? &&
    match listener
    case SocketListener(_) => scope.server.port == None
    case ProxyPort(port) => scope.server.port == Some(port)
    case PrivatePort(port, host) =>
      scope.server.port == Some(port) && (host == "" || net.sameAddress(scope.server.host, host))
  }

  predicate IsForwarded(headers: seq<Header>) {
    exists i :: 0 <= i < |headers| && Lower(headers[i].name) in FORWARDING_HEADERS
  }

  predicate WithoutTcp(scope: Scope) { scope.server == NoServer || scope.server.port == None }

  predicate IsLocal(net: Net, scope: Scope) {
    && scope.client.Some? && (scope.client.value in {"localhost", "testclient"} || net.isLoopback(scope.client.value))
    && !WithoutTcp(scope) && !IsForwarded(scope.headers) && !scope.remote
  }

  /** `str.replace(" ", "")`. */
  function WithoutSpaces(s: string): string {
    if s == "" then "" else WithoutSpaces(s[..|s| - 1]) + if s[|s| - 1] == ' ' then "" else [s[|s| - 1]]
  }

  predicate SaysHttps(h: Header) {
    var text := Lower(h.value);
    || (Lower(h.name) == "x-forwarded-proto" && Strip(Before(text, ',')) == "https")
    || (Lower(h.name) == "forwarded" && Contains(WithoutSpaces(text), "proto=https"))
  }

  predicate ForwardedHttps(headers: seq<Header>) {
    exists i :: 0 <= i < |headers| && SaysHttps(headers[i])
  }

  // ----- What a proxy says about HTTPS -----

  /** The first entry of the list is `https`: blanks around it, and the other entries behind a comma, if any. */
  predicate FirstIsHttps(text: string, left: string, right: string, rest: string) {
    && text == left + "https" + right + rest
    && AllBlank(left, IsSpace) && AllBlank(right, IsSpace) && (rest == "" || rest[0] == ',')
  }

  lemma {:induction false} HttpsComesFirst(text: string) returns (left: string, right: string, rest: string)
    requires Strip(Before(text, ',')) == "https"
    ensures FirstIsHttps(text, left, right, rest)
  {
    var k := MarkWhere(text, ',');
    var front := text[..k];
    var i, j := StripWhere(front, IsSpace);
    left, right, rest := front[..i], front[j..], text[k..];
    assert text == left + front[i..j] + right + rest;
  }

  lemma {:induction false} FirstIsRead(text: string, left: string, right: string, rest: string)
    requires FirstIsHttps(text, left, right, rest)
    ensures Strip(Before(text, ',')) == "https"
  {
    NoCommaInBlanks(left);
    NoCommaInBlanks(right);
    ReadToMark(left + "https" + right, rest, ',');
    Stripped(left, "https", right, IsSpace);
  }

  lemma {:induction false} ProtoSaysHttps(h: Header)
    requires Lower(h.name) == "x-forwarded-proto"
    ensures SaysHttps(h) <==> exists left, right, rest :: FirstIsHttps(Lower(h.value), left, right, rest)
  {
    assert "forwarded"[0] != "x-forwarded-proto"[0];
    if SaysHttps(h) {
      var left, right, rest := HttpsComesFirst(Lower(h.value));
    } else if left, right, rest :| FirstIsHttps(Lower(h.value), left, right, rest) {
      FirstIsRead(Lower(h.value), left, right, rest);
    }
  }

  lemma NoCommaInBlanks(s: string)
    requires AllBlank(s, IsSpace)
    ensures ',' !in s
  {
  }

  lemma {:induction false} KeptWithoutSpaces(s: string, n: nat) returns (at: seq<nat>)
    requires n <= |s|
    ensures KeptBy(s, n, i => 0 <= i < |s| && s[i] != ' ', WithoutSpaces(s[..n]), at)
  {
    var keep := i => 0 <= i < |s| && s[i] != ' ';
    if n == 0 {
      at := [];
    } else {
      at := KeptWithoutSpaces(s, n - 1);
      KeptMore(s, n, keep, WithoutSpaces(s[..n - 1]), at);
      assert s[..n][..n - 1] == s[..n - 1];
      if keep(n - 1) { at := at + [n - 1]; }
    }
  }

  /** The text in lower case spells `proto=https` somewhere, with nothing but spaces between its letters. */
  ghost predicate SpellsProto(text: string, at: seq<nat>, from: nat) {
    && Lists(at, |text|, i => 0 <= i < |text| && text[i] != ' ')
    && At(ElementsAt(text, at), from, "proto=https")
  }

  lemma {:induction false} ForwardedSaysHttps(h: Header)
    requires Lower(h.name) == "forwarded"
    ensures SaysHttps(h) <==> exists at, from :: SpellsProto(Lower(h.value), at, from)
  {
    var text := Lower(h.value);
    assert "forwarded"[0] != "x-forwarded-proto"[0];
    var at := KeptWithoutSpaces(text, |text|);
    assert text[..|text|] == text;
    if SaysHttps(h) {
      var from: nat :| At(WithoutSpaces(text), from, "proto=https");
      assert SpellsProto(text, at, from);
    }
    forall other, from | SpellsProto(text, other, from) ensures Contains(WithoutSpaces(text), "proto=https") {
      ListedOnce(at, other, |text|, i => 0 <= i < |text| && text[i] != ' ');
      assert At(WithoutSpaces(text), from, "proto=https");
    }
  }

  // ----- Added headers -----

  /** Headers a sender adds, wherever it puts them, never turn another device's request into a local one. */
  lemma {:induction false} AddedHeadersNeverMakeLocal(net: Net, scope: Scope, before: seq<Header>, after: seq<Header>)
    ensures IsLocal(net, scope.(headers := before + scope.headers + after)) ==> IsLocal(net, scope)
  {
    if IsForwarded(scope.headers) {
      var i :| 0 <= i < |scope.headers| && Lower(scope.headers[i].name) in FORWARDING_HEADERS;
      assert (before + scope.headers + after)[|before| + i] == scope.headers[i];
    }
  }

  // ----- The guard -----

  datatype Verdict = Passed(scope: Scope) | RefusedForwarded | RefusedDisabled | RefusedPlain

  predicate IsHttps(listener: Listener, scope: Scope) {
    if listener.PrivatePort? then scope.secure else ForwardedHttps(scope.headers)
  }

  function GuardedRemote(disabled: bool, https: bool, scope: Scope): Verdict {
    if disabled then RefusedDisabled
    else if !https && scope.path !in HTTPS_EXEMPT_PATHS then RefusedPlain
    else Passed(scope.(remote := true, remoteHttps := https))
  }

  /** What the middleware does with one request. */
  function Guarded(net: Net, listener: Option<Listener>, loopbackOnly: bool, disabled: bool, scope: Scope): Verdict {
    if scope.kind == OtherKind then Passed(scope)
    else if listener.Some? && ArrivedOn(net, listener.value, scope) then
      GuardedRemote(disabled, IsHttps(listener.value, scope), scope)
    else if !IsForwarded(scope.headers) || !loopbackOnly then Passed(scope)
    else RefusedForwarded
  }

  /** A request the middleware decides about, on the listener other devices reach. */
  predicate Remote(net: Net, listener: Option<Listener>, scope: Scope) {
    scope.kind != OtherKind && listener.Some? && ArrivedOn(net, listener.value, scope)
  }

  /**
   * A request on the remote listener that reaches the application is never local, came over HTTPS or is the
   * health check, and came while remote access was on.
   */
  lemma {:induction false} RemoteIsNeverLocal(
      net: Net, listener: Option<Listener>, loopbackOnly: bool, disabled: bool, scope: Scope)
    requires Remote(net, listener, scope)
    ensures var v := Guarded(net, listener, loopbackOnly, disabled, scope);
            && (v.Passed? <==> !disabled && (IsHttps(listener.value, scope) || scope.path in HTTPS_EXEMPT_PATHS))
            && (v.Passed? ==> !IsLocal(net, v.scope))
    ensures var v := Guarded(net, listener, loopbackOnly, disabled, scope);
            v.Passed? ==> v.scope == scope.(remote := true, remoteHttps := v.scope.remoteHttps) &&
                          (v.scope.remoteHttps || scope.path in HTTPS_EXEMPT_PATHS)
  {
  }

  /** The name of a header a reverse proxy adds, in any case. */
  predicate NamesForwarding(h: Header) {
    var name := Lower(h.name);
    || name == "forwarded" || name == "x-real-ip"
    || (StartsWith(name, "x-forwarded-") && name[12..] in {"for", "host", "proto"})
  }

  lemma ForwardedExactly(headers: seq<Header>)
    ensures IsForwarded(headers) <==> exists i :: 0 <= i < |headers| && NamesForwarding(headers[i])
  {
    forall h: Header ensures Lower(h.name) in FORWARDING_HEADERS <==> NamesForwarding(h) { ForwardingNames(h); }
  }

  lemma ForwardingNames(h: Header)
    ensures Lower(h.name) in FORWARDING_HEADERS <==> NamesForwarding(h)
  {
    var name := Lower(h.name);
    assert "x-forwarded-for" == "x-forwarded-" + "for" && "x-forwarded-host" == "x-forwarded-" + "host";
    assert "x-forwarded-proto" == "x-forwarded-" + "proto";
    if |name| >= 12 { assert name == name[..12] + name[12..]; }
  }

  /** The address belongs to the listener other devices reach; on a Unix socket a connection has no port. */
  predicate IsOpenTo(net: Net, listener: Listener, host: string, port: Option<int>) {
    || (listener.SocketListener? && port == None)
    || (!listener.SocketListener? && port == Some(listener.port) &&
        (listener.ProxyPort? || listener.host == "" || net.sameAddress(host, listener.host)))
  }

  /** Comes from this computer's own browser: a loopback peer over TCP, and no proxy's header. */
  predicate FromHere(net: Net, scope: Scope) {
    && scope.client.Some?
    && (var peer := scope.client.value; peer == "localhost" || peer == "testclient" || net.isLoopback(peer))
    && scope.server.Server? && scope.server.port.Some?
    && (forall i :: 0 <= i < |scope.headers| ==> !NamesForwarding(scope.headers[i]))
  }

  /**
   * The application takes a request for local exactly when it comes from this computer's own browser on an address
   * that is not the remote listener's, remote access on or off.
   */
  lemma {:induction false} LocalExactly(
      net: Net, listener: Option<Listener>, loopbackOnly: bool, disabled: bool, scope: Scope)
    requires scope.kind != OtherKind && !scope.remote
    ensures var v := Guarded(net, listener, loopbackOnly, disabled, scope);
            v.Passed? && IsLocal(net, v.scope) <==>
              && FromHere(net, scope)
              && (listener.Some? ==> !IsOpenTo(net, listener.value, scope.server.host, scope.server.port))
  {
    ForwardedExactly(scope.headers);
  }

  /** Came encrypted: by the connection itself where Raiker serves HTTPS, and by a proxy's word behind a proxy. */
  predicate CameEncrypted(listener: Listener, scope: Scope) {
    if listener.PrivatePort? then scope.secure
    else exists i :: 0 <= i < |scope.headers| && SaysHttps(scope.headers[i])
  }

  /** Exactly the requests that reach the application as another device's, and the refusal each other one gets. */
  lemma {:induction false} GuardedExactly(
      net: Net, listener: Option<Listener>, loopbackOnly: bool, disabled: bool, scope: Scope)
    requires scope.kind != OtherKind && !scope.remote && scope.server.Server?
    ensures var v := Guarded(net, listener, loopbackOnly, disabled, scope);
            var remote := listener.Some? && IsOpenTo(net, listener.value, scope.server.host, scope.server.port);
            && (v == RefusedDisabled <==> remote && disabled)
            && (v.Passed? && v.scope.remote <==> remote && !disabled &&
                                                 (CameEncrypted(listener.value, scope) || scope.path == "/api/health"))
            && (v == RefusedPlain <==> remote && !disabled && !CameEncrypted(listener.value, scope) &&
                                       scope.path != "/api/health")
            && (v == RefusedForwarded <==> !remote && loopbackOnly &&
                                           exists i :: 0 <= i < |scope.headers| && NamesForwarding(scope.headers[i]))
  {
    ForwardedExactly(scope.headers);
  }

  /** What passes as local passed unchanged, on no remote listener, and carries no forwarding header. */
  lemma {:induction false} LocalIsUntouched(
      net: Net, listener: Option<Listener>, loopbackOnly: bool, disabled: bool, scope: Scope)
    requires scope.kind != OtherKind
    requires Guarded(net, listener, loopbackOnly, disabled, scope).Passed?
    requires IsLocal(net, Guarded(net, listener, loopbackOnly, disabled, scope).scope)
    ensures Guarded(net, listener, loopbackOnly, disabled, scope).scope == scope
    ensures !Remote(net, listener, scope) && !IsForwarded(scope.headers)
  {
  }

  /** The guard and the record it keeps. */
  class Guard {
    const net: Net
    const listener: Option<Listener>
    const loopbackOnly: bool
    var disabled: bool
    var refused: nat
    var served: nat
    var httpsRefused: nat
    var httpsSeen: bool
    ghost var passed: seq<Scope>
    ghost var turnedOff: Option<nat>

    constructor (net: Net, listener: Option<Listener>, loopbackOnly: bool)
      ensures Valid() && !disabled && passed == []
      ensures this.net == net && this.listener == listener && this.loopbackOnly == loopbackOnly
    {
      this.net, this.listener, this.loopbackOnly := net, listener, loopbackOnly;
      disabled, refused, served, httpsRefused, httpsSeen := false, 0, 0, 0, false;
      passed, turnedOff := [], None;
    }

    /**
     * Requests served count what reached the application from the remote listener, and none did once access was off.
     */
    ghost predicate Valid()
      reads this
    {
      && served == Marked(passed)
      && (disabled <==> turnedOff.Some?)
      && (turnedOff.Some? ==> turnedOff.value <= |passed| && Marked(passed) == Marked(passed[..turnedOff.value]))
      && (httpsSeen <==> SawHttps(passed))
    }

    method DisableNow()
      requires Valid()
      modifies this
      ensures Valid() && disabled && passed == old(passed)
      ensures turnedOff == if old(disabled) then old(turnedOff) else Some(|passed|)
      ensures refused == old(refused) && served == old(served) && httpsRefused == old(httpsRefused)
    {
      if !disabled {
        turnedOff := Some(|passed|);
        assert passed[..|passed|] == passed;
      }
      disabled := true;
    }

    /** One request, arriving unmarked as every request does. */
    method Serve(scope: Scope) returns (v: Verdict)
      requires Valid() && !scope.remote && !scope.remoteHttps
      modifies this
      ensures Valid() && disabled == old(disabled) && turnedOff == old(turnedOff)
      ensures v == Guarded(net, listener, loopbackOnly, disabled, scope)
      ensures passed == if v.Passed? then old(passed) + [v.scope] else old(passed)
      ensures refused == old(refused) + if v == RefusedForwarded then 1 else 0
      ensures httpsRefused == old(httpsRefused) + if v == RefusedPlain then 1 else 0
      ensures disabled ==> served == old(served)
    {
      v := Passed(scope);
      if scope.kind != OtherKind {
        if listener.Some? && ArrivedOn(net, listener.value, scope) {
          v := ServeRemote(scope, IsHttps(listener.value, scope));
          return;
        }
        if IsForwarded(scope.headers) && loopbackOnly {
          refused := refused + 1;
          v := RefusedForwarded;
          return;
        }
      }
      MarkedSnoc(passed, scope);
      StillMarked(passed, scope, turnedOff);
      passed := passed + [scope];
    }

    /** One on the remote listener. */
    method ServeRemote(scope: Scope, https: bool) returns (v: Verdict)
      requires Valid() && !scope.remote && !scope.remoteHttps
      modifies this
      ensures Valid() && disabled == old(disabled) && turnedOff == old(turnedOff) && refused == old(refused)
      ensures v == GuardedRemote(disabled, https, scope)
      ensures passed == if v.Passed? then old(passed) + [v.scope] else old(passed)
      ensures httpsRefused == old(httpsRefused) + if v == RefusedPlain then 1 else 0
      ensures disabled ==> served == old(served)
    {
      if disabled {
        return RefusedDisabled;
      }
      if !https && scope.path !in HTTPS_EXEMPT_PATHS {
        httpsRefused := httpsRefused + 1;
        return RefusedPlain;
      }
      if https {
        httpsSeen := true;
      }
      served := served + 1;
      var marked := scope.(remote := true, remoteHttps := https);
      MarkedSnoc(passed, marked);
      passed := passed + [marked];
      v := Passed(marked);
    }
  }

  function Marked(passed: seq<Scope>): nat {
    if passed == [] then 0 else Marked(passed[..|passed| - 1]) + if passed[|passed| - 1].remote then 1 else 0
  }

  ghost predicate SawHttps(passed: seq<Scope>) { exists i :: 0 <= i < |passed| && passed[i].remoteHttps }

  lemma MarkedSnoc(passed: seq<Scope>, scope: Scope)
    ensures Marked(passed + [scope]) == Marked(passed) + if scope.remote then 1 else 0
    ensures SawHttps(passed + [scope]) <==> SawHttps(passed) || scope.remoteHttps
  {
    assert (passed + [scope])[..|passed|] == passed;
    assert forall i :: 0 <= i < |passed| ==> (passed + [scope])[i] == passed[i];
    assert (passed + [scope])[|passed|] == scope;
  }

  lemma StillMarked(passed: seq<Scope>, scope: Scope, off: Option<nat>)
    requires off.Some? ==> off.value <= |passed|
    ensures off.Some? ==> (passed + [scope])[..off.value] == passed[..off.value]
  {
  }
}
