/**
 * The URL authenticator itself: the records it shares with the rest of the
 * server, the header callback, the four callouts and the configuration
 * binding, each changing that state step by step as `src/auth_url.c` does.
 *
 * The network call is an outcome supplied from outside (`Transport`), the
 * config lock and `auth_release` leave a ghost trail of `Event`s, and
 * `auth_release` lowers the reference count by one.
 */
module AuthUrl {
  import opened Wrappers
  import opened CText
  import opened Bodies
  import opened Matcher
  import opened Settings

  datatype AuthResult = AuthOk | AuthFailed

  /**
   * What one `curl_easy_perform` amounts to here: the header lines the server
   * returned, in order, and whether the transfer failed.
   */
  datatype Transport = Transport(headers: seq<string>, failed: bool)

  /** The steps of a callout that other threads could observe, in order. */
  datatype Event =
    | ConfigLocked
    | ConfigReleased
    | RefcountBumped
    | Requested(url: string, body: string)
    | AuthReleased

  /** The server configuration behind its lock: the hostname and each mount's authenticator. */
  class Config {
    const hostname: CStr
    const mounts: map<string, Auth>
    ghost var events: seq<Event>

    constructor (hostname: CStr, mounts: map<string, Auth>)
      ensures this.hostname == hostname && this.mounts == mounts && events == []
    {
      this.hostname := hostname;
      this.mounts := mounts;
      events := [];
    }

    /** `config_get_config`. */
    method Lock()
      modifies this
      ensures events == old(events) + [ConfigLocked]
    {
      events := events + [ConfigLocked];
    }

    /** `config_release_config`. */
    method Unlock()
      modifies this
      ensures events == old(events) + [ConfigReleased]
    {
      events := events + [ConfigReleased];
    }
  }

  /** An `auth_t`: its reference count and its `auth_url` state (NULL until bound). */
  class Auth {
    var refcount: int
    var state: UrlState?

    constructor (refcount: int)
      ensures this.refcount == refcount && state == null
    {
      this.refcount := refcount;
      state := null;
    }
  }

  /** A curl easy handle, as far as the options set on it. */
  class Handle {
    var url: string
    var postFields: string
    var writeHeader: AuthClient?
    var noSignal: bool
    var timeout: int

    constructor ()
      ensures url == [] && postFields == [] && writeHeader == null && !noSignal && timeout == 0
    {
      url, postFields, writeHeader, noSignal, timeout := [], [], null, false, 0;
    }
  }

  /** The `auth_url` record. */
  class UrlState {
    var username: Option<CStr>
    var password: Option<CStr>
    var addurl: Option<CStr>
    var removeurl: Option<CStr>
    var streamStart: Option<CStr>
    var streamEnd: Option<CStr>
    var authHeader: CStr
    var authHeaderLen: nat
    var handle: Handle?

    /** `calloc` followed by the default marker. */
    constructor ()
      ensures Snapshot() == INITIAL && authHeaderLen == 0 && handle == null
    {
      username, password, addurl, removeurl, streamStart, streamEnd := None, None, None, None, None, None;
      authHeader := DEFAULT_MARKER;
      authHeaderLen := 0;
      handle := null;
    }

    /** One pass of the option loop: the name is compared with each of the seven in turn. */
    method Bind(o: ConfigOption)
      modifies this
      ensures Snapshot() == ApplyOption(old(Snapshot()), o)
      ensures authHeaderLen == old(authHeaderLen) && handle == old(handle)
    {
      if o.name == "username" { username := Some(o.value); }
      if o.name == "password" { password := Some(o.value); }
      if o.name == "add" { addurl := Some(o.value); }
      if o.name == "remove" { removeurl := Some(o.value); }
      if o.name == "start" { streamStart := Some(o.value); }
      if o.name == "end" { streamEnd := Some(o.value); }
      if o.name == "header" { authHeader := o.value; }
    }

    /** The settings the record holds. */
    function Snapshot(): Settings
      reads this
    {
      Settings(username, password, addurl, removeurl, streamStart, streamEnd, authHeader)
    }
  }

  /** A listener (`client_t`): fixed connection data, the flag the callback sets, and its authenticator. */
  class Client {
    const id: nat
    const ip: CStr
    const username: CStr
    const password: CStr
    const userAgent: Option<CStr>
    const conTime: int
    var authenticated: int
    var auth: Auth?

    constructor (id: nat, ip: CStr, username: CStr, password: CStr,
                 userAgent: Option<CStr>, conTime: int, auth: Auth?)
      ensures this.id == id && this.ip == ip && this.username == username
      ensures this.password == password && this.userAgent == userAgent && this.conTime == conTime
      ensures authenticated == 0 && this.auth == auth
    {
      this.id, this.ip, this.username, this.password := id, ip, username, password;
      this.userAgent, this.conTime := userAgent, conTime;
      authenticated := 0;
      this.auth := auth;
    }
  }

  /** An `auth_client`: the request on the auth queue, with or without a listener. */
  class AuthClient {
    const client: Client?
    const mount: CStr

    constructor (client: Client?, mount: CStr)
      ensures this.client == client && this.mount == mount
    {
      this.client, this.mount := client, mount;
    }

    /** What the header callback may change: the listener, when there is one. */
    function Listener(): set<object> {
      if client == null then {} else {client}
    }

    /** The listener, if any, can reach the marker its header lines are compared with. */
    predicate HasMarker()
      reads Listener(), if client == null then null else client.auth
    {
      client != null ==> client.auth != null && client.auth.state != null
    }
  }

  /**
   * `handle_returned_header`: a header line of `size * nmemb` bytes sets the
   * listener's flag when it passes the marker test, and the callback reports
   * the count back; with no listener nothing changes.
   */
  method HandleReturnedHeader(user: AuthClient, line: string, size: nat, nmemb: nat) returns (bytes: int)
    requires |line| == size * nmemb
    requires user.HasMarker()
    modifies user.Listener()
    ensures bytes == HeaderCallbackResult(size, nmemb)
    ensures user.client != null ==> user.client.auth == old(user.client.auth)
    ensures user.client != null ==>
      user.client.authenticated ==
        AfterLine(old(user.client.authenticated), line,
                  user.client.auth.state.authHeader, user.client.auth.state.authHeaderLen)
  {
    var n := ToUnsigned((size * nmemb) % TWO_64);
    var client := user.client;
    if client != null {
      var url := client.auth.state;
      if Accepts(line, url.authHeader, url.authHeaderLen) {
        client.authenticated := 1;
      }
    }
    bytes := ToInt32(n);
  }

  /**
   * `curl_easy_perform` on a handle: the request is sent, the header callback
   * sees every returned line in order, and the transfer's failure is reported.
   */
  method Perform(h: Handle, config: Config, outcome: Transport) returns (failed: bool)
    requires h.writeHeader != null && h.writeHeader.HasMarker()
    modifies h.writeHeader.Listener(), config
    ensures failed == outcome.failed
    ensures config.events == old(config.events) + [Requested(h.url, h.postFields)]
    ensures h.writeHeader.client != null ==> h.writeHeader.client.auth == old(h.writeHeader.client.auth)
    ensures h.writeHeader.client != null ==>
      var url := h.writeHeader.client.auth.state;
      h.writeHeader.client.authenticated ==
        AfterHeaders(old(h.writeHeader.client.authenticated), outcome.headers, url.authHeader, url.authHeaderLen)
  {
    config.events := config.events + [Requested(h.url, h.postFields)];
    var user := h.writeHeader;
    var lines := outcome.headers;
    var i := 0;
    while i < |lines|
      invariant 0 <= i <= |lines|
      modifies user.Listener()
      invariant user.client != null ==> user.client.auth == old(user.client.auth)
      invariant user.HasMarker()
      invariant user.client != null ==>
        user.client.authenticated ==
          AfterHeaders(old(user.client.authenticated), lines[..i],
                       user.client.auth.state.authHeader, user.client.auth.state.authHeaderLen)
    {
      var _ := HandleReturnedHeader(user, lines[i], 1, |lines[i]|);
      assert lines[..i + 1][..i] == lines[..i];
      i := i + 1;
    }
    assert lines[..i] == lines;
    failed := outcome.failed;
  }

  /**
   * The three `curl_easy_setopt` calls and the `curl_easy_perform` every
   * callout makes: the handle gets the URL, the body and the header callback's
   * argument, and the request goes out.
   */
  method Send(h: Handle, target: string, post: string, user: AuthClient, config: Config, outcome: Transport)
    returns (failed: bool)
    requires user.HasMarker()
    modifies h, user.Listener(), config
    ensures h.url == target && h.postFields == post && h.writeHeader == user
    ensures h.noSignal == old(h.noSignal) && h.timeout == old(h.timeout)
    ensures failed == outcome.failed
    ensures config.events == old(config.events) + [Requested(target, post)]
    ensures user.client != null ==> user.client.auth == old(user.client.auth)
    ensures user.client != null ==>
      var url := user.client.auth.state;
      user.client.authenticated ==
        AfterHeaders(old(user.client.authenticated), outcome.headers, url.authHeader, url.authHeaderLen)
  {
    h.url := target;
    h.postFields := post;
    h.writeHeader := user;
    failed := Perform(h, config, outcome);
  }

  /** The request a callout needs: a listener whose authenticator is bound and has a handle. */
  predicate Prepared(user: AuthClient)
    reads user.Listener(), if user.client == null then null else user.client.auth
    reads if user.client == null || user.client.auth == null then null else user.client.auth.state
  {
    user.client != null && user.client.auth != null && user.client.auth.state != null &&
    user.client.auth.state.handle != null
  }

  /**
   * `auth_addurl_client`: with no add URL the listener is accepted untouched;
   * otherwise the add body goes to the add URL, a transport failure rejects,
   * and the listener is accepted exactly when its flag is set after the
   * response and post-processing (its result `postprocess`) does not fail.
   */
  method AddUrlClient(user: AuthClient, config: Config, esc: Escape, outcome: Transport, postprocess: int)
    returns (r: AuthResult)
    requires Prepared(user)
    modifies user.client, user.client.auth.state.handle, config
    ensures user.client.auth == old(user.client.auth)
    ensures var url := user.client.auth.state;
      url.addurl.None? ==>
        r == AuthOk && user.client.authenticated == old(user.client.authenticated) &&
        config.events == old(config.events) && unchanged(url.handle)
    ensures var url := user.client.auth.state;
      var c := user.client;
      var h := url.handle;
      url.addurl.Some? ==>
        h.url == url.addurl.value && h.writeHeader == user &&
        h.noSignal == old(h.noSignal) && h.timeout == old(h.timeout) &&
        h.postFields == SnPrintf(AddBody(esc, config.hostname, c.id, user.mount, c.username,
                                         c.password, c.ip, c.userAgent), CLIENT_POST_SIZE) &&
        config.events == old(config.events) + [ConfigLocked, ConfigReleased, Requested(h.url, h.postFields)] &&
        c.authenticated == AfterHeaders(old(c.authenticated), outcome.headers, url.authHeader, url.authHeaderLen) &&
        (r == AuthOk <==> !outcome.failed && c.authenticated != 0 && postprocess >= 0)
  {
    var client := user.client;
    var url := client.auth.state;
    if url.addurl == None {
      return AuthOk;
    }
    config.Lock();
    var server := config.hostname;
    config.Unlock();
    var post := SnPrintf(AddBody(esc, server, client.id, user.mount, client.username, client.password,
                                 client.ip, client.userAgent), CLIENT_POST_SIZE);
    var failed := Send(url.handle, url.addurl.value, post, user, config, outcome);
    if failed {
      return AuthFailed;
    }
    if client.authenticated != 0 {
      if postprocess < 0 {
        return AuthFailed;
      }
      return AuthOk;
    }
    return AuthFailed;
  }

  /**
   * `auth_removeurl_client`: with no remove URL nothing happens; otherwise the
   * remove body, laid out as the source's format string lays it out (with no
   * '&' before "client="), goes to the remove URL, and whatever the transfer's outcome the
   * authenticator is released once and the listener's handle on it cleared.
   * The result is always AUTH_OK.
   */
  method RemoveUrlClient(user: AuthClient, config: Config, esc: Escape, outcome: Transport, now: int)
    returns (r: AuthResult)
    requires Prepared(user)
    modifies user.client, user.client.auth, user.client.auth.state.handle, config
    ensures r == AuthOk
    ensures old(user.client.auth).state == old(user.client.auth.state)
    ensures var a := old(user.client.auth);
      var url := old(user.client.auth.state);
      url.removeurl.None? ==>
        user.client.auth == a && a.refcount == old(a.refcount) &&
        user.client.authenticated == old(user.client.authenticated) &&
        config.events == old(config.events) && unchanged(url.handle)
    ensures var a := old(user.client.auth);
      var url := old(user.client.auth.state);
      var c := user.client;
      var h := url.handle;
      url.removeurl.Some? ==>
        c.auth == null && a.refcount == old(a.refcount) - 1 && a.state == old(a.state) &&
        h.url == url.removeurl.value && h.writeHeader == user &&
        h.noSignal == old(h.noSignal) && h.timeout == old(h.timeout) &&
        h.postFields == SnPrintf(RemoveBodyAsWritten(esc, config.hostname, c.id, user.mount, c.username,
                                            c.password, now - c.conTime), CLIENT_POST_SIZE) &&
        config.events == old(config.events) +
          [ConfigLocked, ConfigReleased, Requested(h.url, h.postFields), AuthReleased] &&
        c.authenticated == AfterHeaders(old(c.authenticated), outcome.headers, url.authHeader, url.authHeaderLen)
  {
    var client := user.client;
    var auth := client.auth;
    var url := auth.state;
    var duration := now - client.conTime;
    if url.removeurl == None {
      return AuthOk;
    }
    config.Lock();
    var server := config.hostname;
    config.Unlock();
    var post := SnPrintf(RemoveBodyAsWritten(esc, server, client.id, user.mount, client.username, client.password,
                                    duration), CLIENT_POST_SIZE);
    var _ := Send(url.handle, url.removeurl.value, post, user, config, outcome);
    Release(auth, config);
    client.auth := null;
    return AuthOk;
  }

  /** `auth_release`, as far as this model needs it: one reference fewer. */
  method Release(auth: Auth, config: Config)
    modifies auth, config
    ensures auth.refcount == old(auth.refcount) - 1 && auth.state == old(auth.state)
    ensures config.events == old(config.events) + [AuthReleased]
  {
    auth.refcount := auth.refcount - 1;
    config.events := config.events + [AuthReleased];
  }

  /** The stream URL a stream callout uses. */
  function StreamUrl(url: UrlState, action: StreamAction): Option<CStr>
    reads url
  {
    match action
    case Start => url.streamStart
    case End => url.streamEnd
  }

  /**
   * `url_stream_start` and `url_stream_end`, which differ only in their URL
   * and action word: with the URL unset the config lock is released and
   * nothing else happens; otherwise the mount's authenticator gains a
   * reference before the lock is released and loses it after the request,
   * which goes to the URL read while the lock was held. Always AUTH_OK.
   * These callouts run without a listener (src/auth_url.c:224-225); should
   * an `auth_client` carry one, its flag is updated by the header callback
   * as in the other callouts, and left alone when nothing is sent.
   */
  method StreamCallout(action: StreamAction, user: AuthClient, config: Config, esc: Escape, outcome: Transport)
    returns (r: AuthResult)
    requires user.mount in config.mounts && config.mounts[user.mount].state != null
    requires config.mounts[user.mount].state.handle != null
    requires user.HasMarker()
    modifies config, config.mounts[user.mount], config.mounts[user.mount].state.handle, user.Listener()
    ensures r == AuthOk
    ensures var auth := config.mounts[user.mount];
      auth.refcount == old(auth.refcount) && auth.state == old(auth.state)
    ensures var url := config.mounts[user.mount].state;
      StreamUrl(url, action).None? ==>
        config.events == old(config.events) + [ConfigLocked, ConfigReleased] && unchanged(url.handle) &&
        unchanged(user.Listener())
    ensures var url := config.mounts[user.mount].state;
      StreamUrl(url, action).Some? && user.client != null ==>
        user.client.auth == old(user.client.auth) &&
        user.client.authenticated ==
          AfterHeaders(old(user.client.authenticated), outcome.headers,
                       user.client.auth.state.authHeader, user.client.auth.state.authHeaderLen)
    ensures var url := config.mounts[user.mount].state;
      var h := url.handle;
      StreamUrl(url, action).Some? ==>
        h.url == StreamUrl(url, action).value && h.writeHeader == user &&
        h.noSignal == old(h.noSignal) && h.timeout == old(h.timeout) &&
        h.postFields == SnPrintf(StreamBody(esc, action, user.mount, config.hostname), STREAM_POST_SIZE) &&
        config.events == old(config.events) +
          [ConfigLocked, RefcountBumped, ConfigReleased, Requested(h.url, h.postFields), AuthReleased]
  {
    config.Lock();
    var auth := config.mounts[user.mount];
    var url := auth.state;
    var target := StreamUrl(url, action);
    if target == None {
      config.Unlock();
      return AuthOk;
    }
    var server := config.hostname;
    var targetUrl := target.value;
    auth.refcount := auth.refcount + 1;
    config.events := config.events + [RefcountBumped];
    config.Unlock();
    var post := SnPrintf(StreamBody(esc, action, user.mount, server), STREAM_POST_SIZE);
    var _ := Send(url.handle, targetUrl, post, user, config, outcome);
    Release(auth, config);
    return AuthOk;
  }

  /** `url_stream_start`. */
  method StreamStart(user: AuthClient, config: Config, esc: Escape, outcome: Transport) returns (r: AuthResult)
    requires user.mount in config.mounts && config.mounts[user.mount].state != null
    requires config.mounts[user.mount].state.handle != null
    requires user.HasMarker()
    modifies config, config.mounts[user.mount], config.mounts[user.mount].state.handle, user.Listener()
    ensures r == AuthOk
    ensures var auth := config.mounts[user.mount];
      auth.refcount == old(auth.refcount) && auth.state == old(auth.state)
    ensures var url := config.mounts[user.mount].state;
      url.streamStart.None? ==>
        config.events == old(config.events) + [ConfigLocked, ConfigReleased] && unchanged(url.handle) &&
        unchanged(user.Listener())
    ensures var url := config.mounts[user.mount].state;
      url.streamStart.Some? && user.client != null ==>
        user.client.auth == old(user.client.auth) &&
        user.client.authenticated ==
          AfterHeaders(old(user.client.authenticated), outcome.headers,
                       user.client.auth.state.authHeader, user.client.auth.state.authHeaderLen)
    ensures var url := config.mounts[user.mount].state;
      var h := url.handle;
      url.streamStart.Some? ==>
        h.url == url.streamStart.value && h.writeHeader == user &&
        h.noSignal == old(h.noSignal) && h.timeout == old(h.timeout) &&
        h.postFields == SnPrintf(StreamBody(esc, Start, user.mount, config.hostname), STREAM_POST_SIZE) &&
        config.events == old(config.events) +
          [ConfigLocked, RefcountBumped, ConfigReleased, Requested(h.url, h.postFields), AuthReleased]
  {
    r := StreamCallout(Start, user, config, esc, outcome);
  }

  /** `url_stream_end`. */
  method StreamEnd(user: AuthClient, config: Config, esc: Escape, outcome: Transport) returns (r: AuthResult)
    requires user.mount in config.mounts && config.mounts[user.mount].state != null
    requires config.mounts[user.mount].state.handle != null
    requires user.HasMarker()
    modifies config, config.mounts[user.mount], config.mounts[user.mount].state.handle, user.Listener()
    ensures r == AuthOk
    ensures var auth := config.mounts[user.mount];
      auth.refcount == old(auth.refcount) && auth.state == old(auth.state)
    ensures var url := config.mounts[user.mount].state;
      url.streamEnd.None? ==>
        config.events == old(config.events) + [ConfigLocked, ConfigReleased] && unchanged(url.handle) &&
        unchanged(user.Listener())
    ensures var url := config.mounts[user.mount].state;
      url.streamEnd.Some? && user.client != null ==>
        user.client.auth == old(user.client.auth) &&
        user.client.authenticated ==
          AfterHeaders(old(user.client.authenticated), outcome.headers,
                       user.client.auth.state.authHeader, user.client.auth.state.authHeaderLen)
    ensures var url := config.mounts[user.mount].state;
      var h := url.handle;
      url.streamEnd.Some? ==>
        h.url == url.streamEnd.value && h.writeHeader == user &&
        h.noSignal == old(h.noSignal) && h.timeout == old(h.timeout) &&
        h.postFields == SnPrintf(StreamBody(esc, End, user.mount, config.hostname), STREAM_POST_SIZE) &&
        config.events == old(config.events) +
          [ConfigLocked, RefcountBumped, ConfigReleased, Requested(h.url, h.postFields), AuthReleased]
  {
    r := StreamCallout(End, user, config, esc, outcome);
  }

  /** The administrative operations, which a URL authenticator does not offer. */
  function AddUser(auth: Auth, username: string, password: string): (r: AuthResult)
    ensures r == AuthFailed
  {
    AuthFailed
  }

  function DeleteUser(auth: Auth, username: string): (r: AuthResult)
    ensures r == AuthFailed
  {
    AuthFailed
  }

  function ListUser(auth: Auth): (r: AuthResult)
    ensures r == AuthFailed
  {
    AuthFailed
  }

  /**
   * `auth_get_url_auth`: the options are bound in list order onto a fresh
   * record holding the default marker; if no request handle can be created
   * (`handleCreated` false) the result is -1 and the authenticator gets no
   * state; otherwise the marker length is recorded, the handle is set up with
   * no signals and a 15-second timeout, the record becomes the
   * authenticator's state and the result is 0.
   */
  method GetUrlAuth(authenticator: Auth, options: seq<ConfigOption>, handleCreated: bool) returns (rc: int)
    modifies authenticator
    ensures authenticator.refcount == old(authenticator.refcount)
    ensures !handleCreated ==> rc == -1 && authenticator.state == old(authenticator.state)
    ensures handleCreated ==>
      rc == 0 && authenticator.state != null && fresh(authenticator.state) &&
      authenticator.state.Snapshot() == Bound(options) &&
      authenticator.state.authHeaderLen == |authenticator.state.authHeader| &&
      authenticator.state.handle != null && fresh(authenticator.state.handle) &&
      authenticator.state.handle.noSignal && authenticator.state.handle.timeout == 15
  {
    var url := new UrlState();
    var i := 0;
    while i < |options|
      invariant 0 <= i <= |options|
      modifies url
      invariant url.Snapshot() == ApplyAll(INITIAL, options[..i])
    {
      url.Bind(options[i]);
      assert options[..i + 1][..i] == options[..i];
      i := i + 1;
    }
    assert options[..i] == options;
    if !handleCreated {
      return -1;
    }
    var h := new Handle();
    url.handle := h;
    url.authHeaderLen := |url.authHeader|;
    h.noSignal := true;
    h.timeout := 15;
    authenticator.state := url;
    return 0;
  }
}
