/**
 * What `auth_get_url_auth` binds from the `<option name=... value=...>`
 * entries of an authenticator's configuration, as values: the seven settings
 * of an `auth_url` record and the effect of each option on them.
 */
module Settings {
  import opened Wrappers
  import opened CText

  /** The marker installed before any option is read. */
  const DEFAULT_MARKER: CStr := "icecast-auth-user: 1\r\n"

  /** The option names the binding recognises. */
  const NAMES: set<string> := {"username", "password", "add", "remove", "start", "end", "header"}

  /** One `config_options_t` entry. */
  datatype ConfigOption = ConfigOption(name: CStr, value: CStr)

  /** The fields of an `auth_url` record that options set (`None` is NULL). */
  datatype Settings = Settings(
    username: Option<CStr>,
    password: Option<CStr>,
    addurl: Option<CStr>,
    removeurl: Option<CStr>,
    streamStart: Option<CStr>,
    streamEnd: Option<CStr>,
    authHeader: CStr)

  /** The record as `calloc` and the default marker leave it. */
  const INITIAL: Settings := Settings(None, None, None, None, None, None, DEFAULT_MARKER)

  /** The field an option name sets (the marker is never NULL). */
  function Setting(s: Settings, name: string): Option<CStr> {
    if name == "username" then s.username
    else if name == "password" then s.password
    else if name == "add" then s.addurl
    else if name == "remove" then s.removeurl
    else if name == "start" then s.streamStart
    else if name == "end" then s.streamEnd
    else if name == "header" then Some(s.authHeader)
    else None
  }

  /** One pass of the loop body: the name is compared with all seven names in turn. */
  function ApplyOption(s: Settings, o: ConfigOption): (r: Settings)
    ensures o.name in NAMES ==> Setting(r, o.name) == Some(o.value)
    ensures forall n :: n in NAMES && n != o.name ==> Setting(r, n) == Setting(s, n)
    ensures o.name !in NAMES ==> r == s
  {
    var s := if o.name == "username" then s.(username := Some(o.value)) else s;
    var s := if o.name == "password" then s.(password := Some(o.value)) else s;
    var s := if o.name == "add" then s.(addurl := Some(o.value)) else s;
    var s := if o.name == "remove" then s.(removeurl := Some(o.value)) else s;
    var s := if o.name == "start" then s.(streamStart := Some(o.value)) else s;
    var s := if o.name == "end" then s.(streamEnd := Some(o.value)) else s;
    if o.name == "header" then s.(authHeader := o.value) else s
  }

  /** The record after the loop has walked the options from the head of the list. */
  function ApplyAll(s: Settings, opts: seq<ConfigOption>): Settings
    decreases |opts|
  {
    if opts == [] then s else ApplyOption(ApplyAll(s, opts[..|opts| - 1]), opts[|opts| - 1])
  }

  /** The value of the last option with this name, if there is one. */
  function LastValue(opts: seq<ConfigOption>, name: string): Option<CStr>
    decreases |opts|
  {
    if opts == [] then None
    else if opts[|opts| - 1].name == name then Some(opts[|opts| - 1].value)
    else LastValue(opts[..|opts| - 1], name)
  }

  /** Position i holds the last option with this name. */
  predicate LastAt(opts: seq<ConfigOption>, name: string, i: int) {
    0 <= i < |opts| && opts[i].name == name && forall j :: i < j < |opts| ==> opts[j].name != name
  }

  /** LastValue finds the value at the last position with the name, and nothing when there is none. */
  lemma {:induction false} LastValueIsLast(opts: seq<ConfigOption>, name: string)
    ensures LastValue(opts, name).None? <==> forall i :: 0 <= i < |opts| ==> opts[i].name != name
    ensures LastValue(opts, name).Some? ==>
      exists i :: LastAt(opts, name, i) && opts[i].value == LastValue(opts, name).value
    decreases |opts|
  {
    if opts != [] {
      var n := |opts| - 1;
      var init := opts[..n];
      if opts[n].name == name {
        assert LastAt(opts, name, n);
      } else {
        LastValueIsLast(init, name);
        assert forall i :: 0 <= i < n ==> init[i] == opts[i];
        if LastValue(init, name).Some? {
          var i :| LastAt(init, name, i) && init[i].value == LastValue(init, name).value;
          assert LastAt(opts, name, i);
        }
      }
    }
  }

  /**
   * Every recognised option name binds the value of its last occurrence and
   * otherwise keeps what the record started with.
   */
  lemma {:induction false} LastOccurrenceWins(s: Settings, opts: seq<ConfigOption>, name: string)
    requires name in NAMES
    ensures Setting(ApplyAll(s, opts), name) == if LastValue(opts, name).Some? then LastValue(opts, name) else Setting(s, name)
    decreases |opts|
  {
    if opts != [] {
      LastOccurrenceWins(s, opts[..|opts| - 1], name);
    }
  }

  /** The settings `auth_get_url_auth` binds from a list of options. */
  function Bound(opts: seq<ConfigOption>): Settings {
    ApplyAll(INITIAL, opts)
  }

  /**
   * The bound URLs and credentials are the last values given for them, NULL
   * when never given, and the marker is the last "header" value or the default.
   */
  lemma BoundSettings(opts: seq<ConfigOption>)
    ensures Bound(opts).username == LastValue(opts, "username")
    ensures Bound(opts).password == LastValue(opts, "password")
    ensures Bound(opts).addurl == LastValue(opts, "add")
    ensures Bound(opts).removeurl == LastValue(opts, "remove")
    ensures Bound(opts).streamStart == LastValue(opts, "start")
    ensures Bound(opts).streamEnd == LastValue(opts, "end")
    ensures Bound(opts).authHeader == LastValue(opts, "header").GetOr(DEFAULT_MARKER)
  {
    LastOccurrenceWins(INITIAL, opts, "username");
    LastOccurrenceWins(INITIAL, opts, "password");
    LastOccurrenceWins(INITIAL, opts, "add");
    LastOccurrenceWins(INITIAL, opts, "remove");
    LastOccurrenceWins(INITIAL, opts, "start");
    LastOccurrenceWins(INITIAL, opts, "end");
    LastOccurrenceWins(INITIAL, opts, "header");
  }

  /** Options with names outside the seven leave the whole record as it is. */
  lemma {:induction false} UnknownOptionsIgnored(s: Settings, opts: seq<ConfigOption>)
    requires forall i :: 0 <= i < |opts| ==> opts[i].name !in NAMES
    ensures ApplyAll(s, opts) == s
    decreases |opts|
  {
    if opts != [] {
      UnknownOptionsIgnored(s, opts[..|opts| - 1]);
    }
  }
}
