/**
 * The POST bodies of the four callouts, laid out field by field as their
 * format strings lay them out, and what a backend reads back from each.
 *
 * `util_url_escape` is not part of this model: every body takes the escaping
 * function as a parameter `esc`, and what is proved holds whenever the values
 * `esc` produces hold no '&' (a percent-encoder encodes it). Like
 * `util_url_escape`, `esc` returns a C string.
 */
module Bodies {
  import opened Wrappers
  import opened CText
  import opened Form

  type Escape = string -> CStr

  /** Sizes of the `post[]` buffers that `snprintf` fills. */
  const CLIENT_POST_SIZE: nat := 1024
  const STREAM_POST_SIZE: nat := 4096

  /** The user-agent reported when the client sent none. */
  function Agent(userAgent: Option<string>): (r: string)
    ensures userAgent.None? ==> r == "-"
    ensures userAgent.Some? ==> r == userAgent.value
  {
    userAgent.GetOr("-")
  }

  /** "action=auth&server=%s&client=%lu&mount=%s&user=%s&pass=%s&ip=%s&agent=%s" */
  function AddFields(esc: Escape, server: string, id: nat, mount: string,
                     user: string, pass: string, ip: string, userAgent: Option<string>): seq<Field>
  {
    [("action", "auth"), ("server", esc(server)), ("client", Decimal(id)),
     ("mount", esc(mount)), ("user", esc(user)), ("pass", esc(pass)),
     ("ip", esc(ip)), ("agent", esc(Agent(userAgent)))]
  }

  /** The fields the corrected remove body carries. */
  function RemoveFields(esc: Escape, server: string, id: nat, mount: string,
                        user: string, pass: string, duration: int): seq<Field>
  {
    [("action", "remove"), ("server", esc(server)), ("client", Decimal(id)),
     ("mount", esc(mount)), ("user", esc(user)), ("pass", esc(pass)),
     ("duration", Decimal(ToULong(duration)))]
  }

  /**
   * "action=remove&server=%sclient=%lu&mount=%s&user=%s&pass=%s&duration=%lu"
   * as the source writes it: with no '&' before "client=", the text from the
   * server value up to the next '&' is one field, "server".
   */
  function RemoveFieldsAsWritten(esc: Escape, server: string, id: nat, mount: string,
                                 user: string, pass: string, duration: int): seq<Field>
  {
    [("action", "remove"), ("server", esc(server) + "client=" + Decimal(id)),
     ("mount", esc(mount)), ("user", esc(user)), ("pass", esc(pass)),
     ("duration", Decimal(ToULong(duration)))]
  }

  datatype StreamAction = Start | End

  function ActionName(action: StreamAction): string {
    match action
    case Start => "start"
    case End => "end"
  }

  /** "action=start&mount=%s&server=%s" and "action=end&mount=%s&server=%s" */
  function StreamFields(esc: Escape, action: StreamAction, mount: string, server: string): seq<Field> {
    [("action", ActionName(action)), ("mount", esc(mount)), ("server", esc(server))]
  }

  function AddBody(esc: Escape, server: string, id: nat, mount: string,
                   user: string, pass: string, ip: string, userAgent: Option<string>): string
  {
    Encode(AddFields(esc, server, id, mount, user, pass, ip, userAgent))
  }

  function RemoveBodyAsWritten(esc: Escape, server: string, id: nat, mount: string,
                               user: string, pass: string, duration: int): string
  {
    Encode(RemoveFieldsAsWritten(esc, server, id, mount, user, pass, duration))
  }

  function RemoveBody(esc: Escape, server: string, id: nat, mount: string,
                      user: string, pass: string, duration: int): string
  {
    Encode(RemoveFields(esc, server, id, mount, user, pass, duration))
  }

  function StreamBody(esc: Escape, action: StreamAction, mount: string, server: string): string {
    Encode(StreamFields(esc, action, mount, server))
  }

  lemma DigitsArePlain(n: nat)
    ensures '&' !in Decimal(n) && '=' !in Decimal(n)
  {
    var d := Decimal(n);
    forall i | 0 <= i < |d| ensures d[i] != '&' && d[i] != '=' {
      assert '0' <= d[i] <= '9';
    }
  }

  /** The server value the remove body as written carries holds no '&'. */
  lemma GluedIsPlain(s: string, c: string)
    requires '&' !in s && '&' !in c
    ensures '&' !in s + "client=" + c
  {
    var glued := s + "client=" + c;
    forall i | 0 <= i < |glued| ensures glued[i] != '&' {
      if i < |s| { assert glued[i] == s[i]; }
      else if i < |s| + 7 { assert glued[i] == "client="[i - |s|]; }
      else { assert glued[i] == c[i - |s| - 7]; }
    }
  }

  /** The authenticate-add body decodes to its eight fields, in order. */
  lemma AddBodyFields(esc: Escape, server: string, id: nat, mount: string,
                      user: string, pass: string, ip: string, userAgent: Option<string>)
    requires '&' !in esc(server) && '&' !in esc(mount) && '&' !in esc(user)
    requires '&' !in esc(pass) && '&' !in esc(ip) && '&' !in esc(Agent(userAgent))
    ensures Decode(AddBody(esc, server, id, mount, user, pass, ip, userAgent)) ==
      AddFields(esc, server, id, mount, user, pass, ip, userAgent)
    ensures Keys(Decode(AddBody(esc, server, id, mount, user, pass, ip, userAgent))) ==
      ["action", "server", "client", "mount", "user", "pass", "ip", "agent"]
  {
    DigitsArePlain(id);
    DecodeEncode(AddFields(esc, server, id, mount, user, pass, ip, userAgent));
  }

  /** The corrected remove body decodes to its seven fields, "client" among them. */
  lemma RemoveBodyFields(esc: Escape, server: string, id: nat, mount: string,
                         user: string, pass: string, duration: int)
    requires '&' !in esc(server) && '&' !in esc(mount) && '&' !in esc(user) && '&' !in esc(pass)
    ensures Decode(RemoveBody(esc, server, id, mount, user, pass, duration)) ==
      RemoveFields(esc, server, id, mount, user, pass, duration)
    ensures Keys(Decode(RemoveBody(esc, server, id, mount, user, pass, duration))) ==
      ["action", "server", "client", "mount", "user", "pass", "duration"]
  {
    DigitsArePlain(id);
    DigitsArePlain(ToULong(duration));
    DecodeEncode(RemoveFields(esc, server, id, mount, user, pass, duration));
  }

  /**
   * The remove body as written: a backend reads the client id as part of the
   * server value and finds no "client" field at all.
   */
  lemma RemoveBodyAsWrittenLosesClient(esc: Escape, server: string, id: nat, mount: string,
                                       user: string, pass: string, duration: int)
    requires '&' !in esc(server) && '&' !in esc(mount) && '&' !in esc(user) && '&' !in esc(pass)
    ensures Keys(Decode(RemoveBodyAsWritten(esc, server, id, mount, user, pass, duration))) ==
      ["action", "server", "mount", "user", "pass", "duration"]
    ensures Decode(RemoveBodyAsWritten(esc, server, id, mount, user, pass, duration)) ==
      RemoveFieldsAsWritten(esc, server, id, mount, user, pass, duration)
  {
    DigitsArePlain(id);
    DigitsArePlain(ToULong(duration));
    GluedIsPlain(esc(server), Decimal(id));
    DecodeEncode(RemoveFieldsAsWritten(esc, server, id, mount, user, pass, duration));
  }

  /** A stream body decodes to the action, the mount and the server, in order. */
  lemma StreamBodyFields(esc: Escape, action: StreamAction, mount: string, server: string)
    requires '&' !in esc(mount) && '&' !in esc(server)
    ensures Decode(StreamBody(esc, action, mount, server)) == StreamFields(esc, action, mount, server)
    ensures Keys(Decode(StreamBody(esc, action, mount, server))) == ["action", "mount", "server"]
  {
    DecodeEncode(StreamFields(esc, action, mount, server));
  }

  /**
   * What `snprintf` leaves in a buffer of `size` bytes: the whole body when it
   * fits, so that a backend reads back every field.
   */
  lemma SentWhole(fields: seq<Field>, size: nat)
    requires size > 0 && fields != [] && Plain(fields)
    requires |Encode(fields)| < size
    ensures Decode(SnPrintf(Encode(fields), size)) == fields
  {
    DecodeEncode(fields);
  }

  /** An add body that fits the 1024-byte buffer reaches the backend as all eight fields. */
  lemma AddBodySentWhole(esc: Escape, server: string, id: nat, mount: string,
                         user: string, pass: string, ip: string, userAgent: Option<string>)
    requires '&' !in esc(server) && '&' !in esc(mount) && '&' !in esc(user)
    requires '&' !in esc(pass) && '&' !in esc(ip) && '&' !in esc(Agent(userAgent))
    requires |AddBody(esc, server, id, mount, user, pass, ip, userAgent)| < CLIENT_POST_SIZE
    ensures Decode(SnPrintf(AddBody(esc, server, id, mount, user, pass, ip, userAgent), CLIENT_POST_SIZE)) ==
      AddFields(esc, server, id, mount, user, pass, ip, userAgent)
  {
    DigitsArePlain(id);
    SentWhole(AddFields(esc, server, id, mount, user, pass, ip, userAgent), CLIENT_POST_SIZE);
  }

  /** A remove body as written that fits the 1024-byte buffer reaches the backend as all six fields. */
  lemma RemoveBodyAsWrittenSentWhole(esc: Escape, server: string, id: nat, mount: string,
                                     user: string, pass: string, duration: int)
    requires '&' !in esc(server) && '&' !in esc(mount) && '&' !in esc(user) && '&' !in esc(pass)
    requires |RemoveBodyAsWritten(esc, server, id, mount, user, pass, duration)| < CLIENT_POST_SIZE
    ensures Decode(SnPrintf(RemoveBodyAsWritten(esc, server, id, mount, user, pass, duration), CLIENT_POST_SIZE)) ==
      RemoveFieldsAsWritten(esc, server, id, mount, user, pass, duration)
  {
    DigitsArePlain(id);
    DigitsArePlain(ToULong(duration));
    GluedIsPlain(esc(server), Decimal(id));
    SentWhole(RemoveFieldsAsWritten(esc, server, id, mount, user, pass, duration), CLIENT_POST_SIZE);
  }

  /** A stream body that fits the 4096-byte buffer reaches the backend as all three fields. */
  lemma StreamBodySentWhole(esc: Escape, action: StreamAction, mount: string, server: string)
    requires '&' !in esc(mount) && '&' !in esc(server)
    requires |StreamBody(esc, action, mount, server)| < STREAM_POST_SIZE
    ensures Decode(SnPrintf(StreamBody(esc, action, mount, server), STREAM_POST_SIZE)) ==
      StreamFields(esc, action, mount, server)
  {
    SentWhole(StreamFields(esc, action, mount, server), STREAM_POST_SIZE);
  }

  /**
   * A listener connected for an hour is reported with "duration=3600", the
   * last of the six fields the remove body as written carries.
   */
  lemma RemoveBodyReportsDuration(esc: Escape, server: string, id: nat, mount: string,
                                  user: string, pass: string, conTime: int, now: int)
    requires now - conTime == 3600
    requires '&' !in esc(server) && '&' !in esc(mount) && '&' !in esc(user) && '&' !in esc(pass)
    ensures var fields := Decode(RemoveBodyAsWritten(esc, server, id, mount, user, pass, now - conTime));
      |fields| == 6 && fields[5] == ("duration", "3600")
  {
    RemoveBodyAsWrittenLosesClient(esc, server, id, mount, user, pass, now - conTime);
    assert Decimal(3600) == "3600";
  }

  /** The add format string laid out over its eight values. */
  lemma AddLayout(s: string, c: string, m: string, u: string, w: string, i: string, g: string)
    ensures Encode([("action", "auth"), ("server", s), ("client", c), ("mount", m), ("user", u),
                    ("pass", w), ("ip", i), ("agent", g)]) ==
      "action=auth" + "&server=" + s + "&client=" + c + "&mount=" + m + "&user=" + u + "&pass=" + w +
      "&ip=" + i + "&agent=" + g
  {
    var f := [("action", "auth"), ("server", s), ("client", c), ("mount", m), ("user", u),
              ("pass", w), ("ip", i), ("agent", g)];
    var p4 := "action=auth" + "&server=" + s + "&client=" + c + "&mount=" + m + "&user=" + u;
    EncodeFourSteps("action=auth", "&server=", "&client=", "&mount=", "&user=", f[1..]);
    assert f[1..][4..] == f[5..];
    EncodeLastThree(p4, "&pass=", "&ip=", "&agent=", f[5..]);
  }

  /** "action=auth&server=%s&client=%lu&mount=%s&user=%s&pass=%s&ip=%s&agent=%s" with its values. */
  lemma AddBodyFormat(esc: Escape, server: string, id: nat, mount: string,
                      user: string, pass: string, ip: string, userAgent: Option<string>)
    ensures AddBody(esc, server, id, mount, user, pass, ip, userAgent) ==
      "action=auth" + "&server=" + esc(server) + "&client=" + Decimal(id) + "&mount=" + esc(mount) +
      "&user=" + esc(user) + "&pass=" + esc(pass) + "&ip=" + esc(ip) + "&agent=" + esc(Agent(userAgent))
  {
    AddLayout(esc(server), Decimal(id), esc(mount), esc(user), esc(pass), esc(ip), esc(Agent(userAgent)));
  }

  /** The remove format string as written, laid out over its six fields. */
  lemma RemoveLayout(s: string, c: string, m: string, u: string, w: string, d: string)
    ensures Encode([("action", "remove"), ("server", s + "client=" + c), ("mount", m), ("user", u),
                    ("pass", w), ("duration", d)]) ==
      "action=remove" + "&server=" + s + "client=" + c + "&mount=" + m + "&user=" + u + "&pass=" + w +
      "&duration=" + d
  {
    var f := [("action", "remove"), ("server", s + "client=" + c), ("mount", m), ("user", u), ("pass", w),
              ("duration", d)];
    EncodeFourSteps("action=remove", "&server=", "&mount=", "&user=", "&pass=", f[1..]);
    assert f[1..][4..] == f[5..];
    EncodeLastStep("action=remove" + "&server=" + (s + "client=" + c) + "&mount=" + m + "&user=" + u +
                   "&pass=" + w, "&duration=", f[5..]);
    assert "action=remove" + "&server=" + (s + "client=" + c) == "action=remove" + "&server=" + s + "client=" + c;
  }

  /** "action=remove&server=%sclient=%lu&mount=%s&user=%s&pass=%s&duration=%lu" with its values. */
  lemma RemoveBodyAsWrittenFormat(esc: Escape, server: string, id: nat, mount: string,
                                  user: string, pass: string, duration: int)
    ensures RemoveBodyAsWritten(esc, server, id, mount, user, pass, duration) ==
      "action=remove" + "&server=" + esc(server) + "client=" + Decimal(id) + "&mount=" + esc(mount) +
      "&user=" + esc(user) + "&pass=" + esc(pass) + "&duration=" + Decimal(ToULong(duration))
  {
    RemoveLayout(esc(server), Decimal(id), esc(mount), esc(user), esc(pass), Decimal(ToULong(duration)));
  }

  /** The corrected remove format string laid out over its seven fields. */
  lemma CorrectedRemoveLayout(s: string, c: string, m: string, u: string, w: string, d: string)
    ensures Encode([("action", "remove"), ("server", s), ("client", c), ("mount", m), ("user", u),
                    ("pass", w), ("duration", d)]) ==
      "action=remove" + "&server=" + s + "&client=" + c + "&mount=" + m + "&user=" + u + "&pass=" + w +
      "&duration=" + d
  {
    var f := [("action", "remove"), ("server", s), ("client", c), ("mount", m), ("user", u),
              ("pass", w), ("duration", d)];
    var p4 := "action=remove" + "&server=" + s + "&client=" + c + "&mount=" + m + "&user=" + u;
    EncodeFourSteps("action=remove", "&server=", "&client=", "&mount=", "&user=", f[1..]);
    assert f[1..][4..] == f[5..];
    EncodeLastTwo(p4, "&pass=", "&duration=", f[5..]);
  }

  /** "action=remove&server=%s&client=%lu&mount=%s&user=%s&pass=%s&duration=%lu" with its values. */
  lemma RemoveBodyFormat(esc: Escape, server: string, id: nat, mount: string,
                         user: string, pass: string, duration: int)
    ensures RemoveBody(esc, server, id, mount, user, pass, duration) ==
      "action=remove" + "&server=" + esc(server) + "&client=" + Decimal(id) + "&mount=" + esc(mount) +
      "&user=" + esc(user) + "&pass=" + esc(pass) + "&duration=" + Decimal(ToULong(duration))
  {
    CorrectedRemoveLayout(esc(server), Decimal(id), esc(mount), esc(user), esc(pass), Decimal(ToULong(duration)));
  }

  /** "action=start&mount=%s&server=%s" and "action=end&mount=%s&server=%s" with their values. */
  lemma StreamBodyFormat(esc: Escape, action: StreamAction, mount: string, server: string)
    ensures StreamBody(esc, action, mount, server) ==
      "action=" + ActionName(action) + "&mount=" + esc(mount) + "&server=" + esc(server)
  {
    var f := StreamFields(esc, action, mount, server);
    EncodeStep("action=" + ActionName(action), "&mount=", f[1..]);
    EncodeLastStep("action=" + ActionName(action) + "&mount=" + esc(mount), "&server=", f[2..]);
  }
}
