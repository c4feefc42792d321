/**
 * The response side of a callout: the accept-marker test `handle_returned_header`
 * applies to each header line, what the two curl callbacks report as consumed,
 * and the value the client's `authenticated` flag holds after a whole response.
 */
module Matcher {
  import opened CText
  import opened Settings

  /** `strncasecmp(line, marker, len) == 0`, the test a header line must pass. */
  predicate Accepts(line: string, marker: CStr, len: nat) {
    NCaseEqual(line, marker, len)
  }

  /**
   * `size * nmemb` computed as a 64-bit `size_t`, stored in a 32-bit
   * `unsigned` and returned as an `int`.
   */
  function HeaderCallbackResult(size: nat, nmemb: nat): (r: int)
    ensures -TWO_32 / 2 <= r < TWO_32 / 2
  {
    ToInt32(ToUnsigned((size * nmemb) % TWO_64))
  }

  /** `size * nmemb` computed as a 64-bit `size_t` and returned as an `int`. */
  function DataCallbackResult(size: nat, nmemb: nat): (r: int)
    ensures -TWO_32 / 2 <= r < TWO_32 / 2
  {
    ToInt32((size * nmemb) % TWO_64)
  }

  /**
   * Both callbacks report the same count, and it is exactly the number of
   * bytes curl handed over whenever that number fits in an `int`; so curl
   * never sees a short count for a chunk below 2^31 bytes.
   */
  lemma CallbacksConsumeAll(size: nat, nmemb: nat)
    ensures HeaderCallbackResult(size, nmemb) == DataCallbackResult(size, nmemb)
    ensures size * nmemb < TWO_32 / 2 ==> HeaderCallbackResult(size, nmemb) == size * nmemb
  {
    var x := (size * nmemb) % TWO_64;
    assert ToUnsigned(x) % TWO_32 == x % TWO_32;
  }

  /** The flag after one line: set to 1 on a match, otherwise left as it was. */
  function AfterLine(flag: int, line: string, marker: CStr, len: nat): int {
    if Accepts(line, marker, len) then 1 else flag
  }

  /** The flag after the header callback has seen every line of a response, in order. */
  function AfterHeaders(flag: int, lines: seq<string>, marker: CStr, len: nat): int
    decreases |lines|
  {
    if lines == [] then flag
    else AfterLine(AfterHeaders(flag, lines[..|lines| - 1], marker, len), lines[|lines| - 1], marker, len)
  }

  /**
   * After a response the flag is 1 exactly when some line matched, and is
   * otherwise the value it had before: the callback never clears it.
   */
  lemma {:induction false} AfterHeadersIsAnyMatch(flag: int, lines: seq<string>, marker: CStr, len: nat)
    ensures (exists i :: 0 <= i < |lines| && Accepts(lines[i], marker, len)) ==>
      AfterHeaders(flag, lines, marker, len) == 1
    ensures (forall i :: 0 <= i < |lines| ==> !Accepts(lines[i], marker, len)) ==>
      AfterHeaders(flag, lines, marker, len) == flag
    decreases |lines|
  {
    if lines != [] {
      var init := lines[..|lines| - 1];
      AfterHeadersIsAnyMatch(flag, init, marker, len);
      if exists i :: 0 <= i < |lines| && Accepts(lines[i], marker, len) {
        var i :| 0 <= i < |lines| && Accepts(lines[i], marker, len);
        if i < |lines| - 1 {
          assert init[i] == lines[i];
        }
      }
      if forall i :: 0 <= i < |lines| ==> !Accepts(lines[i], marker, len) {
        forall i | 0 <= i < |init| ensures !Accepts(init[i], marker, len) {
          assert init[i] == lines[i];
        }
      }
    }
  }

  /**
   * With the length the configuration computes, a client that was not yet
   * authenticated is authenticated by a response exactly when one of its
   * header lines starts with the marker, ignoring the case of ASCII letters.
   */
  lemma ResponseAuthenticates(lines: seq<string>, marker: CStr)
    ensures AfterHeaders(0, lines, marker, |marker|) == 1 <==>
      exists i :: 0 <= i < |lines| && FoldedPrefix(marker, lines[i])
  {
    AfterHeadersIsAnyMatch(0, lines, marker, |marker|);
    forall i | 0 <= i < |lines|
      ensures Accepts(lines[i], marker, |marker|) <==> FoldedPrefix(marker, lines[i])
    {
      NCaseEqualIsFoldedPrefix(lines[i], marker);
    }
  }

  /**
   * A marker configured as the empty string is compared over zero bytes, so
   * any response with at least one header line authenticates the client.
   */
  lemma EmptyMarkerAcceptsAnyResponse(flag: int, lines: seq<string>)
    requires lines != []
    ensures AfterHeaders(flag, lines, "", 0) == 1
  {
    assert Accepts(lines[0], "", 0);
    AfterHeadersIsAnyMatch(flag, lines, "", 0);
  }

  /** The default marker accepts a server that spells the header in capitals. */
  lemma DefaultMarkerIgnoresCase()
    ensures AfterHeaders(0, ["HTTP/1.1 200 OK\r\n", "ICECAST-AUTH-USER: 1\r\n"],
                         DEFAULT_MARKER, |DEFAULT_MARKER|) == 1
  {
    var lines := ["HTTP/1.1 200 OK\r\n", "ICECAST-AUTH-USER: 1\r\n"];
    assert FoldedPrefix(DEFAULT_MARKER, lines[1]);
    ResponseAuthenticates(lines, DEFAULT_MARKER);
  }

  /** The default marker does not accept the header with any other value. */
  lemma DefaultMarkerRejectsZero()
    ensures AfterHeaders(0, ["icecast-auth-user: 0\r\n"], DEFAULT_MARKER, |DEFAULT_MARKER|) == 0
  {
    var lines := ["icecast-auth-user: 0\r\n"];
    assert lines[0][19] != DEFAULT_MARKER[19];
    ResponseAuthenticates(lines, DEFAULT_MARKER);
  }
}
