# Icecast URL authenticator, modelled in Dafny

This project models `src/auth_url.c`, the authenticator that lets an Icecast
server delegate listener admission to a web backend. When a listener connects,
the server POSTs an `action=auth` form body to the configured *add* URL. The
listener is admitted when the backend answers with the accept-marker header
(by default `icecast-auth-user: 1`). When the listener leaves, the server POSTs
`action=remove` to the *remove* URL. When a source starts or stops on a mount,
it POSTs `action=start` / `action=end` to the *start* / *end* URLs. The
authenticator's settings are bound from a list of `name`/`value` options.

Layout, one module per file:

- `wrappers.dfy` (`Wrappers`): `Option`, for a C value that may be NULL.
- `ctext.dfy` (`CText`): the C library behaviour the code relies on:
  - NUL-free C strings;
  - `tolower` and `strncasecmp`;
  - `snprintf` truncation;
  - `%lu` formatting;
  - the integer conversions in the curl callbacks.
- `form.dfy` (`Form`): the `key=value&key=value` layout the format strings produce (`Encode`), and how a backend reads such a body back (`Decode`).
- `bodies.dfy` (`Bodies`): the fields of the four POST bodies, in format-string order, and what a backend recovers from each.
- `matcher.dfy` (`Matcher`): the accept-marker test of `handle_returned_header`, the byte counts both callbacks report, and the `authenticated` flag after a whole response.
- `settings.dfy` (`Settings`): what the option loop of `auth_get_url_auth` binds, as values.
- `auth_url.dfy` (`AuthUrl`): the imperative core. The records are classes:
  - `Config`, the locked server configuration;
  - `Auth` (`auth_t`);
  - `UrlState` (`auth_url`);
  - `Handle` (the curl handle);
  - `Client` (`client_t`);
  - `AuthClient` (`auth_client`).

  The header callback, the four callouts and the binding are methods that update these objects step by step. A ghost trail of `Event`s on `Config` records the lock, refcount, request and release steps in order.

Inputs the code takes from outside are parameters:

- `esc` is the URL-escaping function. Like `util_url_escape`, it returns a C string (no NUL inside). The hostname, the mount and the client's address, credentials and user-agent are C strings too.
- `Transport` is what `curl_easy_perform` returned: the header lines and whether the transfer failed.
- `postprocess` is the result of `auth_postprocess_client`.
- `now` is `time(NULL)`.
- `handleCreated` says whether `curl_easy_init` succeeded.

When no remove URL is set, `auth_removeurl_client` returns `AUTH_OK` at once. It releases nothing and leaves `client->auth` set (src/auth_url.c:129-130).

The remove callout sends its body exactly as the format string at src/auth_url.c:138-142 lays it out, including the missing `&` described under "## Findings". The corrected layout is modelled beside it, as `Bodies.RemoveBody`.

## Model

| member | source | states |
|---|---|---|
| `Bodies.AddBody` | src/auth_url.c:188-192 | The add body: the add format string filled with the escaped values, the decimal client id and the agent. |
| `Bodies.AddBodyFormat` | src/auth_url.c:188-192 | The add body is, character for character, `action=auth&server=` followed by the escaped hostname, `&client=` and the decimal id, and so on through `&agent=` and the escaped agent. |
| `Bodies.RemoveBodyAsWritten` | src/auth_url.c:138-142 | The remove body the code sends, with no `&` between the server value and `client=`. |
| `Bodies.RemoveBodyAsWrittenFormat` | src/auth_url.c:138-142 | The remove body as written is, character for character, `action=remove&server=`, the escaped hostname, `client=`, the decimal id, then `&mount=`, `&user=`, `&pass=` and `&duration=` with their values. |
| `Bodies.RemoveBody` | src/auth_url.c:138-142 | The remove body with the `&` restored before `client=`. |
| `Bodies.RemoveBodyFormat` | src/auth_url.c:138-142 | The corrected remove body is, character for character, the as-written text with `&client=` in place of `client=`. |
| `Bodies.StreamBody` | src/auth_url.c:250-251 | The start or end body: the action word, the escaped mount and the escaped hostname. |
| `Bodies.StreamBodyFormat` | src/auth_url.c:250-251 | A stream body is, character for character, `action=start` or `action=end` (src/auth_url.c:291-292), then `&mount=` and `&server=` with their escaped values. |
| `CText.NCaseEqual` | src/auth_url.c:105 | `strncasecmp(a, b, n) == 0`: the strings agree after `tolower`, character by character, for n characters or until both end at the same place (a NUL), whichever comes first. |
| `Matcher.AfterLine` | src/auth_url.c:105-106 | What one header line does to the flag: set it to 1 on a match, otherwise leave it. |
| `Matcher.AfterHeaders` | src/auth_url.c:101-107 | The flag after the header callback has seen every line of a response, in order. |
| `Settings.ApplyAll` | src/auth_url.c:340-359 | The record after the option loop has walked the list from its head. |
| `Settings.Bound` | src/auth_url.c:337-359 | The settings bound from a zeroed record holding the default marker. |
| `Form.DecodeEncode` | src/auth_url.c:188-192 | A body laid out as `key=value` fields joined by `&` is read back by a backend as exactly those fields, in order, when no key holds `&` or `=` and no value holds `&`. |
| `Bodies.AddBodyFields` | src/auth_url.c:179-192 | The add body decodes to `action=auth`, then `server`, `client`, `mount`, `user`, `pass`, `ip` and `agent` in that order. Every variable value is escaped, the client id is written in decimal, and the agent is `-` when the client sent no user-agent. |
| `Bodies.Agent` | src/auth_url.c:179-181 | The user-agent is the client's header value when present, and the literal `-` otherwise. |
| `Bodies.RemoveBodyAsWrittenLosesClient` | src/auth_url.c:138-142 | The remove body as written decodes to six fields with no `client` among them. The server field's value is the escaped hostname followed by `client=` and the id. |
| `Bodies.RemoveBodyFields` | src/auth_url.c:138-142 | The corrected remove body decodes to `action=remove`, then `server`, `client`, `mount`, `user`, `pass` and `duration` in that order. |
| `Bodies.RemoveBodyReportsDuration` | src/auth_url.c:124-142 | A listener connected for 3600 seconds is reported with `duration=3600`, the last of the six fields the remove body as written carries. |
| `Bodies.StreamBodyFields` | src/auth_url.c:250-251 | A stream body decodes to `action` (`start`, or `end` as at src/auth_url.c:291-292), `mount` and `server`, in that order. |
| `Bodies.SentWhole` | src/auth_url.c:171 | When the formatted body is shorter than the buffer, the text `snprintf` leaves decodes to every field. |
| `Bodies.AddBodySentWhole` | src/auth_url.c:171-192 | An add body shorter than the 1024-byte buffer reaches the backend as all eight add fields. |
| `Bodies.RemoveBodyAsWrittenSentWhole` | src/auth_url.c:127-142 | A remove body as written, shorter than the 1024-byte buffer, reaches the backend as its six fields. |
| `Bodies.StreamBodySentWhole` | src/auth_url.c:235-251 | A stream body shorter than the 4096-byte buffer reaches the backend as its three fields. |
| `CText.SnPrintf` | src/auth_url.c:188-192 | The text left in a buffer of `size` bytes is a prefix of the formatted text and at most `size - 1` bytes long. It equals the whole text exactly when the text fits, and is cut to `size - 1` bytes otherwise. |
| `CText.Decimal` | src/auth_url.c:189 | `%lu` gives one or more decimal digits with no leading zero, except for 0 itself. |
| `CText.DecimalRoundTrip` | src/auth_url.c:189 | Parsing the `%lu` text of n gives back n. |
| `CText.ToULong` | src/auth_url.c:142 | `(long unsigned)duration` is the duration modulo 2^64, so a negative duration becomes 2^64 plus the duration. |
| `CText.NCaseEqualIsFoldedPrefix` | src/auth_url.c:105 | `strncasecmp(line, marker, strlen(marker)) == 0` holds exactly when the line starts with the marker up to the case of ASCII letters. |
| `Matcher.HeaderCallbackResult` | src/auth_url.c:98-109 | The header callback's return value lies in the `int` range. |
| `Matcher.DataCallbackResult` | src/auth_url.c:113-116 | The data callback's return value lies in the `int` range. |
| `Matcher.CallbacksConsumeAll` | src/auth_url.c:95-116 | Both callbacks report the same count. The count is exactly `size * nmemb` whenever that is below 2^31. |
| `Matcher.AfterHeadersIsAnyMatch` | src/auth_url.c:101-107 | After a response the flag is 1 if some header line passed the marker test, and otherwise is unchanged: the callback never clears it. |
| `Matcher.ResponseAuthenticates` | src/auth_url.c:105-106 | A listener not yet authenticated becomes authenticated exactly when some returned header line starts with the marker, ignoring case. |
| `Matcher.EmptyMarkerAcceptsAnyResponse` | src/auth_url.c:367-368 | A marker configured as the empty string has length 0, so any response with a header line authenticates. |
| `Matcher.DefaultMarkerIgnoresCase` | src/auth_url.c:338 | Under the default marker, a response carrying `ICECAST-AUTH-USER: 1` authenticates. |
| `Matcher.DefaultMarkerRejectsZero` | src/auth_url.c:338 | Under the default marker, a response whose only line is `icecast-auth-user: 0` does not authenticate. |
| `Settings.ApplyOption` | src/auth_url.c:341-357 | A recognised option sets its own field to its value and leaves every other field alone. An unrecognised option changes nothing. |
| `Settings.LastValueIsLast` | src/auth_url.c:340-359 | The reference for "last occurrence": no value when no option has the name; otherwise the value at the last position holding that name. |
| `Settings.LastOccurrenceWins` | src/auth_url.c:340-359 | After the loop, each recognised field holds its last occurrence's value, or its starting value if the name never occurs. |
| `Settings.BoundSettings` | src/auth_url.c:337-359 | From a zeroed record, the six URLs and credentials are their last given values (NULL when never given). The marker is the last `header` value, or `icecast-auth-user: 1\r\n`. |
| `Settings.UnknownOptionsIgnored` | src/auth_url.c:340-359 | A list of options with no recognised name leaves the record as it was. |
| `AuthUrl.Config.Lock` | src/auth_url.c:176 | `config_get_config` records that the lock was taken. |
| `AuthUrl.Config.Unlock` | src/auth_url.c:178 | `config_release_config` records that the lock was released. |
| `AuthUrl.UrlState.constructor` | src/auth_url.c:337-338 | A new record has no URLs, no credentials, the default marker, marker length 0 and no handle. |
| `AuthUrl.UrlState.Bind` | src/auth_url.c:341-357 | One iteration of the option loop changes the record's settings as `ApplyOption` does, and touches neither the marker length nor the handle. |
| `AuthUrl.HandleReturnedHeader` | src/auth_url.c:95-110 | It returns the converted `size * nmemb`. With a listener, the listener's flag becomes 1 when the line passes the marker test and keeps its old value otherwise. With no listener, nothing changes. |
| `AuthUrl.Perform` | src/auth_url.c:203 | The request is recorded, and the transfer's failure is reported. The listener's flag ends as `AfterHeaders` of its old value over the returned lines. |
| `AuthUrl.Send` | src/auth_url.c:199-203 | The handle gets the URL, the body and the header-callback argument, and the request goes out with exactly that URL and body. |
| `AuthUrl.AddUrlClient` | src/auth_url.c:162-221 | With no add URL: `AUTH_OK`, nothing sent and nothing changed. Otherwise the truncated add body goes to the add URL, the handle keeps its no-signal and timeout settings, and the result is `AUTH_OK` exactly when the transfer succeeded, the flag is set afterwards and post-processing returned at least 0. |
| `AuthUrl.RemoveUrlClient` | src/auth_url.c:119-159 | Always `AUTH_OK`. The authenticator keeps its state either way. With no remove URL nothing else happens either. Otherwise the truncated remove body as written (duration `now - con_time`) goes to the remove URL, and the handle keeps its no-signal and timeout settings. Then, whatever the outcome, the authenticator loses exactly one reference, and `client->auth` becomes NULL. |
| `AuthUrl.Release` | src/auth_url.c:155 | `auth_release` lowers the reference count by one and is recorded. |
| `AuthUrl.StreamCallout` | src/auth_url.c:227-265 | Always `AUTH_OK`, and the refcount ends where it started. With no URL: lock, unlock, and nothing else; an attached listener is untouched. Otherwise: lock, refcount bump, unlock, request to the URL read under the lock with the body truncated to 4095 bytes, release. The handle keeps its no-signal and timeout settings, and an attached listener's flag is updated by the header callback as in the other callouts. These callouts normally run with no listener (src/auth_url.c:224-225). |
| `AuthUrl.StreamStart` | src/auth_url.c:227-265 | `StreamCallout` with the start URL and `action=start`: the request goes to the start URL with the start body and the callout's `auth_client` as the header-callback argument. The handle keeps its no-signal and timeout settings. An attached listener is left alone when nothing is sent, and otherwise updated by the header callback. |
| `AuthUrl.StreamEnd` | src/auth_url.c:268-306 | `StreamCallout` with the end URL and `action=end`: the request goes to the end URL with the end body and the callout's `auth_client` as the header-callback argument. The handle keeps its no-signal and timeout settings. An attached listener is left alone when nothing is sent, and otherwise updated by the header callback. |
| `AuthUrl.AddUser` | src/auth_url.c:309-312 | Always `AUTH_FAILED`. |
| `AuthUrl.DeleteUser` | src/auth_url.c:314-317 | Always `AUTH_FAILED`. |
| `AuthUrl.ListUser` | src/auth_url.c:319-322 | Always `AUTH_FAILED`. |
| `AuthUrl.GetUrlAuth` | src/auth_url.c:324-380 | If the handle cannot be created: -1, and the authenticator's state is left as it was. Otherwise: 0, and a fresh record holding `Bound(options)` becomes the state, with the marker length equal to the marker's length and a fresh handle with no signals and a 15-second timeout. |

## Left out

- The curl transport (`curl_easy_init`, `curl_easy_perform`, TLS, timeouts) is foreign network I/O. A request is an outcome supplied by the caller: the returned header lines and a failure flag. Each header line reaches the callback whole.
- Only `CURLOPT_NOSIGNAL` and `CURLOPT_TIMEOUT` of the setup options are kept as handle fields. The header and write callbacks are what `Perform` and `Matcher.DataCallbackResult` model. `CURLOPT_WRITEDATA` and `CURLOPT_ERRORBUFFER` are left out, because nothing in the core reads them.
- curl aborts a transfer when a callback reports a short count. The model does not represent that abort; `Matcher.CallbacksConsumeAll` shows the count is never short for chunks below 2^31 bytes.
- The callback table filled at src/auth_url.c:328-335 holds C function addresses. The model calls the operations directly.
- `auth_url_clear` (src/auth_url.c:83-92) frees memory, which the model does not track. As written it frees neither `stream_start`, `stream_end` nor `auth_header`.
- The config lock, the worker threads and the atomicity of the reference count are concurrency. Only the order of steps is kept, as the ghost `Event` trail.
- `auth_release` is defined elsewhere. It is modelled as lowering the count by one; destruction at zero is not modelled.
- `util_url_escape` is not part of this model. It is the parameter `esc`, and the decoding lemmas ask that the escaped values contain no `&`.
- `httpp_getvar` is not part of this model. The user-agent is `Client.userAgent`, an optional string.
- `auth_postprocess_client` is not part of this model. Its result is the parameter `postprocess`.
- `time(NULL)` is the parameter `now`. The subtraction is unbounded, then converted to `unsigned long`.
- `config_find_mount` is a map lookup. The stream callouts require three things, because the code dereferences each without a check: the mount exists, its authenticator has a state, and that state has a request handle. `GetUrlAuth` installs a handle whenever it installs a state.
- Out-of-memory failures of `calloc`/`strdup` are not modelled, and neither is the `free(authenticator)` on the -1 path; the model only guarantees that no state is set.
- Logging (`WARN2`, `INFO0`).
- `Client.id` is a `nat`: the client id is assumed below 2^64, so `%lu` of it does not wrap.
- `AuthUrl.HandleReturnedHeader`: the header bytes are assumed to be followed by a NUL, so `strncasecmp` never reads past the line.
- `Form.Decode` is a reference for how a backend splits a form body. It is not code of this repository.

## Findings

| source | as written | input that shows it | evidently intended | confidence | as-written member | corrected member |
|---|---|---|---|---|---|---|
| src/auth_url.c:138-142 | The remove format is `action=remove&server=%sclient=%lu&...`, with no `&` before `client=`. | Hostname `h`, client id 7: the body starts `action=remove&server=hclient=7&mount=...`, which a backend reads as `server` = `hclient=7` and no `client` field. | `action=remove&server=%s&client=%lu&...`, as in the add format at src/auth_url.c:189 and the comment at src/auth_url.c:30. | high, not executed | `Bodies.RemoveBodyAsWrittenLosesClient` | `Bodies.RemoveBodyFields` |
