# pycloudmusic login session and API client control logic, in Dafny

This project models the control logic of `pycloudmusic/music163.py`, an async
Python client for the NetEase Cloud Music web API.

**Network calls are replaced by scripts of outcomes.** Every network call
(`_post`, the login post) becomes a scripted sequence of outcomes. The model
states what the code does with those outcomes and proves it.

Modules:

- `Wire` (`wire.dfy`): the data that travels between client and service.
  - Parsed JSON, form dictionaries and requests.
  - The failures the core raises.
  - Python's `d[key]` on a parsed value, and `str(v)` on a scalar.
- `Seqs` (`seqs.dfy`): flattening and fixed-size batching of sequences.
- `Cookies` (`cookies.dfy`): the Cookie header `_SimpleCookieToCookieStr`
  builds, i.e. the `name=value` pairs of section 5.4 of RFC 6265, each
  followed by `"; "`.
  - Python's `lstrip("Set-Cookie: ")` strips leading characters drawn from the
    SET `{S,e,t,-,C,o,k,i,:,space}`, not the literal prefix. The model keeps
    that semantics.
  - As a result, a cookie named `token` is sent as `n=...`
    (`Cookies.TokenNameIsCut`).
- `Retry` (`retry.dfy`): the retrying login post `_login`.
  - The guard `except Exception or not Music163BadCode` evaluates to
    `except Exception`, so every failure is retried. That includes the
    `Music163BadCode` that the code raises itself for a code other than 200
    or 803.
  - `data` is rebound to the parsed reply inside the `try`. A retry therefore
    re-posts the server's reply body, not the original form.
  - After RECONNECTION + 1 attempts, the call raises `CannotConnectApi`.
- `QrPolling` (`qrpoll.dfy`): the `qr` loop, as a state machine over a script
  of `qr_check` outcomes.
- `ApiClient` (`client.dfy`): class `Music163Api`. It covers the single-vs-many
  result of `music`, playlist splicing in batches of 1000, search and
  top-artist paging, the fixed search type codes, and `my`.
- `LoginSession` (`login.dfy`): class `LoginMusic163`.
  - The class holds the session cookie and the one shared MD5 hasher. Each
    `_md5` digest covers everything fed to the hasher so far, so a second
    login on the same object hashes both passwords together
    (`LoginSession.TwoEmailLogins`).
  - It covers `_md5`, `_SimpleCookieToCookieStr`, `_login`, `email`,
    `cellphone`, `qr_key`, `qr_check` and `qr`.

**Where the code and its docstrings differ, the model follows the code:**

- The docstrings of `email` (music163.py:347-350) and `cellphone`
  (music163.py:379-382) list the error codes 501, 502 and 503 as errors the
  caller sees. The code retries a reply with such a code like any other
  failure. Once the budget is spent it raises `CannotConnectApi`.
- The `qr_check` docstring (music163.py:410-413) lists the codes 801, 802 and
  800. `_login` retries these as well, so `qr` never sees them as
  `Music163BadCode`.
- A retry after a parsed reply posts that reply, not the original form
  (`Retry.RetryRepostsReply`).

## Model

| member | source | states |
|---|---|---|
| Cookies.Piece | pycloudmusic/music163.py:308-309 | an item's piece: a prefix of the `lstrip`ped item that contains no "; " and does not start with a stripped character |
| Cookies.CookieHeader | pycloudmusic/music163.py:302-312 | the header has at least two characters per item; it is empty iff there are no items |
| Cookies.LStrip | pycloudmusic/music163.py:308-309 | `lstrip` result: a suffix of the input; every removed character is in the stripped set; the result does not start with one |
| Cookies.LStripUnique | pycloudmusic/music163.py:308-309 | any split into stripped characters plus a remainder that does not start with one is the split `lstrip` makes |
| Cookies.BeforeSeparator | pycloudmusic/music163.py:309 | `split("; ", 1)[0]`: a prefix of the input, with no "; " before its end, and either the whole input or followed by "; " |
| Cookies.CookieHeaderSnoc | pycloudmusic/music163.py:307-310 | each item appends its cut, stripped piece followed by "; " |
| Cookies.SplitCookieHeader | pycloudmusic/music163.py:302-312 | reading the header back by "; " yields exactly the pieces in order (no piece contains "; ") |
| Cookies.PieceOfMorsel | pycloudmusic/music163.py:308-309 | an item "Set-Cookie: name=value[; attrs]" contributes "name=value" when the name does not start with a stripped character |
| Cookies.TokenNameIsCut | pycloudmusic/music163.py:308-309 | an item "Set-Cookie: token=v; attrs" (v without ";") contributes "n=v", not "token=v" (set semantics of `lstrip`) |
| Cookies.CookieHeaderEnds | pycloudmusic/music163.py:306-312 | the header is empty iff the jar is empty; otherwise it ends with "; " |
| Retry.Accepted | pycloudmusic/music163.py:330 | a reply is accepted iff its `code` is 200 or 803; a raised attempt or a reply without `code` is not |
| Retry.NextForm | pycloudmusic/music163.py:329-340 | the next attempt posts the parsed reply if there was one, else the form it had |
| Retry.Retries | pycloudmusic/music163.py:314-340 | the retry recursion: the first request is the form, to the path, with the cookie header; a failed run fails with CannotConnectApi for that path |
| Retry.LoginRun | pycloudmusic/music163.py:314-340 | `_login`'s result: the first request is the form, to the path, with the cookie header; the only error raised is CannotConnectApi for that path |
| Retry.LoginRunAttempts | pycloudmusic/music163.py:314-340 | between 1 and the retry budget attempts, all to the same path with the same cookie header; first attempt posts the form, each later one posts the previous reply when one was parsed; returns iff the last attempt had code 200/803, with its cookie header; otherwise CannotConnectApi after the whole budget |
| Retry.LoginRetryBound | pycloudmusic/music163.py:320-340 | from counter 0: returns iff one of the first RECONNECTION + 1 attempts is accepted, with the first accepted one's cookie header; else CannotConnectApi after exactly RECONNECTION + 1 attempts |
| Retry.RetryRepostsReply | pycloudmusic/music163.py:329-340 | a retry after a parsed reply posts that reply as its form |
| QrPolling.QrLoop | pycloudmusic/music163.py:425-439 | the `qr` state machine: makes at most one poll per scripted outcome; it stops only after a terminal poll, which is the last poll made; it keeps polling only once the script is used up; what it returns is the final `self.cookie` |
| QrPolling.QrStopsAtFirstTerminal | pycloudmusic/music163.py:424-439 | the loop polls up to the first terminal outcome (non-empty cookie, code 800, uncaught exception) and returns what it decides; 800 returns the cookie held before it |
| QrPolling.QrKeepsPolling | pycloudmusic/music163.py:424-439 | with no terminal outcome every poll is made, and `self.cookie` holds "" if any poll returned "", else its initial value |
| QrPolling.QrWaitingKeepsCookie | pycloudmusic/music163.py:431-434 | codes 801/802 poll again with `self.cookie` unchanged |
| QrPolling.QrScanThenToken | pycloudmusic/music163.py:424-434 | 801, 801, 802, then a token: `qr` returns that token on the fourth poll |
| QrPolling.QrExpired | pycloudmusic/music163.py:436-437 | 801 then 800 returns the cookie held, here None |
| QrPolling.QrExpiredAfterEmptyCookie | pycloudmusic/music163.py:426-437 | an empty cookie is stored before polling again, so a later 800 returns "" |
| ApiClient.Music | pycloudmusic/music163.py:32-44 | succeeds iff the reply's `songs` has a length (a string, list or object) and is not a one-key object; None, bool or int fails with TypeMismatch (TypeError from `len`), a one-key object with KeyError at `songs[0]`; a list or string of length 1 gives its one item as a single object, otherwise a generator over its items (a string's characters); an object gives its keys |
| ApiClient.MusicOnStringsAndObjects | pycloudmusic/music163.py:41-44 | "ab" gives a generator over "a" and "b"; "x" gives the single object "x"; {} gives an empty generator; a one-key object raises KeyError |
| ApiClient.ChunkSongs | pycloudmusic/music163.py:72-73 | a batch's songs are the generator's items; a single object is flagged SingleMusicNotListable (exactly then), a generator over object keys is flagged KeyOrderNotKept, and a failing `music` passes its failure on |
| ApiClient.TrackIds | pycloudmusic/music163.py:63 | `trackIds` missing is KeyError; the ids are `get("id")` of each entry, one per entry, and exist iff every entry is an object or there are no entries (an empty string or object included); otherwise TypeMismatch |
| ApiClient.Splice | pycloudmusic/music163.py:69-75 | the batch loop on values: no key of the playlist data is added or removed, only `tracks` changes, and with no batches the data is returned as is |
| ApiClient.PlaylistOutcome | pycloudmusic/music163.py:53-77 | `playlist`'s result: when it succeeds, the detail's `playlist` was fetched and the result has the same keys, all but `tracks` unchanged; a failed detail fetch is the result |
| ApiClient.SpliceAppends | pycloudmusic/music163.py:69-75 | when every fetch yields a list: the fetched songs are appended to `tracks` in order, no key is added or removed, no other key changes |
| ApiClient.SpliceStopsAtFailedBatch | pycloudmusic/music163.py:69-75 | the loop stops at the first batch whose fetch fails, with that failure |
| ApiClient.PlaylistUpTo1000Unchanged | pycloudmusic/music163.py:63-65 | with at most 1000 track ids the playlist data is returned unchanged and nothing is fetched |
| ApiClient.PlaylistSplicesLaterTracks | pycloudmusic/music163.py:58-77 | past 1000 ids the batches hold 1..1000 ids each and concatenate to `trackIds[1000:]`; the fetched songs are appended to `tracks` in order; other keys unchanged |
| ApiClient.PlaylistSingleSongBatchFlagged | pycloudmusic/music163.py:69-72 | a batch whose reply holds exactly one song ends the call with the flagged SingleMusicNotListable failure |
| ApiClient.SpliceBatches | pycloudmusic/music163.py:69-75 | the `for` loop over batches of 1000 ids computes the splice of the fetched songs into `tracks`, and requests exactly the batches of the ids in order (a prefix of them when it stops early) |
| ApiClient.Music163Api.Playlist | pycloudmusic/music163.py:53-77 | fetches the playlist, returns it unchanged up to 1000 ids, and otherwise splices the later batches; the result is the playlist outcome; it requests exactly the batches of `trackIds[1000:]` (a prefix of them when it stops early) |
| ApiClient.TypeCodesDistinct | pycloudmusic/music163.py:133-206 | the search wrappers' fixed type codes are pairwise distinct |
| ApiClient.PagesAreDisjointWindows | pycloudmusic/music163.py:125-131 | with a positive limit, earlier pages ask for windows ending before later ones start, and the page is the offset divided by the limit |
| ApiClient.SearchResult | pycloudmusic/music163.py:133-206 | a `search_*` result succeeds iff the reply's `result` holds the kind's count and list fields and the list field is iterable (a string, list or object); it then returns exactly those fields; a None, bool or int list field fails with TypeMismatch, the TypeError raised when the generator is built |
| ApiClient.TopArtists | pycloudmusic/music163.py:253-268 | succeeds iff the reply's `list` holds `artists` and it is iterable (a string, list or object); it then returns it; a None, bool or int `artists` fails with TypeMismatch, the TypeError raised when the generator is built |
| ApiClient.My | pycloudmusic/music163.py:24-30 | Music163BadData iff `profile` is None; otherwise the account reply |
| ApiClient.Music163Api.PlaylistRequest | pycloudmusic/music163.py:58-61 | posts to the playlist-detail path with the session cookie and form keys exactly id/n, with the id and n 100000 |
| ApiClient.Music163Api.SearchRequest | pycloudmusic/music163.py:113-131 | posts to the search path with the session cookie, form keys exactly s/type/limit/offset/total, the kind's type code, offset limit * page and total True |
| ApiClient.Music163Api.TopArtistListRequest | pycloudmusic/music163.py:262-268 | posts to the top-artist path with form keys type/limit/offset/total, the given limit, offset page * limit and total "true" |
| LoginSession.EmailForm | pycloudmusic/music163.py:351-355 | the email form has exactly the keys username/password/rememberLogin, with the email, the digest and "true" |
| LoginSession.CellphoneForm | pycloudmusic/music163.py:386-391 | the cellphone form has exactly phone/countrycode/rememberLogin and one of captcha/password, as the flag says, holding the secret; rememberLogin is "true" |
| LoginSession.LoginMusic163.constructor | pycloudmusic/music163.py:286-293 | the cookie is as given and the hasher has been fed nothing |
| LoginSession.LoginMusic163.SentCookie | pycloudmusic/music163.py:323-324 | the cookie header is attached iff the cookie is set and non-empty |
| LoginSession.LoginMusic163.Md5 | pycloudmusic/music163.py:295-300 | the input is appended to what the shared hasher was fed; the digest is of everything fed so far |
| LoginSession.LoginMusic163.SimpleCookieToCookieStr | pycloudmusic/music163.py:302-312 | the loop builds exactly the cookie header of the items |
| LoginSession.LoginMusic163.Login | pycloudmusic/music163.py:314-340 | result and posted requests are those of the retry run from the given counter |
| LoginSession.LoginMusic163.Email | pycloudmusic/music163.py:342-357 | the password is hashed with the shared hasher; login runs from counter 0; on success the cookie is set and a client on it is returned, on failure the cookie is unchanged |
| LoginSession.LoginMusic163.Cellphone | pycloudmusic/music163.py:372-393 | unless captcha, `str(password)` is hashed with the shared hasher and sent as password; a captcha is sent raw; cookie set on success, unchanged on failure |
| LoginSession.LoginMusic163.QrKey | pycloudmusic/music163.py:395-402 | succeeds iff the reply has `unikey`; returns it with a URL whose code key parses back to it |
| LoginSession.LoginMusic163.QrCheck | pycloudmusic/music163.py:404-415 | one retrying login post of {key, type 1} to the QR check path |
| LoginSession.LoginMusic163.Qr | pycloudmusic/music163.py:417-439 | the loop's outcome, final cookie and poll count are those of the QR state machine; a client on the cookie is returned exactly when `qr` returns: after a non-empty cookie, or on an expired ticket (800) |
| LoginSession.TwoEmailLogins | pycloudmusic/music163.py:293-300 | a second email login on the same object sends the digest of both passwords concatenated |

## Left out

- Network I/O. `_post`, `_get_session`, `_get_basic_headers`, `session.post`, `req.json` and `req.cookies` belong to pycloudmusic/ahttp.py, which is not part of this model.
  - Each call's outcome is a scripted `Reply` or `Attempt`.
  - A script that has run out counts as a failing call: an exception for a login attempt, `NoAnswer` for `_post`.
- `asyncio.sleep` and async suspension: each sleep is a plain poll step.
- LoginSession.LoginMusic163.Qr: the source loops forever. The model stops when the script of polls ends, with the outcome StillPolling.
- LoginSession.LoginMusic163.Qr: reachability of the `except Music163BadCode` branch is not modelled.
  - `_login` catches every exception, so `qr_check` can only return or raise `CannotConnectApi`.
  - Whether the branch can run depends on the exception hierarchy in pycloudmusic/error.py, which is not part of this model.
  - Poll outcomes are therefore abstract: returned cookie, bad code, or other exception.
- The MD5 algorithm: `hexDigest` is an uninterpreted function of the text fed so far. UTF-8 encoding is folded into it.
- `SimpleCookie`/`Morsel` rendering: the inputs are the rendered `str(item)` strings, in dictionary order.
- RECONNECTION and `_id_format` are defined in the package `__init__`, which is not part of this model.
  - RECONNECTION is a natural-number constructor argument.
  - The id formatting of `music` requests is not modelled: the song-detail reply is given directly.
- `set_real_ip`: it mutates a global header setting in code that is not part of this model.
- Domain object constructors (`Music`, `PlayList`, `My`, `Artist`, ...) wrap JSON one to one. The model returns the JSON they wrap. Their classes are not part of this model, so whatever they do with a value that is not an object (a string song, say) is not modelled.
- Default arguments are not modelled; every argument is explicit. These are `country_code="86"` and `captcha=False` of `cellphone`, `page=0` and `limit=30` (or 100) of the search and list calls, `type_=1`, and `time_sleep=3` of `qr`, whose sleeps are not modelled either.
- One-line endpoint wrappers are left out: `user`, `artist`, `album`, `mv`, `dj`, `personalized_*`, `home_page`, `top_song`, `send_captcha`, `login_status`, `login_refresh` and `logout`. They only post to a fixed path and wrap the reply. `my` is modelled because it raises on a null profile.
- ApiClient.PlaylistSingleSongBatchFlagged: in the source, `list(...)` of a single `Music` object depends on that class, which is not part of this model. The model flags the case as the failure SingleMusicNotListable instead of guessing its result.
- ApiClient.Music163Api.Playlist: a non-object entry of `trackIds` and a missing or non-list `tracks` end the call with KeyError or TypeMismatch. Which Python exception is raised is not distinguished.
- ApiClient.ChunkSongs: a batch reply whose `songs` is an object with two or more keys makes the source append those keys, in the reply's order, to `tracks`. A `Dict` keeps no key order, so the model ends the call with the flagged failure KeyOrderNotKept instead. ApiClient.PlaylistOutcome and ApiClient.Music163Api.Playlist inherit this; `music` itself returns the set of keys (ApiClient.Music).
- ApiClient.SearchResult: an iterable list field is returned as found. The domain objects built from each element are not modelled, so an element that cannot be wrapped is not an error here.
- Retry.Attempt: a reply whose body parses to JSON that is not an object (null, a list, a string) is not representable. In the source `data` is rebound to it, `data["code"]` raises TypeError, and the next attempt posts it.
- Wire.PyStr: `str()` of a list or dict is a placeholder ("[...]" or "{...}") rather than Python's rendering. That rendering quotes and escapes strings, and orders dict keys as parsed, which a `Dict` does not keep.
- LoginSession.LoginMusic163.QrKey: the server's `unikey` can be any JSON value. For a list or object the URL holds that placeholder where Python writes its rendering (for `[1]`, "...codekey=[1]"). `cellphone`'s `str(password)` only ever sees a string or int.
- Floating-point JSON numbers are not modelled.
- demo/login/captcha.py is an interactive script, not library logic. It is not part of this model.
