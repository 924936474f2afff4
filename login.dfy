/** The login session `LoginMusic163`: its cookie, its shared MD5 hasher, the
    retrying login post, the email and cellphone logins, the QR-code key and
    the QR polling loop.

    MD5 itself is not modelled: `hexDigest` stands for "the hex digest of
    everything fed to the hasher so far" and is supplied by the constructor.
    Likewise the reconnection limit RECONNECTION is a constructor argument. */
module LoginSession {
  import opened Wire
  import Seqs
  import Cookies
  import opened Retry
  import opened QrPolling
  import ApiClient

  const EmailLoginPath := "/api/login"
  const CellphoneLoginPath := "/api/login/cellphone"
  const QrCheckPath := "/api/login/qrcode/client/login"
  const QrKeyPath := "/api/login/qrcode/unikey"
  const QrUrlPrefix := "https://music.163.com/login?codekey="

  /** The form `email` posts: the address, the password digest, and
      `rememberLogin = 'true'`. */
  function EmailForm(email: string, digest: string): (f: Dict)
    ensures f.Keys == {"username", "password", "rememberLogin"}
    ensures f["username"] == JStr(email) && f["password"] == JStr(digest)
    ensures f["rememberLogin"] == JStr("true")
  {
    map["username" := JStr(email), "password" := JStr(digest), "rememberLogin" := JStr("true")]
  }

  /** The form `cellphone` posts: the secret goes under "captcha" when the
      flag is set and under "password" otherwise, never under both. */
  function CellphoneForm(phone: Json, secret: Json, captcha: bool, countryCode: Json): (f: Dict)
    ensures f.Keys == {"phone", "countrycode", "rememberLogin", if captcha then "captcha" else "password"}
    ensures ("captcha" in f <==> captcha) && ("password" in f <==> !captcha)
    ensures f[if captcha then "captcha" else "password"] == secret
    ensures f["phone"] == phone && f["countrycode"] == countryCode && f["rememberLogin"] == JStr("true")
  {
    map["phone" := phone, "countrycode" := countryCode,
        (if captcha then "captcha" else "password") := secret,
        "rememberLogin" := JStr("true")]
  }

  /** The form `qr_check` posts. */
  function QrCheckForm(key: string): Dict
  {
    map["key" := JStr(key), "type" := JInt(1)]
  }

  /** The key a QR login URL carries: the inverse of the URL composition in `qr_key`. */
  function CodeKeyOf(url: string): Option<string>
  {
    if QrUrlPrefix <= url then Some(url[|QrUrlPrefix|..]) else None
  }

  class LoginMusic163 {
    /** The session cookie; None before any login. */
    var cookie: Option<string>
    /** Everything fed to the shared MD5 hasher so far, in order. */
    var fed: string
    /** The strings fed to the hasher, one per `_md5` call. */
    ghost var inputs: seq<string>
    /** Hex digest of an MD5 hasher that has been fed the given text. */
    const hexDigest: string -> string
    /** RECONNECTION: how many retries a login post may make. */
    const reconnection: nat

    ghost predicate Valid()
      reads this
    {
      fed == Seqs.Flatten(inputs)
    }

    constructor (cookie: Option<string>, hexDigest: string -> string, reconnection: nat)
      ensures Valid() && inputs == []
      ensures this.cookie == cookie && this.hexDigest == hexDigest && this.reconnection == reconnection
    {
      this.cookie := cookie;
      this.fed := "";
      this.inputs := [];
      this.hexDigest := hexDigest;
      this.reconnection := reconnection;
    }

    /** The cookie header a login post attaches: only a non-empty cookie is sent. */
    function SentCookie(): (c: Option<string>)
      reads this
      ensures c.Some? <==> (cookie.Some? && cookie.value != "")
      ensures c.Some? ==> c == cookie
    {
      if cookie.Some? && cookie.value != "" then cookie else None
    }

    /** `_md5`: feeds `s` to the one hasher of this object and returns the
        digest of everything fed to it so far. */
    method Md5(s: string) returns (digest: string)
      requires Valid()
      modifies this`fed, this`inputs
      ensures Valid() && inputs == old(inputs) + [s]
      ensures digest == hexDigest(Seqs.Flatten(old(inputs)) + s)
    {
      Seqs.FlattenAppend(inputs, [s]);
      assert Seqs.Flatten([s]) == s + Seqs.Flatten([]);
      fed := fed + s;
      inputs := inputs + [s];
      digest := hexDigest(fed);
    }

    /** `_SimpleCookieToCookieStr` over the rendered `Set-Cookie` items. */
    method SimpleCookieToCookieStr(items: seq<string>) returns (cookieStr: string)
      ensures cookieStr == Cookies.CookieHeader(items)
    {
      cookieStr := "";
      for i := 0 to |items|
        invariant cookieStr == Cookies.CookieHeader(items[..i])
      {
        var data := Cookies.Piece(items[i]);
        Cookies.CookieHeaderPrefix(items, i);
        cookieStr := cookieStr + data + "; ";
      }
      assert items[..|items|] == items;
    }

    /** `_login(url, data, reconnection_count)` against a script of attempt
        outcomes; returns what it returns or raises and the requests it posted. */
    method Login(url: string, data: Dict, reconnectionCount: nat, script: seq<Attempt>)
      returns (result: Result<string, Failure>, sent: seq<Request>)
      ensures var run := LoginRun(reconnection, url, SentCookie(), data, reconnectionCount, script);
        result == run.result && sent == run.sent
      decreases if reconnectionCount <= reconnection then reconnection - reconnectionCount else 0
    {
      var request := Request(url, data, SentCookie());
      var attempt := At(script, 0);
      var form := data;
      if attempt.Replied? {
        form := attempt.body;
        if Accepted(attempt) {
          var header := SimpleCookieToCookieStr(attempt.cookies);
          result, sent := Ok(header), [request];
          return;
        }
      }
      var count := reconnectionCount + 1;
      if count > reconnection {
        result, sent := Err(CannotConnectApi(url)), [request];
        return;
      }
      var later;
      result, later := Login(url, form, count, Drop(script));
      sent := [request] + later;
    }

    /** `email`: hashes the password with the shared hasher, then logs in. */
    method Email(email: string, password: string, script: seq<Attempt>)
      returns (result: Result<string, Failure>, api: ApiClient.Music163Api?, sent: seq<Request>)
      requires Valid()
      modifies this`cookie, this`fed, this`inputs
      ensures Valid() && inputs == old(inputs) + [password]
      ensures var form := EmailForm(email, hexDigest(Seqs.Flatten(old(inputs)) + password));
        var run := LoginRun(reconnection, EmailLoginPath, old(SentCookie()), form, 0, script);
        result == run.result && sent == run.sent
      ensures result.Ok? ==> cookie == Some(result.value) && api != null && fresh(api) && api.cookie == cookie
      ensures result.Err? ==> cookie == old(cookie) && api == null
    {
      var digest := Md5(password);
      result, sent := Login(EmailLoginPath, EmailForm(email, digest), 0, script);
      if result.Ok? {
        cookie := Some(result.value);
        api := new ApiClient.Music163Api(cookie);
      } else {
        api := null;
      }
    }

    /** `cellphone`: unless `captcha`, the password is hashed as `str(password)`
        with the shared hasher; a captcha is sent as given. */
    method Cellphone(phone: Json, password: Json, captcha: bool, countryCode: Json, script: seq<Attempt>)
      returns (result: Result<string, Failure>, api: ApiClient.Music163Api?, sent: seq<Request>)
      requires Valid()
      modifies this`cookie, this`fed, this`inputs
      ensures Valid()
      ensures inputs == old(inputs) + (if captcha then [] else [PyStr(password)])
      ensures var secret := if captcha then password
                            else JStr(hexDigest(Seqs.Flatten(old(inputs)) + PyStr(password)));
        var run := LoginRun(reconnection, CellphoneLoginPath, old(SentCookie()),
                            CellphoneForm(phone, secret, captcha, countryCode), 0, script);
        result == run.result && sent == run.sent
      ensures result.Ok? ==> cookie == Some(result.value) && api != null && fresh(api) && api.cookie == cookie
      ensures result.Err? ==> cookie == old(cookie) && api == null
    {
      var secret := password;
      if !captcha {
        var digest := Md5(PyStr(password));
        secret := JStr(digest);
      }
      result, sent := Login(CellphoneLoginPath, CellphoneForm(phone, secret, captcha, countryCode), 0, script);
      if result.Ok? {
        cookie := Some(result.value);
        api := new ApiClient.Music163Api(cookie);
      } else {
        api := null;
      }
    }

    /** `qr_key`: the key from the reply and the login URL built from it. */
    function QrKey(reply: Reply): (r: Result<(Json, string), Failure>)
      ensures r.Ok? <==> ReplyField(reply, QrKeyPath, "unikey").Ok?
      ensures r.Ok? ==> r.value.0 == ReplyField(reply, QrKeyPath, "unikey").value
      ensures r.Ok? ==> CodeKeyOf(r.value.1) == Some(PyStr(r.value.0))
    {
      match ReplyField(reply, QrKeyPath, "unikey")
      case Err(e) => Err(e)
      case Ok(key) =>
        var url := QrUrlPrefix + PyStr(key);
        assert url[|QrUrlPrefix|..] == PyStr(key);
        Ok((key, url))
    }

    /** `qr_check`: one login post with the QR key. */
    method QrCheck(key: string, script: seq<Attempt>) returns (result: Result<string, Failure>, sent: seq<Request>)
      ensures var run := LoginRun(reconnection, QrCheckPath, SentCookie(), QrCheckForm(key), 0, script);
        result == run.result && sent == run.sent
    {
      result, sent := Login(QrCheckPath, QrCheckForm(key), 0, script);
    }

    /** `qr`: polls until a non-empty cookie, an expired ticket (800) or an
        uncaught exception ends the loop, or until the script of poll outcomes
        runs out; returns the outcome, a client when it returns, and the number
        of polls made. */
    method Qr(polls: seq<Poll>) returns (outcome: QrOutcome, api: ApiClient.Music163Api?, used: nat)
      modifies this`cookie
      ensures var run := QrLoop(old(cookie), polls);
        outcome == run.outcome && cookie == run.cookie && used == run.polls
      ensures outcome.Returns? ==> outcome.cookie == cookie && api != null && fresh(api) && api.cookie == cookie
      ensures !outcome.Returns? ==> api == null
    {
      var i := 0;
      while i < |polls|
        invariant 0 <= i <= |polls|
        invariant QrLoop(old(cookie), polls) == QrLoop(cookie, polls[i..]).(polls := QrLoop(cookie, polls[i..]).polls + i)
      {
        assert polls[i..][1..] == polls[i + 1..];
        var p := polls[i];
        if p.Raised? {
          outcome, api, used := Propagated, null, i + 1;
          return;
        }
        if p.Returned? {
          cookie := Some(p.cookie);
          if p.cookie != "" {
            outcome, used := Returns(cookie), i + 1;
            api := new ApiClient.Music163Api(cookie);
            return;
          }
        } else if p.code == 800 {
          outcome, used := Returns(cookie), i + 1;
          api := new ApiClient.Music163Api(cookie);
          return;
        }
        i := i + 1;
      }
      outcome, api, used := StillPolling, null, i;
    }
  }

  /** A second login on the same object hashes the first password and the
      second one together: the shared hasher accumulates its input. */
  method TwoEmailLogins(hexDigest: string -> string, first: string, second: string,
                        script1: seq<Attempt>, script2: seq<Attempt>)
    returns (sent1: seq<Request>, sent2: seq<Request>)
    ensures |sent1| > 0 && "password" in sent1[0].form && sent1[0].form["password"] == JStr(hexDigest(first))
    ensures |sent2| > 0 && "password" in sent2[0].form && sent2[0].form["password"] == JStr(hexDigest(first + second))
  {
    var session := new LoginMusic163(None, hexDigest, 0);
    var r1, a1, r2, a2;
    assert Seqs.Flatten([]) + first == first;
    r1, a1, sent1 := session.Email("user@example.com", first, script1);
    LoginRunAttempts(0, EmailLoginPath, None, EmailForm("user@example.com", hexDigest(first)), 0, script1);
    assert Seqs.Flatten([first]) == first + Seqs.Flatten([]);
    ghost var header := session.SentCookie();
    r2, a2, sent2 := session.Email("user@example.com", second, script2);
    assert Seqs.Flatten([first]) == first;
    LoginRunAttempts(0, EmailLoginPath, header, EmailForm("user@example.com", hexDigest(first + second)), 0, script2);
  }
}
