/** The retrying login post `_login(url, data, reconnection_count)`.

    Each attempt posts `data` to `url`. The outcome of an attempt is scripted:
    either something raised before the reply was parsed (session creation,
    the post, JSON decoding), or the reply was parsed into a JSON object. The
    code then rebinds `data` to that parsed object and accepts only codes 200
    and 803; any other code raises Music163BadCode inside the `try`.

    The guard `except Exception or not Music163BadCode` evaluates to
    `except Exception`, so EVERY failure is retried, the code's own
    Music163BadCode included. A retry after a parsed reply therefore posts
    the reply itself, not the original form. Once the counter exceeds the
    reconnection limit the call fails with CannotConnectApi. */
module Retry {
  import opened Wire
  import Cookies

  datatype Attempt =
    | Raised                                     // raised before `data` was rebound
    | Replied(body: Dict, cookies: seq<string>)  // parsed reply and the rendered Set-Cookie items

  /** Attempt `i` of a script; a script that has run out answers with an exception. */
  function At(script: seq<Attempt>, i: nat): Attempt
  {
    if i < |script| then script[i] else Raised
  }

  function Drop(script: seq<Attempt>): seq<Attempt>
  {
    if script == [] then [] else script[1..]
  }

  lemma AtDrop(script: seq<Attempt>, i: nat)
    ensures At(Drop(script), i) == At(script, i + 1)
  {
  }

  /** `data["code"] in [200, 803]` on a parsed reply. An attempt that raised,
      or a reply without a code (KeyError, caught like any exception), is not
      accepted. */
  predicate Accepted(a: Attempt)
    ensures a.Raised? ==> !Accepted(a)
    ensures a.Replied? && "code" !in a.body ==> !Accepted(a)
    ensures a.Replied? && "code" in a.body ==>
      (Accepted(a) <==> a.body["code"] == JInt(200) || a.body["code"] == JInt(803))
  {
    a.Replied? && "code" in a.body && (a.body["code"] == JInt(200) || a.body["code"] == JInt(803))
  }

  /** The rendered cookies of an attempt's reply; an attempt that raised has none. */
  function CookiesOf(a: Attempt): seq<string>
  {
    if a.Replied? then a.cookies else []
  }

  /** The form the next attempt posts: `data` was rebound to the reply if one was parsed. */
  function NextForm(a: Attempt, data: Dict): (f: Dict)
    ensures a.Replied? ==> f == a.body
    ensures a.Raised? ==> f == data
  {
    if a.Replied? then a.body else data
  }

  /** How many attempts a call that starts with counter `count` may make. */
  function Budget(ceiling: nat, count: nat): nat
  {
    if count <= ceiling then ceiling - count + 1 else 1
  }

  /** The attempts of one call: the cookies of the accepted reply or the
      failure raised, and the requests posted. */
  datatype Tries = Tries(accepted: Result<seq<string>, Failure>, sent: seq<Request>)

  /** The recursion of `_login(url, data, count)` with the limit `ceiling`,
      against `script`; `header` is the cookie header the session attaches to
      every attempt. */
  function Retries(ceiling: nat, url: string, header: Option<string>, data: Dict,
                   count: nat, script: seq<Attempt>): (r: Tries)
    ensures 1 <= |r.sent| && r.sent[0] == Request(url, data, header)
    ensures r.accepted.Err? ==> r.accepted.error == CannotConnectApi(url)
    decreases if count <= ceiling then ceiling - count else 0
  {
    var request := Request(url, data, header);
    var a := At(script, 0);
    if Accepted(a) then
      Tries(Ok(a.cookies), [request])
    else if count + 1 > ceiling then
      Tries(Err(CannotConnectApi(url)), [request])
    else
      var rest := Retries(ceiling, url, header, NextForm(a, data), count + 1, Drop(script));
      Tries(rest.accepted, [request] + rest.sent)
  }

  /** What a call returns or raises, and the requests it posted. */
  datatype Run = Run(result: Result<string, Failure>, sent: seq<Request>)

  /** `_login(url, data, count)`: the accepted reply's cookies become the
      Cookie header `_SimpleCookieToCookieStr` builds. */
  function LoginRun(ceiling: nat, url: string, header: Option<string>, data: Dict,
                    count: nat, script: seq<Attempt>): (r: Run)
    ensures 1 <= |r.sent| && r.sent[0] == Request(url, data, header)
    ensures r.result.Err? ==> r.result == Err(CannotConnectApi(url))
  {
    var t := Retries(ceiling, url, header, data, count, script);
    match t.accepted
    case Ok(cookies) => Run(Ok(Cookies.CookieHeader(cookies)), t.sent)
    case Err(e) => Run(Err(e), t.sent)
  }

  /** How many attempts a call makes and where it posts them; a call that
      fails has used its whole budget. */
  lemma {:induction false} RetriesRequests(ceiling: nat, url: string, header: Option<string>,
                                           data: Dict, count: nat, script: seq<Attempt>)
    ensures var t := Retries(ceiling, url, header, data, count, script);
      && 1 <= |t.sent| <= Budget(ceiling, count)
      && (forall i :: 0 <= i < |t.sent| ==> t.sent[i].path == url && t.sent[i].cookie == header)
      && t.sent[0].form == data
      && (t.accepted.Err? ==> |t.sent| == Budget(ceiling, count) && t.accepted.error == CannotConnectApi(url))
    decreases if count <= ceiling then ceiling - count else 0
  {
    var a := At(script, 0);
    if !Accepted(a) && count + 1 <= ceiling {
      var next := NextForm(a, data);
      var rest := Retries(ceiling, url, header, next, count + 1, Drop(script));
      RetriesRequests(ceiling, url, header, next, count + 1, Drop(script));
      var t := Retries(ceiling, url, header, data, count, script);
      assert t == Tries(rest.accepted, [Request(url, data, header)] + rest.sent);
      forall i | 0 < i < |t.sent|
        ensures t.sent[i].path == url && t.sent[i].cookie == header
      {
        assert t.sent[i] == rest.sent[i - 1];
      }
    }
  }

  /** A call returns exactly when its last attempt was accepted, and then
      with that attempt's cookies. */
  lemma {:induction false} RetriesEnd(ceiling: nat, url: string, header: Option<string>,
                                      data: Dict, count: nat, script: seq<Attempt>)
    ensures var t := Retries(ceiling, url, header, data, count, script);
      && |t.sent| >= 1
      && (t.accepted.Ok? <==> Accepted(At(script, |t.sent| - 1)))
      && (t.accepted.Ok? ==> t.accepted.value == CookiesOf(At(script, |t.sent| - 1)))
    decreases if count <= ceiling then ceiling - count else 0
  {
    var a := At(script, 0);
    if !Accepted(a) && count + 1 <= ceiling {
      var next := NextForm(a, data);
      var rest := Retries(ceiling, url, header, next, count + 1, Drop(script));
      RetriesEnd(ceiling, url, header, next, count + 1, Drop(script));
      var t := Retries(ceiling, url, header, data, count, script);
      assert t == Tries(rest.accepted, [Request(url, data, header)] + rest.sent);
      AtDrop(script, |rest.sent| - 1);
      assert At(script, |t.sent| - 1) == At(Drop(script), |rest.sent| - 1);
    } else {
      assert |Retries(ceiling, url, header, data, count, script).sent| == 1;
    }
  }

  /** What each attempt after the first posts, and that no attempt before the
      last was accepted. */
  lemma {:induction false} RetriesForms(ceiling: nat, url: string, header: Option<string>,
                                        data: Dict, count: nat, script: seq<Attempt>)
    ensures var t := Retries(ceiling, url, header, data, count, script);
      && (forall i :: 0 < i < |t.sent| ==> t.sent[i].form == NextForm(At(script, i - 1), t.sent[i - 1].form))
      && (forall i :: 0 <= i < |t.sent| - 1 ==> !Accepted(At(script, i)))
    decreases if count <= ceiling then ceiling - count else 0
  {
    var a := At(script, 0);
    if !Accepted(a) && count + 1 <= ceiling {
      var next := NextForm(a, data);
      var rest := Retries(ceiling, url, header, next, count + 1, Drop(script));
      RetriesForms(ceiling, url, header, next, count + 1, Drop(script));
      RetriesRequests(ceiling, url, header, next, count + 1, Drop(script));
      var t := Retries(ceiling, url, header, data, count, script);
      assert t == Tries(rest.accepted, [Request(url, data, header)] + rest.sent);
      assert t.sent[1] == rest.sent[0];
      forall i | 1 < i < |t.sent|
        ensures t.sent[i].form == NextForm(At(script, i - 1), t.sent[i - 1].form)
      {
        AtDrop(script, i - 2);
        assert t.sent[i] == rest.sent[i - 1] && t.sent[i - 1] == rest.sent[i - 2];
      }
      forall i | 1 <= i < |t.sent| - 1
        ensures !Accepted(At(script, i))
      {
        AtDrop(script, i - 1);
      }
    }
  }

  /** The shape of every call: how many attempts it makes, what each posts,
      and that it returns exactly when the last attempt was accepted. */
  lemma LoginRunAttempts(ceiling: nat, url: string, header: Option<string>,
                         data: Dict, count: nat, script: seq<Attempt>)
    ensures var r := LoginRun(ceiling, url, header, data, count, script);
      && 1 <= |r.sent| <= Budget(ceiling, count)
      && (forall i :: 0 <= i < |r.sent| ==> r.sent[i].path == url && r.sent[i].cookie == header)
      && r.sent[0].form == data
      && (forall i :: 0 < i < |r.sent| ==> r.sent[i].form == NextForm(At(script, i - 1), r.sent[i - 1].form))
      && (forall i :: 0 <= i < |r.sent| - 1 ==> !Accepted(At(script, i)))
      && (r.result.Ok? <==> Accepted(At(script, |r.sent| - 1)))
      && (r.result.Ok? ==> r.result.value == Cookies.CookieHeader(CookiesOf(At(script, |r.sent| - 1))))
      && (r.result.Err? ==> |r.sent| == Budget(ceiling, count) && r.result.error == CannotConnectApi(url))
  {
    RetriesRequests(ceiling, url, header, data, count, script);
    RetriesEnd(ceiling, url, header, data, count, script);
    RetriesForms(ceiling, url, header, data, count, script);
  }

  /** From the default counter 0: the call returns exactly when one of the
      first `ceiling + 1` attempts is accepted, and then returns the cookie
      header of the first accepted one; otherwise it raises CannotConnectApi
      after exactly `ceiling + 1` attempts. */
  lemma LoginRetryBound(ceiling: nat, url: string, header: Option<string>, data: Dict,
                        script: seq<Attempt>)
    ensures var r := LoginRun(ceiling, url, header, data, 0, script);
      && (r.result.Ok? <==> exists i :: 0 <= i <= ceiling && Accepted(At(script, i)))
      && (r.result.Ok? ==> exists i :: 0 <= i <= ceiling && Accepted(At(script, i))
                             && (forall j :: 0 <= j < i ==> !Accepted(At(script, j)))
                             && r.result.value == Cookies.CookieHeader(CookiesOf(At(script, i))))
      && (r.result.Err? ==> |r.sent| == ceiling + 1 && r.result == Err(CannotConnectApi(url)))
  {
    var r := LoginRun(ceiling, url, header, data, 0, script);
    LoginRunAttempts(ceiling, url, header, data, 0, script);
    if r.result.Ok? {
      var i := |r.sent| - 1;
      assert 0 <= i <= ceiling && Accepted(At(script, i));
    } else {
      assert |r.sent| == ceiling + 1;
      assert !Accepted(At(script, ceiling));
    }
  }

  /** Every retry after a parsed reply re-posts that reply as the form. */
  lemma RetryRepostsReply(ceiling: nat, url: string, header: Option<string>, data: Dict,
                          script: seq<Attempt>, i: nat)
    requires i + 1 < |LoginRun(ceiling, url, header, data, 0, script).sent|
    requires At(script, i).Replied?
    ensures LoginRun(ceiling, url, header, data, 0, script).sent[i + 1].form == At(script, i).body
  {
    var sent := LoginRun(ceiling, url, header, data, 0, script).sent;
    RetriesForms(ceiling, url, header, data, 0, script);
    assert sent == Retries(ceiling, url, header, data, 0, script).sent;
    assert sent[i + 1].form == NextForm(At(script, i), sent[i].form);
  }
}
