/** The QR-code login loop `qr`, over a script of `qr_check` outcomes.

    Each poll either returns a cookie string, raises Music163BadCode with a
    status code (801 waiting for a scan, 802 authorising, 800 expired), or
    raises something else, which the loop does not catch. A poll that
    returns assigns `self.cookie` first and ends the loop only when the
    cookie is non-empty; 800 ends it with whatever `self.cookie` holds; every
    other outcome polls again. The source loops forever; here the loop ends
    when the script does, with the outcome StillPolling. */
module QrPolling {
  import opened Wire

  datatype Poll = Returned(cookie: string) | BadCode(code: int) | Raised

  datatype QrOutcome =
    | Returns(cookie: Option<string>)  // `qr` returns this cookie and a client built on it:
                                       // after a non-empty cookie, or on an expired ticket (800)
    | Propagated                        // the poll's exception escapes `qr`
    | StillPolling                      // the script ended while the loop was still polling

  /** The outcome, the final `self.cookie`, and the number of polls made. */
  datatype QrRun = QrRun(outcome: QrOutcome, cookie: Option<string>, polls: nat)

  function Again(r: QrRun): QrRun
  {
    r.(polls := r.polls + 1)
  }

  /** `qr` starting with `self.cookie == cookie`: it polls until a terminal
      poll, or, here, until the script ends; what it returns is the cookie it
      holds at that point. */
  function QrLoop(cookie: Option<string>, polls: seq<Poll>): (r: QrRun)
    ensures r.polls <= |polls|
    ensures r.outcome.StillPolling? ==> r.polls == |polls|
    ensures !r.outcome.StillPolling? ==> 1 <= r.polls && Terminal(polls[r.polls - 1])
    ensures r.outcome.Returns? ==> r.outcome.cookie == r.cookie
    decreases |polls|
  {
    if polls == [] then QrRun(StillPolling, cookie, 0)
    else match polls[0]
      case Returned(c) =>
        if c != "" then QrRun(Returns(Some(c)), Some(c), 1)
        else Again(QrLoop(Some(c), polls[1..]))
      case BadCode(code) =>
        if code == 801 || code == 802 then Again(QrLoop(cookie, polls[1..]))
        else if code == 800 then QrRun(Returns(cookie), cookie, 1)
        else Again(QrLoop(cookie, polls[1..]))
      case Raised => QrRun(Propagated, cookie, 1)
  }

  /** A poll that ends the loop. */
  predicate Terminal(p: Poll)
  {
    (p.Returned? && p.cookie != "") || p == BadCode(800) || p.Raised?
  }

  /** `self.cookie` after polls that did not end the loop: the only ones that
      touch it returned the empty string. */
  ghost function CookieAfter(init: Option<string>, polls: seq<Poll>): Option<string>
  {
    if exists j :: 0 <= j < |polls| && polls[j] == Returned("") then Some("") else init
  }

  /** What a terminal poll makes `qr` return, given the cookie held before it. */
  function Finish(p: Poll, cookie: Option<string>): QrOutcome
  {
    match p
    case Returned(c) => Returns(Some(c))
    case BadCode(_) => Returns(cookie)
    case Raised => Propagated
  }

  lemma CookieAfterCons(init: Option<string>, p: Poll, rest: seq<Poll>)
    requires !Terminal(p)
    ensures CookieAfter(init, [p] + rest) == CookieAfter(if p.Returned? then Some("") else init, rest)
  {
    var ps := [p] + rest;
    if p.Returned? {
      assert ps[0] == Returned("");
    }
    if exists j :: 0 <= j < |rest| && rest[j] == Returned("") {
      var j :| 0 <= j < |rest| && rest[j] == Returned("");
      assert ps[j + 1] == Returned("");
    }
    if exists j :: 0 <= j < |ps| && ps[j] == Returned("") {
      var j :| 0 <= j < |ps| && ps[j] == Returned("");
      if j > 0 {
        assert rest[j - 1] == Returned("");
      }
    }
  }

  /** A poll that does not end the loop is followed by the loop over the rest,
      with `self.cookie` set to "" when the poll returned it. */
  lemma QrStep(init: Option<string>, polls: seq<Poll>)
    requires polls != [] && !Terminal(polls[0])
    ensures QrLoop(init, polls)
         == Again(QrLoop(if polls[0].Returned? then Some("") else init, polls[1..]))
  {
  }

  /** A terminal first poll ends the loop at once with what it decides. */
  lemma QrFirstTerminal(init: Option<string>, polls: seq<Poll>)
    requires polls != [] && Terminal(polls[0])
    ensures QrLoop(init, polls)
         == QrRun(Finish(polls[0], init), if polls[0].Returned? then Some(polls[0].cookie) else init, 1)
  {
  }

  /** The loop runs up to the first terminal poll and no further; it returns
      what that poll decides, with the cookie held before it for code 800. */
  lemma {:induction false} QrStopsAtFirstTerminal(init: Option<string>, polls: seq<Poll>, i: nat)
    requires i < |polls| && Terminal(polls[i])
    requires forall j :: 0 <= j < i ==> !Terminal(polls[j])
    ensures var r := QrLoop(init, polls);
      var before := CookieAfter(init, polls[..i]);
      && r.polls == i + 1
      && r.outcome == Finish(polls[i], before)
      && r.cookie == (if polls[i].Returned? then Some(polls[i].cookie) else before)
    decreases i
  {
    if i == 0 {
      assert polls[..0] == [];
      QrFirstTerminal(init, polls);
    } else {
      var p := polls[0];
      var init' := if p.Returned? then Some("") else init;
      assert !Terminal(p);
      QrStep(init, polls);
      QrStopsAtFirstTerminal(init', polls[1..], i - 1);
      var prefix := polls[1..][..i - 1];
      assert polls[..i] == [p] + prefix;
      CookieAfterCons(init, p, prefix);
      assert CookieAfter(init, polls[..i]) == CookieAfter(init', prefix);
      assert polls[1..][i - 1] == polls[i];
    }
  }

  /** Without a terminal poll the loop consumes the whole script and is still polling. */
  lemma {:induction false} QrKeepsPolling(init: Option<string>, polls: seq<Poll>)
    requires forall j :: 0 <= j < |polls| ==> !Terminal(polls[j])
    ensures QrLoop(init, polls) == QrRun(StillPolling, CookieAfter(init, polls), |polls|)
    decreases |polls|
  {
    if polls != [] {
      var p := polls[0];
      var init' := if p.Returned? then Some("") else init;
      assert !Terminal(p);
      QrKeepsPolling(init', polls[1..]);
      assert polls == [p] + polls[1..];
      CookieAfterCons(init, p, polls[1..]);
    }
  }

  /** Waiting (801, 802) polls again and leaves `self.cookie` as it was. */
  lemma QrWaitingKeepsCookie(cookie: Option<string>, code: int, rest: seq<Poll>)
    requires code == 801 || code == 802
    ensures QrLoop(cookie, [BadCode(code)] + rest) == Again(QrLoop(cookie, rest))
  {
  }

  /** Two scanning polls, an authorising poll, then a token: returned on the fourth poll. */
  lemma QrScanThenToken(token: string)
    requires token != ""
    ensures QrLoop(None, [BadCode(801), BadCode(801), BadCode(802), Returned(token)])
            == QrRun(Returns(Some(token)), Some(token), 4)
  {
    var polls := [BadCode(801), BadCode(801), BadCode(802), Returned(token)];
    QrStopsAtFirstTerminal(None, polls, 3);
  }

  /** A waiting poll, then an expired ticket: `qr` returns the cookie it held, here none. */
  lemma QrExpired()
    ensures QrLoop(None, [BadCode(801), BadCode(800)]) == QrRun(Returns(None), None, 2)
  {
  }

  /** An empty cookie is stored before the loop polls again, so a later 800
      returns the empty string rather than the cookie held at the start. */
  lemma QrExpiredAfterEmptyCookie(init: Option<string>)
    ensures QrLoop(init, [Returned(""), BadCode(800)]) == QrRun(Returns(Some("")), Some(""), 2)
  {
  }
}
