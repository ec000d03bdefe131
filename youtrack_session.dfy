/**
 * The YouTrack login session: the retry counter and the cookie the extension keeps
 * (`_authRetryCount`, `_authData`), how a login changes them, and how a request
 * logs in lazily and retries after an "Unauthorized." failure.
 *
 * The server is a script: the answers it will give to logins and to requests, in
 * order, and the log of what it was sent. A script that has run out answers a
 * login with an error and a request with a failure whose message is empty.
 */
module YouTrackSession {
  import opened Outcomes
  import opened Text

  const LoginOk := "<login>ok</login>"
  const Unauthorized := "Unauthorized."
  const MaxAuthRetries := 3

  /** The answer to the login POST: the body with the Set-Cookie header (None when the
      header is absent), or a WebException. */
  datatype LoginReply = LoginAnswer(body: string, setCookie: Option<string>) | LoginError

  /** The answer to a GET or POST on the REST interface: the body, or a WebException
      with its message. */
  datatype Reply = Body(text: string) | Failure(message: string)

  datatype Verb = Get | Post

  /** A request as sent: its URL, its method and the Cookie header it carried. */
  datatype Request = Request(url: string, verb: Verb, cookie: Option<string>)

  /** `_authRetryCount` and `_authData`. */
  datatype Session = Session(retryCount: int, authData: Option<string>)

  /** The server's remaining answers and the logs of the login URLs and requests it got. */
  datatype Network = Network(logins: seq<LoginReply>, replies: seq<Reply>,
                             loginLog: seq<string>, requestLog: seq<Request>)

  datatype World = World(session: Session, net: Network)

  /** The next login answer is the exact success text. */
  predicate LoginSucceeds(net: Network) {
    net.logins != [] && net.logins[0].LoginAnswer? && net.logins[0].body == LoginOk
  }

  /** No login answer left in the script is a success. */
  predicate LoginsFail(net: Network) {
    forall i :: 0 <= i < |net.logins| ==> !(net.logins[i].LoginAnswer? && net.logins[i].body == LoginOk)
  }

  /** The server answers one login POST and records its URL. */
  function NextLogin(net: Network, url: string): (r: (LoginReply, Network))
    ensures r.1.loginLog == net.loginLog + [url]
    ensures r.1.replies == net.replies && r.1.requestLog == net.requestLog
    ensures net.logins == [] ==> r.0 == LoginError && r.1.logins == []
    ensures net.logins != [] ==> r.0 == net.logins[0] && r.1.logins == net.logins[1..]
  {
    var reply := if net.logins == [] then LoginError else net.logins[0];
    var rest := if net.logins == [] then [] else net.logins[1..];
    (reply, net.(logins := rest, loginLog := net.loginLog + [url]))
  }

  /** The server answers one request and records it. */
  function NextReply(net: Network, request: Request): (r: (Reply, Network))
    ensures r.1.requestLog == net.requestLog + [request]
    ensures r.1.logins == net.logins && r.1.loginLog == net.loginLog
    ensures net.replies == [] ==> r.0 == Failure("") && r.1.replies == []
    ensures net.replies != [] ==> r.0 == net.replies[0] && r.1.replies == net.replies[1..]
  {
    var reply := if net.replies == [] then Failure("") else net.replies[0];
    var rest := if net.replies == [] then [] else net.replies[1..];
    (reply, net.(replies := rest, requestLog := net.requestLog + [request]))
  }

  /** Authenticate: the counter goes up first; only the exact success text stores the
      cookie and sets the counter back to 0; any other answer, and an error, leave the
      cookie as it was. */
  function Authenticate(w: World, loginUrl: string): (w': World)
    ensures w'.net == NextLogin(w.net, loginUrl).1
    ensures LoginSucceeds(w.net) ==> w'.session == Session(0, w.net.logins[0].setCookie)
    ensures !LoginSucceeds(w.net) ==> w'.session == Session(w.session.retryCount + 1, w.session.authData)
  {
    var count := w.session.retryCount + 1;
    var (reply, net) := NextLogin(w.net, loginUrl);
    if reply.LoginAnswer? && reply.body == LoginOk then World(Session(0, reply.setCookie), net)
    else World(Session(count, w.session.authData), net)
  }

  /** ConnectToYoutrack: log in first when there is no cookie, send the request with the
      cookie, and on a failure that mentions "Unauthorized." log in again and start over,
      as long as the counter is below 3; any other failure gives "". */
  function Fetch(w: World, loginUrl: string, url: string, verb: Verb): (r: (string, World))
    ensures |r.1.net.requestLog| > |w.net.requestLog|
    ensures |r.1.net.replies| <= |w.net.replies|
    decreases |w.net.replies|
  {
    var w1 := if w.session.authData.None? then Authenticate(w, loginUrl) else w;
    var (reply, net) := NextReply(w1.net, Request(url, verb, w1.session.authData));
    var w2 := World(w1.session, net);
    match reply
    case Body(text) => (text, w2)
    case Failure(message) =>
      if Contains(message, Unauthorized) && w2.session.retryCount < MaxAuthRetries then
        Fetch(Authenticate(w2, loginUrl), loginUrl, url, verb)
      else ("", w2)
  }

  /** One round of ConnectToYoutrack: after the lazy login and the request, a Body answer
      is the result, an "Unauthorized." failure below the retry bound starts over after a
      new login, and any other failure gives "". */
  lemma FetchStep(w: World, loginUrl: string, url: string, verb: Verb, w1: World, reply: Reply, w2: World)
    requires w1 == if w.session.authData.None? then Authenticate(w, loginUrl) else w
    requires (reply, w2.net) == NextReply(w1.net, Request(url, verb, w1.session.authData)) && w2.session == w1.session
    ensures reply.Body? ==> Fetch(w, loginUrl, url, verb) == (reply.text, w2)
    ensures reply.Failure? && Contains(reply.message, Unauthorized) && w2.session.retryCount < MaxAuthRetries ==>
              |w2.net.replies| < |w.net.replies| && Fetch(w, loginUrl, url, verb) == Fetch(Authenticate(w2, loginUrl), loginUrl, url, verb)
    ensures reply.Failure? && !(Contains(reply.message, Unauthorized) && w2.session.retryCount < MaxAuthRetries) ==>
              Fetch(w, loginUrl, url, verb) == ("", w2)
  {
  }

  /** With a cookie and a successful answer, ConnectToYoutrack returns that answer's text
      after exactly one request that carries the cookie, and the session stays as it was. */
  lemma FetchBody(w: World, loginUrl: string, url: string, verb: Verb)
    requires w.session.authData.Some? && w.net.replies != [] && w.net.replies[0].Body?
    ensures Fetch(w, loginUrl, url, verb).0 == w.net.replies[0].text
    ensures Fetch(w, loginUrl, url, verb).1 ==
              World(w.session, w.net.(replies := w.net.replies[1..],
                                      requestLog := w.net.requestLog + [Request(url, verb, w.session.authData)]))
  {
  }

  /** A Fetch only appends to the logs: the requests and logins sent before it stay. */
  lemma {:induction false} FetchLogsGrow(w: World, loginUrl: string, url: string, verb: Verb)
    ensures w.net.requestLog < Fetch(w, loginUrl, url, verb).1.net.requestLog
    ensures w.net.loginLog <= Fetch(w, loginUrl, url, verb).1.net.loginLog
    decreases |w.net.replies|
  {
    var w1 := if w.session.authData.None? then Authenticate(w, loginUrl) else w;
    var (reply, net) := NextReply(w1.net, Request(url, verb, w1.session.authData));
    var w2 := World(w1.session, net);
    if reply.Failure? && Contains(reply.message, Unauthorized) && w2.session.retryCount < MaxAuthRetries {
      FetchLogsGrow(Authenticate(w2, loginUrl), loginUrl, url, verb);
    }
  }

  /** The login is lazy: without a cookie the first thing sent is a login, and the first
      request carries the cookie that login gave; with a cookie the first request goes
      out with it, and if the server answers it, no login is sent at all. */
  lemma FetchLazyLogin(w: World, loginUrl: string, url: string, verb: Verb)
    ensures var after := Fetch(w, loginUrl, url, verb).1.net;
            w.session.authData.None? ==>
              |w.net.loginLog| < |after.loginLog| && after.loginLog[|w.net.loginLog|] == loginUrl
              && after.requestLog[|w.net.requestLog|]
                 == Request(url, verb, Authenticate(w, loginUrl).session.authData)
    ensures var after := Fetch(w, loginUrl, url, verb).1.net;
            w.session.authData.Some? ==> after.requestLog[|w.net.requestLog|] == Request(url, verb, w.session.authData)
    ensures w.session.authData.Some? && w.net.replies != [] && w.net.replies[0].Body? ==>
              Fetch(w, loginUrl, url, verb).1.net.loginLog == w.net.loginLog
  {
    var w1 := if w.session.authData.None? then Authenticate(w, loginUrl) else w;
    var (reply, net) := NextReply(w1.net, Request(url, verb, w1.session.authData));
    var w2 := World(w1.session, net);
    if reply.Failure? && Contains(reply.message, Unauthorized) && w2.session.retryCount < MaxAuthRetries {
      FetchLogsGrow(Authenticate(w2, loginUrl), loginUrl, url, verb);
    }
  }

  /** The most requests one Fetch sends while no login succeeds. */
  function RetryBound(count: int): nat {
    if count >= MaxAuthRetries then 1 else MaxAuthRetries + 1 - count
  }

  /** While every login fails, the counter only grows, so the retries stop: a Fetch
      sends at most 4 - counter requests (one once the counter reached 3). */
  lemma {:induction false} FailingLoginsBoundRetries(w: World, loginUrl: string, url: string, verb: Verb)
    requires LoginsFail(w.net)
    ensures |Fetch(w, loginUrl, url, verb).1.net.requestLog| <= |w.net.requestLog| + RetryBound(w.session.retryCount)
    decreases |w.net.replies|
  {
    var w1 := if w.session.authData.None? then Authenticate(w, loginUrl) else w;
    assert LoginsFail(w1.net) && w.session.retryCount <= w1.session.retryCount by {
      if w.session.authData.None? {
        assert !LoginSucceeds(w.net);
        forall i | 0 <= i < |w1.net.logins|
          ensures !(w1.net.logins[i].LoginAnswer? && w1.net.logins[i].body == LoginOk)
        {
          assert w1.net.logins[i] == w.net.logins[i + 1];
        }
      }
    }
    var (reply, net) := NextReply(w1.net, Request(url, verb, w1.session.authData));
    var w2 := World(w1.session, net);
    if reply.Failure? && Contains(reply.message, Unauthorized) && w2.session.retryCount < MaxAuthRetries {
      var w3 := Authenticate(w2, loginUrl);
      assert !LoginSucceeds(w2.net);
      forall i | 0 <= i < |w3.net.logins|
        ensures !(w3.net.logins[i].LoginAnswer? && w3.net.logins[i].body == LoginOk)
      {
        assert w3.net.logins[i] == w2.net.logins[i + 1];
      }
      FailingLoginsBoundRetries(w3, loginUrl, url, verb);
    }
  }

  /** A server that accepts every login but answers each request "Unauthorized." keeps
      the extension retrying: for every n there is a script that makes one Fetch send
      n + 1 requests, because each successful login sets the counter back to 0. */
  lemma {:induction false} SucceedingLoginsRetryForever(w: World, loginUrl: string, url: string, verb: Verb, n: nat, text: string)
    requires w.session.retryCount == 0 && w.session.authData.Some?
    requires |w.net.logins| == n
    requires forall i :: 0 <= i < n ==> w.net.logins[i] == LoginAnswer(LoginOk, w.session.authData)
    requires |w.net.replies| == n + 1 && w.net.replies[n] == Body(text)
    requires forall i :: 0 <= i < n ==> w.net.replies[i] == Failure(Unauthorized)
    ensures Fetch(w, loginUrl, url, verb).0 == text
    ensures |Fetch(w, loginUrl, url, verb).1.net.requestLog| == |w.net.requestLog| + n + 1
    decreases n
  {
    var (reply, net) := NextReply(w.net, Request(url, verb, w.session.authData));
    var w2 := World(w.session, net);
    if n > 0 {
      assert reply == Failure(Unauthorized);
      assert Contains(Unauthorized, Unauthorized) by {
        assert Unauthorized[..|Unauthorized|] == Unauthorized;
      }
      assert LoginSucceeds(w2.net);
      var w3 := Authenticate(w2, loginUrl);
      assert w3.session == w.session;
      forall i | 0 <= i < n - 1 ensures w3.net.logins[i] == LoginAnswer(LoginOk, w3.session.authData) {
        assert w3.net.logins[i] == w.net.logins[i + 1];
      }
      forall i | 0 <= i < n - 1 ensures w3.net.replies[i] == Failure(Unauthorized) {
        assert w3.net.replies[i] == w.net.replies[i + 1];
      }
      SucceedingLoginsRetryForever(w3, loginUrl, url, verb, n - 1, text);
    }
  }

  /** A failure that does not mention "Unauthorized.", or one that comes when the counter
      has reached 3, ends the Fetch with "" after one request and no login. */
  lemma GiveUp(w: World, loginUrl: string, url: string, verb: Verb)
    requires w.session.authData.Some? && w.net.replies != [] && w.net.replies[0].Failure?
    requires !Contains(w.net.replies[0].message, Unauthorized) || w.session.retryCount >= MaxAuthRetries
    ensures Fetch(w, loginUrl, url, verb).0 == ""
    ensures Fetch(w, loginUrl, url, verb).1.session == w.session
    ensures Fetch(w, loginUrl, url, verb).1.net.loginLog == w.net.loginLog
    ensures Fetch(w, loginUrl, url, verb).1.net.requestLog == w.net.requestLog + [Request(url, verb, w.session.authData)]
  {
  }

  /** TestConnection: the counter is set to 0 and the probe configuration logs in; the
      result is whether the counter is still 0; then the configured server logs in again.
      The result is true exactly when the probe login succeeds, the last login always
      goes to the configured server, and when that second login fails the probe's
      cookie stays in the session. */
  function TestConnection(w: World, probeUrl: string, loginUrl: string): (r: (bool, World))
    ensures r.0 <==> LoginSucceeds(w.net)
    ensures r.1.net.loginLog == w.net.loginLog + [probeUrl, loginUrl]
    ensures r.1.net.requestLog == w.net.requestLog
    ensures LoginSucceeds(w.net) && !LoginSucceeds(NextLogin(w.net, probeUrl).1) ==>
              r.1.session.authData == w.net.logins[0].setCookie
  {
    var w1 := Authenticate(World(Session(0, w.session.authData), w.net), probeUrl);
    var result := w1.session.retryCount == 0;
    (result, Authenticate(w1, loginUrl))
  }

  /** The server as an object: the script it still has to play and what it received. */
  class TrackerServer {
    var logins: seq<LoginReply>
    var replies: seq<Reply>
    var loginLog: seq<string>
    var requestLog: seq<Request>

    function Net(): Network
      reads this
    {
      Network(logins, replies, loginLog, requestLog)
    }

    constructor (logins: seq<LoginReply>, replies: seq<Reply>)
      ensures Net() == Network(logins, replies, [], [])
    {
      this.logins := logins;
      this.replies := replies;
      loginLog := [];
      requestLog := [];
    }

    /** The login POST to `url`. */
    method Login(url: string) returns (reply: LoginReply)
      modifies this
      ensures (reply, Net()) == NextLogin(old(Net()), url)
    {
      reply := LoginError;
      if logins != [] {
        reply := logins[0];
        logins := logins[1..];
      }
      loginLog := loginLog + [url];
    }

    /** A GET or POST on the REST interface. */
    method Send(request: Request) returns (reply: Reply)
      modifies this
      ensures (reply, Net()) == NextReply(old(Net()), request)
    {
      reply := Failure("");
      if replies != [] {
        reply := replies[0];
        replies := replies[1..];
      }
      requestLog := requestLog + [request];
    }
  }
}
