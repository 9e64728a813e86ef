/** request_maker.py: a requester that reads pages from a file cache, logs in
    lazily, fetches over HTTP and restarts after a login wall.  The browser
    login, the HTTP transport and the HTML parser are oracles: the login is a
    function of the credentials and the attempt number, the transport replays
    a finite script of replies, and the parser maps a body to a Document. */
module Fetch {

  import opened Common
  import opened PyStr
  import opened Page

  type Cookies = map<string, string>

  const BASE_URL: string := "https://webapps.fas.harvard.edu"

  /** The cache directory a requester uses when none is given. */
  const DEFAULT_DATA_DIR: string := "data"

  /** The title of the page served instead of content when the cookies are
      no longer accepted. */
  const LOGIN_TITLE: string := "HarvardKey Login"

  /** What the transport does with the next request: a response with its
      `ok` flag and text, or an exception raised by `requests.get`. */
  datatype Reply = Response(ok: bool, body: string) | TransportError

  /** A request as sent: the full URL and the cookies attached to it. */
  datatype Request = Request(url: string, cookies: Cookies)

  /** The fixed context of a requester.  `login(username, password, k)` is
      the cookie map the k-th browser login returns, or None when it raises. */
  datatype Env = Env(
    dataDir: string,
    username: string,
    password: string,
    parse: string -> Document,
    login: (string, string, nat) -> Option<Cookies>)

  /** Everything make_request reads or changes: the cookie field, the cache
      directory (file path to contents), the replies the transport has left,
      the number of login attempts so far, and the requests sent so far. */
  datatype State = State(
    cookies: Cookies,
    cache: map<string, string>,
    replies: seq<Reply>,
    logins: nat,
    sent: seq<Request>)

  /** The cache file of a path: the data directory joined with the path
      minus its first character. */
  function CacheKey(dataDir: string, path: string): string
  {
    PathJoin(dataDir, SliceFrom(path, 1))
  }

  /** The outcome of the k-th login attempt. */
  function Login(env: Env, k: nat): Option<Cookies>
  {
    env.login(env.username, env.password, k)
  }

  /** `make_request(path)` as a function of the state it starts in: its
      result and the state it leaves.  A cache hit is answered from the
      file; otherwise cookies are minted when there are none, and the
      request is sent. */
  function Fetch(env: Env, st: State, path: string): (Result<Document>, State)
    decreases |st.replies|, 1
  {
    var key := CacheKey(env.dataDir, path);
    if key in st.cache then
      (Ok(env.parse(st.cache[key])), st)
    else if st.cookies == map[] then
      match Login(env, st.logins)
      case None => (Err(LoginFailed), st.(logins := st.logins + 1))
      case Some(c) => Send(env, st.(cookies := c, logins := st.logins + 1), path)
    else
      Send(env, st, path)
  }

  /** The network half of make_request: one request with the current
      cookies, then an error, a login wall (fresh cookies and a restart from
      the cache check), or content written to the cache. */
  function Send(env: Env, st: State, path: string): (Result<Document>, State)
    decreases |st.replies|, 0
  {
    if st.replies == [] then
      (Err(RepliesExhausted), st)
    else
      var st2 := st.(replies := st.replies[1..], sent := st.sent + [Request(BASE_URL + path, st.cookies)]);
      match st.replies[0]
      case TransportError => (Err(ConnectionFailed), st2)
      case Response(ok, body) =>
        if !ok then
          (Err(RequestFailed), st2)
        else if env.parse(body).title == Some(LOGIN_TITLE) then
          match Login(env, st2.logins)
          case None => (Err(LoginFailed), st2.(logins := st2.logins + 1))
          case Some(c) => Fetch(env, st2.(cookies := c, logins := st2.logins + 1), path)
        else
          (Ok(env.parse(body)), st2.(cache := st2.cache[CacheKey(env.dataDir, path) := body]))
  }

  /** `RequestMaker`: the fields of request_maker.py plus the oracles, the
      scripted transport and a log of what was sent. */
  class RequestMaker {
    const username: string
    const password: string
    const dataDir: string
    const parse: string -> Document
    const login: (string, string, nat) -> Option<Cookies>
    var cookies: Cookies
    var cache: map<string, string>
    var replies: seq<Reply>
    var logins: nat
    var sent: seq<Request>

    /** `RequestMaker(username, password, data_dir)`: no cookies yet. */
    constructor (username: string, password: string,
                 parse: string -> Document, login: (string, string, nat) -> Option<Cookies>,
                 cache: map<string, string>, replies: seq<Reply>, dataDir: string := DEFAULT_DATA_DIR)
      ensures Config() == Env(dataDir, username, password, parse, login)
      ensures Snapshot() == State(map[], cache, replies, 0, [])
    {
      this.username := username;
      this.password := password;
      this.dataDir := dataDir;
      this.parse := parse;
      this.login := login;
      this.cookies := map[];
      this.cache := cache;
      this.replies := replies;
      this.logins := 0;
      this.sent := [];
    }

    function Config(): Env
    {
      Env(dataDir, username, password, parse, login)
    }

    function Snapshot(): State
      reads this
    {
      State(cookies, cache, replies, logins, sent)
    }

    /** `self.cookies = self._get_cookies()`: one login attempt; when it
        raises, the cookies stay as they were. */
    method GetCookies() returns (ok: bool)
      modifies this
      ensures ok <==> Login(Config(), old(logins)).Some?
      ensures cookies == (if ok then Login(Config(), old(logins)).value else old(cookies))
      ensures logins == old(logins) + 1
      ensures cache == old(cache) && replies == old(replies) && sent == old(sent)
    {
      var minted := login(username, password, logins);
      logins := logins + 1;
      if minted.None? {
        return false;
      }
      cookies := minted.value;
      return true;
    }

    /** `make_request(path)` */
    method MakeRequest(path: string) returns (r: Result<Document>)
      modifies this
      decreases |replies|
      ensures (r, Snapshot()) == Fetch(Config(), old(Snapshot()), path)
    {
      var key := CacheKey(dataDir, path);
      if key in cache {
        return Ok(parse(cache[key]));
      }
      if cookies == map[] {
        var ok := GetCookies();
        if !ok {
          return Err(LoginFailed);
        }
      }
      if replies == [] {
        return Err(RepliesExhausted);
      }
      var reply := replies[0];
      replies := replies[1..];
      sent := sent + [Request(BASE_URL + path, cookies)];
      if reply.TransportError? {
        return Err(ConnectionFailed);
      }
      if !reply.ok {
        return Err(RequestFailed);
      }
      var doc := parse(reply.body);
      if doc.title == Some(LOGIN_TITLE) {
        var ok := GetCookies();
        if !ok {
          return Err(LoginFailed);
        }
        r := MakeRequest(path);
        return;
      }
      cache := cache[key := reply.body];
      return Ok(doc);
    }
  }

  // ---------------------------------------------------------------------
  // Properties of make_request

  /** A path under the data directory maps to the file named by the path
      itself, so different paths never share a cache file. */
  lemma CacheKeyShape(dataDir: string, path: string)
    requires dataDir != "" && dataDir[|dataDir| - 1] != '/'
    requires |path| > 0 && (|path| == 1 || path[1] != '/')
    ensures CacheKey(dataDir, path) == dataDir + "/" + path[1..]
  {
  }

  lemma CacheKeyInjective(dataDir: string, p: string, q: string)
    requires dataDir != "" && dataDir[|dataDir| - 1] != '/'
    requires |p| > 0 && (|p| == 1 || p[1] != '/') && |q| > 0 && (|q| == 1 || q[1] != '/')
    requires p[0] == q[0]
    requires CacheKey(dataDir, p) == CacheKey(dataDir, q)
    ensures p == q
  {
    CacheKeyShape(dataDir, p);
    CacheKeyShape(dataDir, q);
    var n := |dataDir| + 1;
    assert p[1..] == CacheKey(dataDir, p)[n..];
    assert q[1..] == CacheKey(dataDir, q)[n..];
    assert p == [p[0]] + p[1..];
    assert q == [q[0]] + q[1..];
  }

  /** A cached path is answered from its cache file: no login, no request,
      nothing changes. */
  lemma CacheHit(env: Env, st: State, path: string)
    requires CacheKey(env.dataDir, path) in st.cache
    ensures Fetch(env, st, path) == (Ok(env.parse(st.cache[CacheKey(env.dataDir, path)])), st)
  {
  }

  /** What a call does to the cache: a failed call leaves it as it was; a
      successful call leaves the entry of the path in the cache and returns
      the document parsed from it; and the only entry a call ever adds is
      that of the path, holding a served body that is not a login page. */
  predicate CacheEffect(env: Env, st: State, path: string, res: (Result<Document>, State))
  {
    var (r, st') := res;
    var key := CacheKey(env.dataDir, path);
    && (r.Err? ==> st'.cache == st.cache)
    && (r.Ok? ==> key in st'.cache && r.value == env.parse(st'.cache[key]))
    && (st'.cache == st.cache
        || (key !in st.cache && st'.cache == st.cache[key := st'.cache[key]]
            && env.parse(st'.cache[key]).title != Some(LOGIN_TITLE)))
  }

  /** What a call does to the transport: the requests sent only grow, every
      new one asks for this path, one request per reply consumed, the replies
      are consumed from the front, and login attempts only grow. */
  predicate SentEffect(st: State, path: string, st': State)
  {
    && st.sent <= st'.sent
    && |st'.sent| - |st.sent| == |st.replies| - |st'.replies|
    && st'.replies == st.replies[|st.replies| - |st'.replies|..]
    && (forall k :: |st.sent| <= k < |st'.sent| ==> st'.sent[k].url == BASE_URL + path)
    && st'.logins >= st.logins
  }

  lemma {:induction false} FetchCacheEffect(env: Env, st: State, path: string)
    ensures CacheEffect(env, st, path, Fetch(env, st, path))
    decreases |st.replies|, 1
  {
    if CacheKey(env.dataDir, path) !in st.cache {
      if st.cookies == map[] {
        if Login(env, st.logins).Some? {
          SendCacheEffect(env, st.(cookies := Login(env, st.logins).value, logins := st.logins + 1), path);
        }
      } else {
        SendCacheEffect(env, st, path);
      }
    }
  }

  lemma {:induction false} SendCacheEffect(env: Env, st: State, path: string)
    requires CacheKey(env.dataDir, path) !in st.cache
    ensures CacheEffect(env, st, path, Send(env, st, path))
    decreases |st.replies|, 0
  {
    if st.replies != [] && st.replies[0].Response? && st.replies[0].ok {
      var body := st.replies[0].body;
      var st2 := st.(replies := st.replies[1..], sent := st.sent + [Request(BASE_URL + path, st.cookies)]);
      if env.parse(body).title == Some(LOGIN_TITLE) {
        if Login(env, st2.logins).Some? {
          FetchCacheEffect(env, st2.(cookies := Login(env, st2.logins).value, logins := st2.logins + 1), path);
        }
      }
    }
  }

  lemma {:induction false} FetchSentEffect(env: Env, st: State, path: string)
    ensures SentEffect(st, path, Fetch(env, st, path).1)
    decreases |st.replies|, 1
  {
    if CacheKey(env.dataDir, path) !in st.cache {
      if st.cookies == map[] {
        if Login(env, st.logins).Some? {
          SendSentEffect(env, st.(cookies := Login(env, st.logins).value, logins := st.logins + 1), path);
        }
      } else {
        SendSentEffect(env, st, path);
      }
    }
  }

  lemma {:induction false} SendSentEffect(env: Env, st: State, path: string)
    ensures SentEffect(st, path, Send(env, st, path).1)
    decreases |st.replies|, 0
  {
    if st.replies != [] {
      var st2 := st.(replies := st.replies[1..], sent := st.sent + [Request(BASE_URL + path, st.cookies)]);
      if st.replies[0].Response? && st.replies[0].ok && env.parse(st.replies[0].body).title == Some(LOGIN_TITLE)
         && Login(env, st2.logins).Some? {
        var st3 := st2.(cookies := Login(env, st2.logins).value, logins := st2.logins + 1);
        FetchSentEffect(env, st3, path);
        var st' := Fetch(env, st3, path).1;
        assert st.replies[1..][|st3.replies| - |st'.replies|..] == st.replies[|st.replies| - |st'.replies|..];
      }
    }
  }

  /** After a successful call, asking again for the same path is a cache hit
      that returns the same document and sends nothing. */
  lemma FetchIdempotent(env: Env, st: State, path: string)
    requires Fetch(env, st, path).0.Ok?
    ensures var (r, st') := Fetch(env, st, path);
      Fetch(env, st', path) == (r, st')
  {
    FetchCacheEffect(env, st, path);
  }

  /** With cookies already held and the path not cached, no login comes
      first: the first request carries those cookies unchanged. */
  lemma ExistingCookiesSent(env: Env, st: State, path: string)
    requires CacheKey(env.dataDir, path) !in st.cache
    requires st.cookies != map[] && st.replies != []
    ensures var st' := Fetch(env, st, path).1;
      |st'.sent| > |st.sent| && st'.sent[|st.sent|] == Request(BASE_URL + path, st.cookies)
  {
    SendFirstRequest(env, st, path);
  }

  /** The first request the network half sends carries the cookies it
      starts with. */
  lemma SendFirstRequest(env: Env, st: State, path: string)
    requires st.replies != []
    ensures var st' := Send(env, st, path).1;
      |st'.sent| > |st.sent| && st'.sent[|st.sent|] == Request(BASE_URL + path, st.cookies)
  {
    var st2 := st.(replies := st.replies[1..], sent := st.sent + [Request(BASE_URL + path, st.cookies)]);
    if st.replies[0].Response? && st.replies[0].ok && env.parse(st.replies[0].body).title == Some(LOGIN_TITLE)
       && Login(env, st2.logins).Some? {
      var st3 := st2.(cookies := Login(env, st2.logins).value, logins := st2.logins + 1);
      FetchSentEffect(env, st3, path);
      var st' := Fetch(env, st3, path).1;
      assert st'.sent[|st.sent|] == st3.sent[|st.sent|];
    }
  }

  /** With no cookies and the path not cached, the first thing that happens
      is a login; when it fails the call fails before sending anything, and
      otherwise the first request carries the cookies it returned. */
  lemma MissingCookiesMinted(env: Env, st: State, path: string)
    requires CacheKey(env.dataDir, path) !in st.cache
    requires st.cookies == map[]
    ensures Fetch(env, st, path).1.logins > st.logins
    ensures Login(env, st.logins).None? ==> Fetch(env, st, path) == (Err(LoginFailed), st.(logins := st.logins + 1))
    ensures Login(env, st.logins).Some? && st.replies != [] ==>
      var st' := Fetch(env, st, path).1;
      |st'.sent| > |st.sent| && st'.sent[|st.sent|] == Request(BASE_URL + path, Login(env, st.logins).value)
  {
    if Login(env, st.logins).Some? {
      var st1 := st.(cookies := Login(env, st.logins).value, logins := st.logins + 1);
      SendSentEffect(env, st1, path);
      if st1.replies != [] {
        SendFirstRequest(env, st1, path);
      }
    }
  }

  /** A non-OK response is an error: one request was sent, and the cache and
      the cookies are as they were. */
  lemma HttpErrorNotCached(env: Env, st: State, path: string)
    requires CacheKey(env.dataDir, path) !in st.cache && st.cookies != map[]
    requires st.replies != [] && st.replies[0].Response? && !st.replies[0].ok
    ensures Fetch(env, st, path) ==
      (Err(RequestFailed), st.(replies := st.replies[1..], sent := st.sent + [Request(BASE_URL + path, st.cookies)]))
  {
  }

  /** Any OK page whose title is absent or other than the login title is
      content: it is returned and its body written to the cache file of the
      path. */
  lemma ContentCached(env: Env, st: State, path: string)
    requires CacheKey(env.dataDir, path) !in st.cache && st.cookies != map[]
    requires st.replies != [] && st.replies[0].Response? && st.replies[0].ok
    requires env.parse(st.replies[0].body).title != Some(LOGIN_TITLE)
    ensures var (r, st') := Fetch(env, st, path);
      && r == Ok(env.parse(st.replies[0].body))
      && st'.cache == st.cache[CacheKey(env.dataDir, path) := st.replies[0].body]
      && st'.cookies == st.cookies
  {
  }

  /** A login wall is never cached: the cookies are replaced by a fresh
      login and make_request starts over from the cache check. */
  lemma LoginWallRestarts(env: Env, st: State, path: string)
    requires CacheKey(env.dataDir, path) !in st.cache && st.cookies != map[]
    requires st.replies != [] && st.replies[0].Response? && st.replies[0].ok
    requires env.parse(st.replies[0].body).title == Some(LOGIN_TITLE)
    requires Login(env, st.logins).Some?
    ensures Fetch(env, st, path) ==
      Fetch(env, State(Login(env, st.logins).value, st.cache, st.replies[1..], st.logins + 1,
                       st.sent + [Request(BASE_URL + path, st.cookies)]), path)
  {
  }

  /** A script of `n` login walls followed by a content page. */
  predicate WallsThenContent(env: Env, replies: seq<Reply>, n: nat)
  {
    && |replies| == n + 1
    && (forall k :: 0 <= k < n ==> replies[k].Response? && replies[k].ok
                                   && env.parse(replies[k].body).title == Some(LOGIN_TITLE))
    && replies[n].Response? && replies[n].ok
    && env.parse(replies[n].body).title != Some(LOGIN_TITLE)
  }

  /** There is no retry limit: however many login walls come first, as long
      as every login returns cookies the call ends with the content page,
      after one fresh login per wall and one request per reply. */
  lemma {:induction false} LoginWallUnbounded(env: Env, st: State, path: string, n: nat)
    requires CacheKey(env.dataDir, path) !in st.cache && st.cookies != map[]
    requires forall k :: st.logins <= k ==> Login(env, k).Some? && Login(env, k).value != map[]
    requires WallsThenContent(env, st.replies, n)
    ensures var (r, st') := Fetch(env, st, path);
      && r == Ok(env.parse(st.replies[n].body))
      && st'.logins == st.logins + n
      && |st'.sent| == |st.sent| + n + 1
      && st'.cache == st.cache[CacheKey(env.dataDir, path) := st.replies[n].body]
    decreases n
  {
    if n > 0 {
      var st3 := State(Login(env, st.logins).value, st.cache, st.replies[1..], st.logins + 1,
                       st.sent + [Request(BASE_URL + path, st.cookies)]);
      assert WallsThenContent(env, st3.replies, n - 1) by {
        assert forall k :: 0 <= k < n - 1 ==> st3.replies[k] == st.replies[k + 1];
      }
      LoginWallUnbounded(env, st3, path, n - 1);
      assert Fetch(env, st, path) == Fetch(env, st3, path);
      assert st3.replies[n - 1] == st.replies[n];
    }
  }

  /** A transport that only ever serves the login wall never yields content:
      the call ends with the script exhausted, and nothing is cached. */
  lemma {:induction false} PersistentLoginWall(env: Env, st: State, path: string)
    requires CacheKey(env.dataDir, path) !in st.cache
    requires forall k :: st.logins <= k ==> Login(env, k).Some?
    requires forall k :: 0 <= k < |st.replies| ==> st.replies[k].Response? && st.replies[k].ok
                                                    && env.parse(st.replies[k].body).title == Some(LOGIN_TITLE)
    ensures var (r, st') := Fetch(env, st, path);
      r == Err(RepliesExhausted) && st'.cache == st.cache && st'.replies == []
    decreases |st.replies|
  {
    var st1 :=
      if st.cookies == map[] then st.(cookies := Login(env, st.logins).value, logins := st.logins + 1)
      else st;
    assert Fetch(env, st, path) == Send(env, st1, path);
    if st1.replies != [] {
      var st2 := st1.(replies := st1.replies[1..], sent := st1.sent + [Request(BASE_URL + path, st1.cookies)]);
      var st3 := st2.(cookies := Login(env, st2.logins).value, logins := st2.logins + 1);
      assert forall k :: 0 <= k < |st3.replies| ==> st3.replies[k] == st.replies[k + 1];
      PersistentLoginWall(env, st3, path);
    }
  }
}
