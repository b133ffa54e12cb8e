/** The browser's data store: responses are cached per URL and concurrent fetches of one URL
    share a request. Code between two `await`s runs undisturbed, so those stretches are the steps. */
module SingleFlight {
  import opened Common

  const TTL := 30_000  // milliseconds

  datatype Response = Response(ok: bool, status: int, body: string)
  datatype Entry = Entry(data: Response, expiry: int)

  /** The store's two maps. A promise in `inflight` is known by the number of its request. */
  datatype Core = Core(cache: map<string, Entry>, inflight: map<string, nat>)

  /** How a call of `fetch` goes on: with a cached response, by awaiting a request that is already
      under way, or by awaiting a new one. */
  datatype Begin = Cached(data: Response) | Join(request: nat) | Send

  function Began(c: Core, url: string, now: int): Begin {
    if url in c.cache && now < c.cache[url].expiry then Cached(c.cache[url].data)
    else if url in c.inflight then Join(c.inflight[url])
    else Send
  }

  function AfterBegin(c: Core, url: string, now: int, request: nat): Core {
    if Began(c, url, now).Send? then c.(inflight := c.inflight[url := request]) else c
  }

  /** The `then` callback of a request. */
  function Resolved(c: Core, url: string, resp: Response, now: int): Core {
    Core(if resp.ok then c.cache[url := Entry(resp, now + TTL)] else c.cache, c.inflight - {url})
  }

  /** The `catch` callback of a request. */
  function Rejected(c: Core, url: string): Core { c.(inflight := c.inflight - {url}) }

  function Invalidated(c: Core, prefix: string): Core {
    c.(cache := map k | k in c.cache && !(prefix <= k) :: c.cache[k])
  }

  class VireStore {
    var cache: map<string, Entry>
    var inflight: map<string, nat>

    constructor ()
      ensures View() == Core(map[], map[])
    {
      cache, inflight := map[], map[];
    }

    ghost function View(): Core reads this { Core(cache, inflight) }

    /** `fetch` up to its first `await`; `request` numbers the promise it would create. */
    method Fetch(url: string, now: int, request: nat) returns (r: Begin)
      modifies this
      ensures r == Began(old(View()), url, now) && View() == AfterBegin(old(View()), url, now, request)
    {
      if url in cache && now < cache[url].expiry {
        return Cached(cache[url].data);
      }
      if url in inflight {
        return Join(inflight[url]);
      }
      inflight := inflight[url := request];
      return Send;
    }

    method OnResponse(url: string, resp: Response, now: int)
      modifies this
      ensures View() == Resolved(old(View()), url, resp, now)
    {
      if resp.ok {
        cache := cache[url := Entry(resp, now + TTL)];
      }
      inflight := inflight - {url};
    }

    method OnError(url: string)
      modifies this
      ensures View() == Rejected(old(View()), url)
    {
      inflight := inflight - {url};
    }

    method Invalidate(urlPrefix: string)
      modifies this
      ensures View() == Invalidated(old(View()), urlPrefix)
    {
      var rest := cache.Keys;
      while rest != {}
        invariant rest <= cache.Keys && inflight == old(inflight)
        invariant cache == map k | k in old(cache) && (k in rest || !(urlPrefix <= k)) :: old(cache)[k]
      {
        var key :| key in rest;
        rest := rest - {key};
        if urlPrefix <= key {
          cache := cache - {key};
        }
      }
    }
  }

  // ---- Every interleaving ----

  datatype Outcome = Answer(resp: Response, at: int) | Error

  /** A call of `fetch`: the URL it was asked for and where it stands. */
  datatype Call =
    | Waiting(url: string, request: nat)
    | Hit(url: string, data: Response, at: int)
    | Received(url: string, request: nat, resp: Response)
    | Failed(url: string, request: nat)

  /** `urls` has every request ever sent, by number; `settled` those that have come back. */
  datatype State = State(core: Core, now: int, urls: seq<string>, settled: map<nat, Outcome>, calls: map<nat, Call>)

  datatype Action =
    | Tick(to: int)
    | Fetch(call: nat, url: string)
    | Resolve(request: nat, resp: Response)
    | Reject(request: nat)
    | Resume(call: nat)
    | Invalidate(prefix: string)

  const Start := State(Core(map[], map[]), 0, [], map[], map[])

  predicate Outstanding(s: State, r: nat) { r < |s.urls| && r !in s.settled }

  function Do(s: State, a: Action): State {
    match a
    case Tick(to) => if s.now <= to then s.(now := to) else s
    case Fetch(call, url) =>
      if call in s.calls then s
      else
        var n := |s.urls|;
        var t := s.(core := AfterBegin(s.core, url, s.now, n));
        (match Began(s.core, url, s.now)
         case Cached(data) => t.(calls := s.calls[call := Hit(url, data, s.now)])
         case Join(r) => t.(calls := s.calls[call := Waiting(url, r)])
         case Send => t.(urls := s.urls + [url], calls := s.calls[call := Waiting(url, n)]))
    case Resolve(r, resp) =>
      if !Outstanding(s, r) then s
      else s.(core := Resolved(s.core, s.urls[r], resp, s.now), settled := s.settled[r := Answer(resp, s.now)])
    case Reject(r) =>
      if !Outstanding(s, r) then s
      else s.(core := Rejected(s.core, s.urls[r]), settled := s.settled[r := Error])
    case Resume(call) =>
      if call !in s.calls || !s.calls[call].Waiting? || s.calls[call].request !in s.settled then s
      else
        var w := s.calls[call];
        var outcome := s.settled[w.request];
        s.(calls := s.calls[call := if outcome.Answer? then Received(w.url, w.request, outcome.resp)
                            else Failed(w.url, w.request)])
    case Invalidate(prefix) => s.(core := Invalidated(s.core, prefix))
  }

  function Run(s: State, actions: seq<Action>): State
    decreases |actions|
  {
    if actions == [] then s else Run(Do(s, actions[0]), actions[1..])
  }

  /** `inflight` lists exactly the outstanding requests, under their URLs. */
  ghost predicate Exact(s: State) {
    && (forall u :: u in s.core.inflight ==> Outstanding(s, s.core.inflight[u]) && s.urls[s.core.inflight[u]] == u)
    && (forall r :: 0 <= r < |s.urls| && r !in s.settled ==>
          s.urls[r] in s.core.inflight && s.core.inflight[s.urls[r]] == r)
    && (forall r :: r in s.settled ==> r < |s.urls|)
  }

  /** The response came back, successful, for that URL, less than one TTL before `now`. */
  ghost predicate Recent(urls: seq<string>, settled: map<nat, Outcome>, url: string, data: Response, now: int) {
    exists r :: r in settled && r < |urls| && urls[r] == url
      && settled[r].Answer? && settled[r].resp == data && data.ok && now < settled[r].at + TTL
  }

  /** A call awaits, or was given the result of, a request for its own URL. */
  ghost predicate Served(urls: seq<string>, settled: map<nat, Outcome>, c: Call) {
    match c
    case Waiting(url, r) => r < |urls| && urls[r] == url
    case Hit(url, data, at) => Recent(urls, settled, url, data, at)
    case Received(url, r, resp) =>
      r < |urls| && urls[r] == url && r in settled && settled[r].Answer? && settled[r].resp == resp
    case Failed(url, r) => r < |urls| && urls[r] == url && r in settled && settled[r] == Error
  }

  ghost predicate Inv(s: State) {
    && Exact(s)
    && (forall u :: u in s.core.cache ==>
          Recent(s.urls, s.settled, u, s.core.cache[u].data, s.core.cache[u].expiry - 1))
    && (forall c :: c in s.calls ==> Served(s.urls, s.settled, s.calls[c]))
  }

  /** Requests and their results, once there, stay. */
  lemma Lasting(s: State, urls: seq<string>, settled: map<nat, Outcome>)
    requires Inv(s)
    requires s.urls <= urls && forall r :: r in s.settled ==> r in settled && settled[r] == s.settled[r]
    ensures forall u :: u in s.core.cache ==> Recent(urls, settled, u, s.core.cache[u].data, s.core.cache[u].expiry - 1)
    ensures forall c :: c in s.calls ==> Served(urls, settled, s.calls[c])
  {
    forall u, d, at | Recent(s.urls, s.settled, u, d, at) ensures Recent(urls, settled, u, d, at) {
      var r :| r in s.settled && r < |s.urls| && s.urls[r] == u
        && s.settled[r].Answer? && s.settled[r].resp == d && d.ok && at < s.settled[r].at + TTL;
      assert r in settled && urls[r] == u;
    }
    forall c | c in s.calls ensures Served(urls, settled, s.calls[c]) {
      assert Served(s.urls, s.settled, s.calls[c]);
    }
  }

  lemma FetchKeeps(s: State, call: nat, url: string)
    requires Inv(s) && call !in s.calls
    ensures Inv(Do(s, Fetch(call, url)))
  {
    match Began(s.core, url, s.now)
    case Send =>
      var t := Do(s, Fetch(call, url));
      Lasting(s, t.urls, t.settled);
      assert Exact(t);
    case Cached(_) =>
      var e := s.core.cache[url];
      assert Recent(s.urls, s.settled, url, e.data, e.expiry - 1);
      assert Recent(s.urls, s.settled, url, e.data, s.now);
    case Join(r) =>
      assert Served(s.urls, s.settled, Waiting(url, r));
  }

  lemma SettleKeeps(s: State, r: nat, outcome: Outcome)
    requires Inv(s) && Outstanding(s, r) && (outcome.Answer? ==> outcome.at == s.now)
    ensures
      var core :=
        if outcome.Answer? then Resolved(s.core, s.urls[r], outcome.resp, s.now) else Rejected(s.core, s.urls[r]);
      Inv(s.(core := core, settled := s.settled[r := outcome]))
  {
    var settled := s.settled[r := outcome];
    Lasting(s, s.urls, settled);
    if outcome.Answer? && outcome.resp.ok {
      assert r in settled && settled[r] == outcome;
      assert Recent(s.urls, settled, s.urls[r], outcome.resp, s.now + TTL - 1);
    }
  }

  lemma ResumeKeeps(s: State, call: nat)
    requires Inv(s)
    ensures Inv(Do(s, Resume(call)))
  {
    if call in s.calls {
      assert Served(s.urls, s.settled, s.calls[call]);
    }
  }

  lemma StepKeeps(s: State, a: Action)
    requires Inv(s)
    ensures Inv(Do(s, a))
  {
    match a
    case Fetch(call, url) =>
      if call !in s.calls {
        FetchKeeps(s, call, url);
      }
    case Resolve(r, resp) =>
      if Outstanding(s, r) {
        SettleKeeps(s, r, Answer(resp, s.now));
      }
    case Reject(r) =>
      if Outstanding(s, r) {
        SettleKeeps(s, r, Error);
      }
    case Resume(call) => ResumeKeeps(s, call);
    case _ =>
  }

  lemma {:induction false} RunKeeps(s: State, actions: seq<Action>)
    requires Inv(s)
    ensures Inv(Run(s, actions))
    decreases |actions|
  {
    if actions != [] {
      StepKeeps(s, actions[0]);
      RunKeeps(Do(s, actions[0]), actions[1..]);
    }
  }

  /** In every interleaving a URL is in flight exactly when one request for it is outstanding, and
      never are two. */
  lemma OneRequestPerUrl(actions: seq<Action>, url: string, q: nat, r: nat)
    ensures
      var s := Run(Start, actions);
      && (url in s.core.inflight <==> exists k: nat :: Outstanding(s, k) && s.urls[k] == url)
      && (Outstanding(s, q) && Outstanding(s, r) && s.urls[q] == s.urls[r] ==> q == r)
  {
    RunKeeps(Start, actions);
    var s := Run(Start, actions);
    if url in s.core.inflight {
      assert Outstanding(s, s.core.inflight[url]);
    }
  }

  /** Every call that joined or sent a request gets that request's own result, and it was a request
      for the URL the call asked for; a cache hit is a successful response for that URL that came
      back less than one TTL before. */
  lemma CallersGetTheirResponse(actions: seq<Action>, call: nat)
    requires call in Run(Start, actions).calls
    ensures var s := Run(Start, actions); Served(s.urls, s.settled, s.calls[call])
  {
    RunKeeps(Start, actions);
  }

  /** A call that waits keeps its URL and its request until it has that request's result. */
  lemma {:induction false} WaitingEndsWithItsRequest(s: State, actions: seq<Action>, call: nat)
    requires call in s.calls && s.calls[call].Waiting?
    ensures
      var t, w := Run(s, actions), s.calls[call];
      call in t.calls && Continues(w, t.calls[call])
    decreases |actions|
  {
    if actions != [] {
      var t := Do(s, actions[0]);
      assert call in t.calls && Continues(s.calls[call], t.calls[call]);
      if t.calls[call].Waiting? {
        WaitingEndsWithItsRequest(t, actions[1..], call);
      } else {
        DoneStaysDone(t, actions[1..], call);
      }
    }
  }

  predicate Continues(w: Call, c: Call) { w.Waiting? && !c.Hit? && c.url == w.url && c.request == w.request }

  lemma {:induction false} DoneStaysDone(s: State, actions: seq<Action>, call: nat)
    requires call in s.calls && !s.calls[call].Waiting?
    ensures call in Run(s, actions).calls && Run(s, actions).calls[call] == s.calls[call]
    decreases |actions|
  {
    if actions != [] {
      DoneStaysDone(Do(s, actions[0]), actions[1..], call);
    }
  }
}
