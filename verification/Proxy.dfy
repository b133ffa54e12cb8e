/** The API proxy: what it caches, what it clears, and what a hit replays. */
module Proxy {
  import opened Common
  import opened Base64
  import opened CacheQueue
  import ResponseCache
  import opened CacheRuns

  const MAX_CACHEABLE := 5 * 1024 * 1024

  /** `user` is the subject of a valid session, or empty. `path` is the decoded path that
      invalidation uses; `uri` is the request URI that keys use. */
  datatype Request = Request(verb: string, path: string, uri: string, user: string, forceRefresh: bool)

  /** What came of the request to vire-server. */
  datatype Upstream = Unreachable | Unreadable | Answered(resp: Response)

  datatype Reply = Error(code: int) | Relayed(resp: Response)

  function MakeKey(user: string, verb: string, path: string): string {
    user + ":" + verb + ":" + path
  }

  // ---- When keys tell requests apart ----

  /** What the URIs of the requests begin with: "/api/" for the proxy, as long as nobody spells that
      with percent signs, and "/" however it is spelt. */
  predicate IsMount(mount: string) { mount != "" && mount[0] == '/' && ':' !in mount }

  /** A method name has no colon and no slash. */
  predicate IsVerb(verb: string) { ':' !in verb && '/' !in verb }

  /** What stands in a key between the user and the rest of a URI under the mount. */
  function Mark(verb: string, mount: string): string { ":" + verb + (":" + mount) }

  /** The user ids that read like another user id, the method and the beginning of a URI. */
  predicate Ambiguous(user: string, verb: string, mount: string) {
    user != "" && Contains(user[1..], Mark(verb, mount))
  }

  lemma KeyForm(user: string, verb: string, mount: string, rest: string)
    ensures MakeKey(user, verb, mount + rest) == user + (Mark(verb, mount) + rest)
  {
  }

  lemma MarkAt(v: string, mount: string, tail: string, d: nat)
    requires IsVerb(v) && IsMount(mount) && d < |Mark(v, mount)|
    ensures
      var s := Mark(v, mount) + tail;
      && s[d] == (if d == 0 || d == |v| + 1 then ':' else if d <= |v| then v[d - 1] else mount[d - |v| - 2])
      && (0 < d && s[d] == ':' ==> d + 1 < |s| && s[d + 1] == '/')
  {
  }

  /** In a key, the user ends where the mark begins: past that, and before the mark is over, no
      other mark can begin. */
  lemma MarksDoNotOverlap(v: string, tail: string, w: string, rest: string, mount: string, d: nat)
    requires IsVerb(v) && IsVerb(w) && IsMount(mount) && 0 < d < |Mark(v, mount)|
    ensures (Mark(v, mount) + tail)[d..] != Mark(w, mount) + rest
  {
    var s, u := Mark(v, mount) + tail, Mark(w, mount) + rest;
    MarkAt(v, mount, tail, d);
    MarkAt(w, mount, rest, 0);
    MarkAt(w, mount, rest, 1);
    assert s[d] == s[d..][0];
    assert s[d] == ':' ==> s[d + 1] == s[d..][1];
  }

  /** A prefix of a concatenation that reaches into its second part. */
  lemma Reaches(a: string, s: string, b: string, u: string)
    requires a + s == b + u && |a| < |b|
    ensures var d := |b| - |a|; d <= |s| && a <= b && b[|a|..] == s[..d] && s[d..] == u
  {
    var d := |b| - |a|;
    assert |a + s| == |b + u|;
    assert (a + s)[..|b|] == (b + u)[..|b|] == b;
    assert (a + s)[|b|..] == (b + u)[|b|..] == u;
    assert (a + s)[|b|..] == s[d..];
    assert (a + s)[..|b|][|a|..] == s[..d];
    assert (a + s)[..|a|] == a;
  }

  lemma OccursAt(b: string, mark: string, n: nat)
    requires 0 < n <= |b| && mark <= b[n..]
    ensures Contains(b[1..], mark)
  {
    assert b[1..][n - 1..] == b[n..];
    assert b[1..][n - 1..][..|mark|] == mark;
    assert b[1..][n - 1..n - 1 + |mark|] == b[1..][n - 1..][..|mark|];
    assert At(b[1..], mark, n - 1);
  }

  lemma KeySplits(a: string, v: string, p: string, b: string, w: string, q: string, mount: string)
    requires IsVerb(v) && IsVerb(w) && IsMount(mount)
    requires MakeKey(a, v, mount + p) == MakeKey(b, w, mount + q) && 0 < |a| < |b|
    ensures Ambiguous(b, v, mount)
  {
    var s, u, d := Mark(v, mount) + p, Mark(w, mount) + q, |b| - |a|;
    KeyForm(a, v, mount, p);
    KeyForm(b, w, mount, q);
    Reaches(a, s, b, u);
    if d < |Mark(v, mount)| {
      MarksDoNotOverlap(v, p, w, q, mount, d);
    } else {
      assert s[..d][..|Mark(v, mount)|] == Mark(v, mount);
      OccursAt(b, Mark(v, mount), |a|);
    }
  }

  lemma FirstColon(v: string, p: string, w: string, q: string)
    requires ':' !in v && ':' !in w && v + (":" + p) == w + (":" + q)
    ensures v == w && p == q
  {
    var s, u := v + (":" + p), w + (":" + q);
    assert forall i :: 0 <= i < |v| ==> s[i] == v[i];
    assert forall i :: 0 <= i < |w| ==> u[i] == w[i];
    assert s[|v|] == ':' && u[|w|] == ':';
    assert s[..|v|] == v && u[..|w|] == w;
    assert s[|v| + 1..] == p && u[|w| + 1..] == q;
  }

  lemma SameUser(a: string, v: string, p: string, b: string, w: string, q: string)
    requires |a| == |b| && MakeKey(a, v, p) == MakeKey(b, w, q)
    ensures a == b && v + (":" + p) == w + (":" + q)
  {
    var s, u := v + (":" + p), w + (":" + q);
    assert MakeKey(a, v, p) == (a + ":") + s && MakeKey(b, w, q) == (b + ":") + u;
    assert ((a + ":") + s)[..|a|] == a && ((b + ":") + u)[..|b|] == b;
    assert ((a + ":") + s)[|a| + 1..] == s && ((b + ":") + u)[|b| + 1..] == u;
  }

  /** A key of a URI under the mount determines its user, its method and its URI, unless one of the
      users reads like the other one followed by the other's method and the mount. */
  lemma KeysAreInjective(a: string, v: string, p: string, b: string, w: string, q: string, mount: string)
    requires IsVerb(v) && IsVerb(w) && IsMount(mount) && mount <= p && mount <= q && a != "" && b != ""
    requires !Ambiguous(a, w, mount) && !Ambiguous(b, v, mount)
    requires MakeKey(a, v, p) == MakeKey(b, w, q)
    ensures a == b && v == w && p == q
  {
    assert p == mount + p[|mount|..] && q == mount + q[|mount|..];
    if |a| < |b| {
      KeySplits(a, v, p[|mount|..], b, w, q[|mount|..], mount);
    } else if |b| < |a| {
      KeySplits(b, w, q[|mount|..], a, v, p[|mount|..], mount);
    } else {
      SameUser(a, v, p, b, w, q);
      FirstColon(v, p, w, q);
    }
  }

  lemma SharedKey(a: string, v: string, rest: string, w: string, q: string)
    ensures MakeKey(a, v, rest + (":" + w + ":" + q)) == MakeKey(a + (":" + v + (":" + rest)), w, q)
  {
  }

  /** An ambiguous user id taken apart. */
  lemma Apart(user: string, verb: string, mount: string) returns (a: string, rest: string)
    requires Ambiguous(user, verb, mount)
    ensures a != "" && user == a + (":" + verb + (":" + (mount + rest)))
  {
    var mark := Mark(verb, mount);
    var n :| 0 <= n <= |user[1..]| && At(user[1..], mark, n);
    var m := n + 1;
    a, rest := user[..m], user[m + |mark|..];
    assert user[m..m + |mark|] == user[1..][n..n + |mark|] == mark;
    assert user == user[..m] + user[m..m + |mark|] + user[m + |mark|..];
    assert user == a + (mark + rest);
    assert mark + rest == ":" + verb + (":" + (mount + rest));
  }

  /** The condition is exact: an ambiguous user shares a key, for every URI, with another user and a
      URI under the mount. */
  lemma AmbiguousUsersCollide(b: string, v: string, w: string, q: string, mount: string) returns (a: string, p: string)
    requires Ambiguous(b, v, mount)
    ensures 0 < |a| < |b| && mount <= p && MakeKey(a, v, p) == MakeKey(b, w, q)
  {
    var rest;
    a, rest := Apart(b, v, mount);
    p := mount + rest + (":" + w + ":" + q);
    SharedKey(a, v, mount + rest, w, q);
  }

  /** A request of `b` has the key of a request of a shorter user id. */
  ghost predicate SharesWithShorter(b: string, v: string, w: string, mount: string) {
    exists a, p, q :: 0 < |a| < |b| && mount <= p && mount <= q && MakeKey(a, v, p) == MakeKey(b, w, q)
  }

  lemma AmbiguousExactlyWhenShared(b: string, v: string, w: string, mount: string)
    requires IsVerb(v) && IsVerb(w) && IsMount(mount)
    ensures Ambiguous(b, v, mount) <==> SharesWithShorter(b, v, w, mount)
  {
    if Ambiguous(b, v, mount) {
      var a, p := AmbiguousUsersCollide(b, v, w, mount, mount);
      assert MakeKey(a, v, p) == MakeKey(b, w, mount);
    }
    if SharesWithShorter(b, v, w, mount) {
      var a, p, q :| 0 < |a| < |b| && mount <= p && mount <= q && MakeKey(a, v, p) == MakeKey(b, w, q);
      assert p == mount + p[|mount|..] && q == mount + q[|mount|..];
      KeySplits(a, v, p[|mount|..], b, w, q[|mount|..], mount);
    }
  }

  /** So user ids without a colon are never confused. */
  lemma AmbiguousHasColon(user: string, verb: string, mount: string)
    requires Ambiguous(user, verb, mount)
    ensures ':' in user
  {
    var a, rest := Apart(user, verb, mount);
    assert user[|a|] == ':';
  }

  // ---- One request ----

  predicate Internal(path: string) { "/api/internal/" <= path }

  predicate Cacheable(req: Request, resp: Response) {
    req.verb == "GET" && req.user != "" && 200 <= resp.status < 300 && |resp.body| <= MAX_CACHEABLE
  }

  /** At most one byte more than is cacheable is read from vire-server. */
  function Truncated(resp: Response): Response {
    if |resp.body| > MAX_CACHEABLE + 1 then resp.(body := resp.body[..MAX_CACHEABLE + 1]) else resp
  }

  predicate Clears(req: Request) { req.user != "" && (req.forceRefresh || req.verb != "GET") }

  /** The hit a request would be answered with. */
  function CachedAnswer(q: seq<Slot>, req: Request, now: Time): Option<Response> {
    if req.verb == "GET" && req.user != "" then Hit(q, MakeKey(req.user, "GET", req.uri), now) else None
  }

  function Looked(q: seq<Slot>, req: Request, now: Time): seq<Slot> {
    if req.verb == "GET" && req.user != "" then AfterGet(q, MakeKey(req.user, "GET", req.uri), now, now) else q
  }

  /** The queue after a request that was answered by vire-server. */
  function Learned(cfg: Config, q: seq<Slot>, req: Request, resp: Response, now: Time): seq<Slot> {
    var stored :=
      if Cacheable(req, resp)
      then Stored(q, Slot(MakeKey(req.user, "GET", req.uri), resp, now + cfg.ttl), cfg.maxEntries)
      else q;
    if Clears(req) then Purged(stored, req.path) else stored
  }

  function Answer(cfg: Config, q: seq<Slot>, req: Request, up: Upstream, now: Time): (r: (seq<Slot>, Reply)) {
    if Internal(req.path) then (q, Error(404))
    else
      var hit, looked := CachedAnswer(q, req, now), Looked(q, req, now);
      if hit.Some? then (looked, Relayed(hit.value))
      else
        match up
        case Unreachable => (looked, Error(503))
        case Unreadable => (looked, Error(502))
        case Answered(resp) => (Learned(cfg, looked, req, Truncated(resp), now), Relayed(Truncated(resp)))
  }

  lemma {:induction false} PurgedTwice(q: seq<Slot>, path: string)
    ensures Purged(Purged(q, path), path) == Purged(q, path)
  {
    if q != [] {
      PurgedTwice(q[1..], path);
    }
  }

  class Server {
    const cache: ResponseCache.Cache

    constructor (cache: ResponseCache.Cache)
      ensures this.cache == cache
    {
      this.cache := cache;
    }

    method HandleApiProxy(req: Request, up: Upstream, now: Time) returns (r: Reply)
      requires cache.Valid()
      modifies cache
      ensures cache.Valid()
      ensures (cache.queue, r) == Answer(Config(cache.ttl, cache.maxEntries), old(cache.queue), req, up, now)
    {
      if "/api/internal/" <= req.path {
        return Error(404);
      }
      if req.verb == "GET" && req.user != "" {
        var cached := cache.Get(MakeKey(req.user, req.verb, req.uri), now, now);
        if cached.Some? {
          return Relayed(cached.value);
        }
      }
      if up.Unreachable? {
        return Error(503);
      }
      if up.Unreadable? {
        return Error(502);
      }
      var resp := Truncated(up.resp);
      Learn(req, resp, now);
      return Relayed(resp);
    }

    /** Storing a cacheable answer, then clearing for a forced refresh and for a write. */
    method Learn(req: Request, resp: Response, now: Time)
      requires cache.Valid()
      modifies cache
      ensures cache.Valid()
      ensures cache.queue == Learned(Config(cache.ttl, cache.maxEntries), old(cache.queue), req, resp, now)
    {
      if req.verb == "GET" && req.user != "" && resp.status >= 200 && resp.status < 300
         && |resp.body| <= MAX_CACHEABLE
      {
        cache.Set(MakeKey(req.user, req.verb, req.uri), resp, now);
      }
      PurgedTwice(cache.queue, req.path);
      if req.forceRefresh && req.user != "" {
        cache.InvalidatePrefix(req.path);
      }
      if req.verb != "GET" && req.user != "" {
        cache.InvalidatePrefix(req.path);
      }
    }
  }

  // ---- Whole runs ----

  /** A request, what came of asking vire-server for it, and when it was handled. */
  datatype Exchange = Exchange(req: Request, up: Upstream, at: Time)

  /** The cache's queue after a run of exchanges. */
  function Run(cfg: Config, xs: seq<Exchange>): seq<Slot>
    decreases |xs|
  {
    if xs == [] then []
    else
      var x := xs[|xs| - 1];
      Answer(cfg, Run(cfg, xs[..|xs| - 1]), x.req, x.up, x.at).0
  }

  predicate InOrder(xs: seq<Exchange>) {
    forall i, j :: 0 <= i < j < |xs| ==> xs[i].at <= xs[j].at
  }

  /** Handled on a cache that holds `q`, the exchange is completed by vire-server. */
  predicate Completes(q: seq<Slot>, x: Exchange) {
    !Internal(x.req.path) && CachedAnswer(q, x.req, x.at).None? && x.up.Answered?
  }

  function KeyOf(req: Request): string { MakeKey(req.user, "GET", req.uri) }

  /** What vire-server's answer to a request does to the cache, as cache events. */
  function Lessons(req: Request, resp: Response, now: Time): seq<Event> {
    (if Cacheable(req, resp) then [Wrote(KeyOf(req), resp, now)] else [])
    + (if Clears(req) then [Cleared(req.path)] else [])
  }

  function Events(q: seq<Slot>, x: Exchange): seq<Event> {
    if Completes(q, x) then Lessons(x.req, Truncated(x.up.resp), x.at) else []
  }

  function CacheLog(cfg: Config, xs: seq<Exchange>): seq<Event>
    decreases |xs|
  {
    if xs == [] then []
    else CacheLog(cfg, xs[..|xs| - 1]) + Events(Run(cfg, xs[..|xs| - 1]), xs[|xs| - 1])
  }

  lemma LookedKeeps(cfg: Config, q: seq<Slot>, now: Time, log: seq<Event>, req: Request)
    requires QueueInv(cfg, q, now, log)
    ensures QueueInv(cfg, Looked(q, req, now), now, log)
  {
    var key := KeyOf(req);
    KeepInv(cfg, q, now, log, k => k != key);
  }

  lemma LearnedKeeps(cfg: Config, q: seq<Slot>, log: seq<Event>, req: Request, resp: Response, now: Time)
    requires QueueInv(cfg, q, now, log)
    ensures QueueInv(cfg, Learned(cfg, q, req, resp, now), now, log + Lessons(req, resp, now))
  {
    var stored, wrote := q, log;
    if Cacheable(req, resp) {
      SetKeeps(cfg, q, now, log, KeyOf(req), resp);
      stored := Stored(q, Slot(KeyOf(req), resp, now + cfg.ttl), cfg.maxEntries);
      wrote := log + [Wrote(KeyOf(req), resp, now)];
    }
    if Clears(req) {
      ClearKeeps(cfg, stored, now, wrote, req.path);
      assert log + Lessons(req, resp, now) == wrote + [Cleared(req.path)];
    } else {
      assert log + Lessons(req, resp, now) == wrote;
    }
  }

  lemma AnswerKeeps(cfg: Config, q: seq<Slot>, log: seq<Event>, x: Exchange)
    requires QueueInv(cfg, q, x.at, log)
    ensures QueueInv(cfg, Answer(cfg, q, x.req, x.up, x.at).0, x.at, log + Events(q, x))
  {
    LookedKeeps(cfg, q, x.at, log, x.req);
    if Completes(q, x) {
      LearnedKeeps(cfg, Looked(q, x.req, x.at), log, x.req, Truncated(x.up.resp), x.at);
    } else {
      assert log + Events(q, x) == log;
    }
  }

  lemma {:induction false} RunKeeps(cfg: Config, xs: seq<Exchange>, now: Time)
    requires InOrder(xs) && (xs != [] ==> xs[|xs| - 1].at <= now)
    ensures QueueInv(cfg, Run(cfg, xs), now, CacheLog(cfg, xs))
    decreases |xs|
  {
    if xs != [] {
      var x := xs[|xs| - 1];
      var before := xs[..|xs| - 1];
      RunKeeps(cfg, before, x.at);
      AnswerKeeps(cfg, Run(cfg, before), CacheLog(cfg, before), x);
    }
  }

  /** The exchange at `j` is a completed signed-in write or forced refresh whose path occurs in the key. */
  ghost predicate Wipes(cfg: Config, xs: seq<Exchange>, j: nat, key: string)
    requires j < |xs|
  {
    Completes(Run(cfg, xs[..j]), xs[j]) && Clears(xs[j].req) && Contains(key, xs[j].req.path)
  }

  /** The exchange at `i` fetched `resp` for the key, and no exchange from `i` on cleared it. */
  ghost predicate FetchedAt(cfg: Config, xs: seq<Exchange>, key: string, resp: Response, at: Time, i: nat) {
    && i < |xs| && xs[i].at == at && xs[i].up == Answered(resp)
    && Completes(Run(cfg, xs[..i]), xs[i]) && Cacheable(xs[i].req, resp) && KeyOf(xs[i].req) == key
    && forall j :: i <= j < |xs| ==> !Wipes(cfg, xs, j, key)
  }

  lemma FetchedEarlier(cfg: Config, xs: seq<Exchange>, key: string, resp: Response, at: Time, i: nat)
    requires xs != [] && FetchedAt(cfg, xs[..|xs| - 1], key, resp, at, i)
    requires forall e :: e in Events(Run(cfg, xs[..|xs| - 1]), xs[|xs| - 1]) && e.Cleared? ==> !Overrides(e, key)
    ensures FetchedAt(cfg, xs, key, resp, at, i)
  {
    var n := |xs| - 1;
    var x, q := xs[n], Run(cfg, xs[..n]);
    assert xs[..i] == xs[..n][..i];
    forall j | i <= j < |xs| ensures !Wipes(cfg, xs, j, key) {
      if j < n {
        assert xs[..j] == xs[..n][..j] && xs[j] == xs[..n][j];
        assert !Wipes(cfg, xs[..n], j, key);
      } else if Completes(q, x) && Clears(x.req) {
        var e := Cleared(x.req.path);
        assert e in Events(q, x);
        assert !Overrides(e, key);
      }
    }
  }

  lemma FetchedNow(cfg: Config, xs: seq<Exchange>, key: string, e: Event)
    requires xs != []
    requires var events := Events(Run(cfg, xs[..|xs| - 1]), xs[|xs| - 1]);
             e in events && e.Wrote? && e.key == key && forall c :: c in events && c.Cleared? ==> !Overrides(c, key)
    ensures FetchedAt(cfg, xs, key, e.resp, e.at, |xs| - 1)
  {
    var n := |xs| - 1;
    var x, q := xs[n], Run(cfg, xs[..n]);
    assert Truncated(x.up.resp) == x.up.resp;
    if Clears(x.req) {
      assert Cleared(x.req.path) in Events(q, x);
    }
  }

  lemma {:induction false} FetchBehind(cfg: Config, xs: seq<Exchange>, key: string) returns (i: nat)
    requires LastWrite(CacheLog(cfg, xs), key).Some?
    ensures
      var w := LastWrite(CacheLog(cfg, xs), key).value;
      w.Wrote? && FetchedAt(cfg, xs, key, w.resp, w.at, i)
    decreases |xs|
  {
    var n := |xs| - 1;
    var log, events := CacheLog(cfg, xs[..n]), Events(Run(cfg, xs[..n]), xs[n]);
    LastWriteSplit(log, events, key);
    if events != [] && Overrides(events[0], key) {
      i := n;
      FetchedNow(cfg, xs, key, events[0]);
    } else {
      i := FetchBehind(cfg, xs[..n], key);
      var w := LastWrite(log, key).value;
      FetchedEarlier(cfg, xs, key, w.resp, w.at, i);
    }
  }

  /** The last write of a log extended by at most two events. */
  lemma LastWriteSplit(log: seq<Event>, events: seq<Event>, key: string)
    requires |events| <= 2 && (|events| == 2 ==> events[1].Cleared?)
    requires LastWrite(log + events, key).Some?
    ensures forall e :: e in events && e.Cleared? ==> !Overrides(e, key)
    ensures if events != [] && Overrides(events[0], key)
            then LastWrite(log + events, key) == Some(events[0]) && events[0].Wrote?
            else LastWrite(log + events, key) == LastWrite(log, key)
  {
    if |events| == 0 {
      assert log + events == log;
    } else if |events| == 1 {
      assert (log + events)[..|log|] == log;
    } else {
      assert (log + events)[..|log| + 1] == log + [events[0]];
      assert (log + [events[0]])[..|log|] == log;
    }
  }

  /** A hit is the last write for its key, at most one TTL old. */
  lemma HitWasWritten(cfg: Config, xs: seq<Exchange>, req: Request, now: Time)
    requires InOrder(xs) && (xs != [] ==> xs[|xs| - 1].at <= now)
    requires CachedAnswer(Run(cfg, xs), req, now).Some?
    ensures
      var w := LastWrite(CacheLog(cfg, xs), KeyOf(req));
      && w.Some? && w.value.Wrote?
      && w.value.resp == CachedAnswer(Run(cfg, xs), req, now).value && now <= w.value.at + cfg.ttl
  {
    var key, q := KeyOf(req), Run(cfg, xs);
    RunKeeps(cfg, xs, now);
    FindAt(q, key);
    assert Faithful(cfg, CacheLog(cfg, xs), Find(q, key).value);
  }

  /** In every run, a cache hit replays exactly the status, headers and body that vire-server
      once answered for the same user and the same URI, at most one TTL ago, and no signed-in
      write or forced refresh completed since had a path that occurs in the key. */
  lemma HitsReplayTheSameRequest(cfg: Config, xs: seq<Exchange>, req: Request, now: Time, mount: string)
    returns (i: nat)
    requires InOrder(xs) && (xs != [] ==> xs[|xs| - 1].at <= now)
    requires IsMount(mount) && mount <= req.uri && forall j :: 0 <= j < |xs| ==> mount <= xs[j].req.uri
    requires !Ambiguous(req.user, "GET", mount)
    requires forall j :: 0 <= j < |xs| ==> !Ambiguous(xs[j].req.user, "GET", mount)
    requires CachedAnswer(Run(cfg, xs), req, now).Some?
    ensures
      && i < |xs| && xs[i].req.verb == "GET" && xs[i].req.user == req.user && xs[i].req.uri == req.uri
      && xs[i].up == Answered(CachedAnswer(Run(cfg, xs), req, now).value)
      && now <= xs[i].at + cfg.ttl
      && forall j :: i <= j < |xs| ==> !Wipes(cfg, xs, j, KeyOf(req))
  {
    HitWasWritten(cfg, xs, req, now);
    i := FetchBehind(cfg, xs, KeyOf(req));
    KeysAreInjective(xs[i].req.user, "GET", xs[i].req.uri, req.user, "GET", req.uri, mount);
  }
}
