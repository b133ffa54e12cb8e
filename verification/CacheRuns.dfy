/** Every interleaving of cache calls. `Get` reads its entry, gives up the read lock, looks at
    the clock, and relocks to remove an expired entry, so it is up to three steps. An action
    that is not enabled changes nothing. */
module CacheRuns {
  import opened Common
  import opened CacheQueue

  datatype Config = Config(ttl: Time, maxEntries: int)

  datatype Event = Wrote(key: string, resp: Response, at: Time) | Cleared(path: string)

  /** A `Get` outside the lock: it holds a copy of a slot, read when the log had `seen` events, or
      has found its copy expired. */
  datatype Reader = Peeked(slot: Slot, seen: nat) | Stale(key: string)

  /** A hit that was returned. */
  datatype Served = Served(key: string, resp: Response, seen: nat, at: Time)

  datatype State = State(queue: seq<Slot>, now: Time, readers: map<nat, Reader>, log: seq<Event>, hits: seq<Served>)

  datatype Action =
    | Tick(to: Time)
    | Set(key: string, resp: Response)
    | Invalidate(path: string)
    | Peek(id: nat, key: string)
    | Judge(id: nat)
    | Relock(id: nat)

  const Start := State([], 0, map[], [], [])

  function Do(cfg: Config, s: State, a: Action): State {
    match a
    case Tick(to) => if s.now <= to then s.(now := to) else s
    case Set(key, resp) =>
      s.(queue := Stored(s.queue, Slot(key, resp, s.now + cfg.ttl), cfg.maxEntries),
         log := s.log + [Wrote(key, resp, s.now)])
    case Invalidate(path) => s.(queue := Purged(s.queue, path), log := s.log + [Cleared(path)])
    case Peek(id, key) =>
      if id in s.readers || Find(s.queue, key).None? then s
      else s.(readers := s.readers[id := Peeked(Find(s.queue, key).value, |s.log|)])
    case Judge(id) =>
      if id !in s.readers || !s.readers[id].Peeked? then s
      else
        var r := s.readers[id];
        if s.now > r.slot.expiry then s.(readers := s.readers[id := Stale(r.slot.key)])
        else s.(readers := s.readers - {id}, hits := s.hits + [Served(r.slot.key, r.slot.resp, r.seen, s.now)])
    case Relock(id) =>
      if id !in s.readers || !s.readers[id].Stale? then s
      else s.(readers := s.readers - {id}, queue := Lapsed(s.queue, s.readers[id].key, s.now))
  }

  function Run(cfg: Config, s: State, actions: seq<Action>): State
    decreases |actions|
  {
    if actions == [] then s else Run(cfg, Do(cfg, s, actions[0]), actions[1..])
  }

  /** `MakeKey` never builds the empty key. */
  predicate ProperKeys(actions: seq<Action>) {
    forall i :: 0 <= i < |actions| && actions[i].Set? ==> actions[i].key != ""
  }

  predicate Overrides(e: Event, key: string) {
    match e
    case Wrote(k, _, _) => k == key
    case Cleared(path) => Contains(key, path)
  }

  /** What the log says a key should hold: its last write, unless it was cleared since. */
  function LastWrite(log: seq<Event>, key: string): Option<Event>
    decreases |log|
  {
    if log == [] then None
    else
      var e := log[|log| - 1];
      if !Overrides(e, key) then LastWrite(log[..|log| - 1], key)
      else if e.Wrote? then Some(e)
      else None
  }

  lemma {:induction false} LastWriteAt(log: seq<Event>, key: string) returns (i: nat)
    requires LastWrite(log, key).Some?
    ensures i < |log| && Some(log[i]) == LastWrite(log, key) && log[i].Wrote? && log[i].key == key
    ensures forall j :: i < j < |log| ==> !Overrides(log[j], key)
    decreases |log|
  {
    var n := |log| - 1;
    if Overrides(log[n], key) {
      i := n;
    } else {
      i := LastWriteAt(log[..n], key);
    }
  }

  function Limit(cfg: Config): nat { if cfg.maxEntries < 1 then 1 else cfg.maxEntries }

  predicate Ordered(q: seq<Slot>) {
    forall i, j :: 0 <= i < j < |q| ==> q[i].expiry <= q[j].expiry
  }

  /** A copy of a slot agrees with a log. */
  predicate Faithful(cfg: Config, log: seq<Event>, x: Slot) {
    LastWrite(log, x.key) == Some(Wrote(x.key, x.resp, x.expiry - cfg.ttl))
  }

  ghost predicate QueueInv(cfg: Config, q: seq<Slot>, now: Time, log: seq<Event>) {
    && Distinct(q) && Ordered(q) && |q| <= Limit(cfg)
    && (forall x :: x in q ==> x.key != "" && x.expiry <= now + cfg.ttl && Faithful(cfg, log, x))
  }

  ghost predicate Inv(cfg: Config, s: State) {
    && QueueInv(cfg, s.queue, s.now, s.log)
    && (forall id :: id in s.readers && s.readers[id].Peeked? ==>
          s.readers[id].seen <= |s.log| && Faithful(cfg, s.log[..s.readers[id].seen], s.readers[id].slot))
    && (forall n :: 0 <= n < |s.hits| ==> Sound(cfg, s.log, s.hits[n]))
  }

  /** A hit returned what its key's last write before the read had stored, not more than one
      TTL before. */
  predicate Sound(cfg: Config, log: seq<Event>, h: Served) {
    && h.seen <= |log|
    && var w := LastWrite(log[..h.seen], h.key);
    && w.Some? && w.value.Wrote? && w.value.resp == h.resp && h.at <= w.value.at + cfg.ttl
  }

  lemma KeepInv(cfg: Config, q: seq<Slot>, now: Time, log: seq<Event>, pass: string -> bool)
    requires QueueInv(cfg, q, now, log)
    ensures QueueInv(cfg, Keep(q, pass), now, log)
  {
    KeepMembers(q, pass);
    KeepDistinct(q, pass);
    KeepOrder(q, pass, (x: Slot) => x.expiry);
  }

  lemma TailInv(cfg: Config, q: seq<Slot>, now: Time, log: seq<Event>)
    requires QueueInv(cfg, q, now, log) && q != []
    ensures QueueInv(cfg, q[1..], now, log)
  {
    assert forall i :: 0 <= i < |q| - 1 ==> q[1..][i] == q[i + 1];
  }

  lemma AppendInv(cfg: Config, q: seq<Slot>, now: Time, log: seq<Event>, key: string, resp: Response)
    requires QueueInv(cfg, q, now, log) && !Has(q, key) && key != "" && |q| < Limit(cfg)
    ensures QueueInv(cfg, q + [Slot(key, resp, now + cfg.ttl)], now, log + [Wrote(key, resp, now)])
  {
    var slot := Slot(key, resp, now + cfg.ttl);
    var grown := log + [Wrote(key, resp, now)];
    forall x | x in q + [slot] ensures Faithful(cfg, grown, x) {
      assert grown[..|log|] == log;
      if x in q {
        var i :| 0 <= i < |q| && q[i] == x;
        assert Faithful(cfg, log, x) && x.key != key;
      }
    }
    forall i, j | 0 <= i < j < |q| + 1 ensures (q + [slot])[i].expiry <= (q + [slot])[j].expiry {
      assert q[i] in q;
    }
  }

  lemma SetKeeps(cfg: Config, q: seq<Slot>, now: Time, log: seq<Event>, key: string, resp: Response)
    requires QueueInv(cfg, q, now, log) && key != ""
    ensures QueueInv(cfg, Stored(q, Slot(key, resp, now + cfg.ttl), cfg.maxEntries), now, log + [Wrote(key, resp, now)])
  {
    var r;
    if Has(q, key) {
      r := Without(q, key);
      KeepInv(cfg, q, now, log, k => k != key);
      KeepMembers(q, k => k != key);
      WithoutIsShorter(q, key);
    } else {
      r := Evicted(q, cfg.maxEntries);
      if |q| >= cfg.maxEntries && q != [] {
        assert q[0] in q;
        TailInv(cfg, q, now, log);
      }
      assert forall i :: 0 <= i < |r| ==> r[i] in q;
    }
    AppendInv(cfg, r, now, log, key, resp);
  }

  lemma WithoutIsShorter(q: seq<Slot>, key: string)
    requires Has(q, key)
    ensures |Without(q, key)| < |q| && !Has(Without(q, key), key)
    decreases |q|
  {
    KeepMembers(q, k => k != key);
    KeepMembers(q[1..], k => k != key);
    if q[0].key != key {
      var i :| 0 <= i < |q| && q[i].key == key;
      assert q[1..][i - 1].key == key;
      WithoutIsShorter(q[1..], key);
    }
  }

  lemma ClearKeeps(cfg: Config, q: seq<Slot>, now: Time, log: seq<Event>, path: string)
    requires QueueInv(cfg, q, now, log)
    ensures QueueInv(cfg, Purged(q, path), now, log + [Cleared(path)])
  {
    var pass := (k: string) => !Contains(k, path);
    KeepInv(cfg, q, now, log, pass);
    KeepMembers(q, pass);
    var grown := log + [Cleared(path)];
    forall x | x in Purged(q, path) ensures Faithful(cfg, grown, x) {
      assert grown[..|log|] == log && Faithful(cfg, log, x);
    }
  }

  /** Readers and hits refer to a prefix of the log, which a longer log still has. */
  lemma LogGrows(cfg: Config, s: State, t: State, e: Event)
    requires Inv(cfg, s) && t.log == s.log + [e] && t.readers == s.readers && t.hits == s.hits
    requires QueueInv(cfg, t.queue, t.now, t.log)
    ensures Inv(cfg, t)
  {
    assert forall n :: 0 <= n <= |s.log| ==> t.log[..n] == s.log[..n];
  }

  lemma PeekKeeps(cfg: Config, s: State, id: nat, key: string)
    requires Inv(cfg, s)
    ensures Inv(cfg, Do(cfg, s, Peek(id, key)))
  {
    FindAt(s.queue, key);
    assert s.log[..|s.log|] == s.log;
  }

  lemma JudgeKeeps(cfg: Config, s: State, id: nat)
    requires Inv(cfg, s)
    ensures Inv(cfg, Do(cfg, s, Judge(id)))
  {
    if id in s.readers && s.readers[id].Peeked? && s.now <= s.readers[id].slot.expiry {
      var r := s.readers[id];
      assert Sound(cfg, s.log, Served(r.slot.key, r.slot.resp, r.seen, s.now));
    }
  }

  lemma RelockKeeps(cfg: Config, s: State, id: nat)
    requires Inv(cfg, s)
    ensures Inv(cfg, Do(cfg, s, Relock(id)))
  {
    if id in s.readers && s.readers[id].Stale? {
      var key := s.readers[id].key;
      KeepInv(cfg, s.queue, s.now, s.log, k => k != key);
    }
  }

  lemma StepKeeps(cfg: Config, s: State, a: Action)
    requires Inv(cfg, s) && (a.Set? ==> a.key != "")
    ensures Inv(cfg, Do(cfg, s, a))
  {
    match a
    case Tick(to) =>
    case Set(key, resp) =>
      SetKeeps(cfg, s.queue, s.now, s.log, key, resp);
      LogGrows(cfg, s, Do(cfg, s, a), Wrote(key, resp, s.now));
    case Invalidate(path) =>
      ClearKeeps(cfg, s.queue, s.now, s.log, path);
      LogGrows(cfg, s, Do(cfg, s, a), Cleared(path));
    case Peek(id, key) => PeekKeeps(cfg, s, id, key);
    case Judge(id) => JudgeKeeps(cfg, s, id);
    case Relock(id) => RelockKeeps(cfg, s, id);
  }

  lemma {:induction false} RunKeeps(cfg: Config, s: State, actions: seq<Action>)
    requires Inv(cfg, s) && ProperKeys(actions)
    ensures Inv(cfg, Run(cfg, s, actions))
    decreases |actions|
  {
    if actions != [] {
      StepKeeps(cfg, s, actions[0]);
      assert ProperKeys(actions[1..]);
      RunKeeps(cfg, Do(cfg, s, actions[0]), actions[1..]);
    }
  }

  /** The queue stays duplicate-free and within its limit. */
  lemma SizeIsBounded(cfg: Config, actions: seq<Action>)
    requires ProperKeys(actions)
    ensures Distinct(Run(cfg, Start, actions).queue)
    ensures |Run(cfg, Start, actions).queue| <= (if cfg.maxEntries < 1 then 1 else cfg.maxEntries)
  {
    RunKeeps(cfg, Start, actions);
  }

  /** Every hit ever returned is the response its key was last set to before the read, at most
      one TTL earlier, with no matching invalidation in between. */
  lemma HitsAreTheLatestWrite(cfg: Config, actions: seq<Action>, n: nat) returns (i: nat)
    requires ProperKeys(actions) && n < |Run(cfg, Start, actions).hits|
    ensures
      var s := Run(cfg, Start, actions);
      var h := s.hits[n];
      && i < h.seen <= |s.log|
      && s.log[i].Wrote? && s.log[i].key == h.key && s.log[i].resp == h.resp
      && h.at <= s.log[i].at + cfg.ttl
      && forall j :: i < j < h.seen ==> !Overrides(s.log[j], h.key)
  {
    RunKeeps(cfg, Start, actions);
    var s := Run(cfg, Start, actions);
    var h := s.hits[n];
    assert Sound(cfg, s.log, h);
    i := LastWriteAt(s.log[..h.seen], h.key);
    assert forall j :: 0 <= j < h.seen ==> s.log[..h.seen][j] == s.log[j];
  }

  /** Insertion order is expiry order, so a live slot is evicted only when every slot is live. */
  lemma EvictionSparesTheLiving(cfg: Config, actions: seq<Action>, key: string, resp: Response, x: Slot)
    requires ProperKeys(actions)
    requires
      var s := Run(cfg, Start, actions);
      x in s.queue && x.key != key && x !in Do(cfg, s, Set(key, resp)).queue
    ensures
      var s := Run(cfg, Start, actions);
      && x == s.queue[0]
      && (s.now <= x.expiry ==> forall y :: y in s.queue ==> s.now <= y.expiry)
  {
    RunKeeps(cfg, Start, actions);
    var s := Run(cfg, Start, actions);
    KeepMembers(s.queue, k => k != key);
    assert s.queue == [s.queue[0]] + s.queue[1..];
  }

  /** Whatever happened since a reader found its copy expired, its second section removes no
      slot that is unexpired when it runs, and nothing but its own key. */
  lemma RelockSparesTheLiving(cfg: Config, actions: seq<Action>, id: nat, x: Slot)
    requires ProperKeys(actions)
    requires
      var s := Run(cfg, Start, actions);
      x in s.queue && x !in Do(cfg, s, Relock(id)).queue
    ensures
      var s := Run(cfg, Start, actions);
      s.now > x.expiry && id in s.readers && s.readers[id] == Stale(x.key)
  {
    RunKeeps(cfg, Start, actions);
    var s := Run(cfg, Start, actions);
    var key := s.readers[id].key;
    KeepMembers(s.queue, k => k != key);
    FindAt(s.queue, key);
    var i :| 0 <= i < |s.queue| && s.queue[i] == x;
  }

  /** For any key at all, one `Set` keeps a queue within its limit exactly when the key was
      already held, there was room, or the oldest key is not the empty one. */
  lemma SetKeepsLimitExactlyWhen(cfg: Config, q: seq<Slot>, slot: Slot)
    requires Distinct(q) && |q| <= Limit(cfg)
    ensures |Stored(q, slot, cfg.maxEntries)| <= Limit(cfg) <==>
            Has(q, slot.key) || |q| < Limit(cfg) || q[0].key != ""
  {
    if Has(q, slot.key) {
      WithoutIsShorter(q, slot.key);
    }
  }
}
