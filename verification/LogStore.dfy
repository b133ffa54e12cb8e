/** The remote log store: a buffer under a lock, drained by size, by timer and on close, each
    drained buffer being posted by its own goroutine. A batch for which no request can be made,
    because its entries cannot be encoded or the URL is malformed, is reported and dropped:
    `encodes` tells for which batches a request can be made. */
module LogStore {
  const FLUSH_SIZE := 50
  const MAX_BATCH := 500

  /** What the lock protects, with a record of all entries accepted and all buffers handed to a sender. */
  datatype Core<E> = Core(buf: seq<E>, closed: bool, accepted: seq<E>, drained: seq<seq<E>>)

  function Flushed<E>(c: Core<E>): Core<E> {
    if c.buf == [] then c else c.(buf := [], drained := c.drained + [c.buf])
  }

  function Accepted<E>(c: Core<E>, e: E): Core<E> {
    if c.closed then c
    else
      var d := c.(buf := c.buf + [e], accepted := c.accepted + [e]);
      if |d.buf| >= FLUSH_SIZE then Flushed(d) else d
  }

  function TimedOut<E>(c: Core<E>): Core<E> { if c.closed then c else Flushed(c) }

  function Closed<E>(c: Core<E>): Core<E> { Flushed(c).(closed := true) }

  function Flatten<E>(parts: seq<seq<E>>): seq<E> {
    if parts == [] then [] else parts[0] + Flatten(parts[1..])
  }

  lemma {:induction false} FlattenAppend<E>(parts: seq<seq<E>>, last: seq<E>)
    ensures Flatten(parts + [last]) == Flatten(parts) + last
  {
    if parts == [] {
      assert parts + [last] == [last];
    } else {
      FlattenAppend(parts[1..], last);
      assert (parts + [last])[1..] == parts[1..] + [last];
    }
  }

  /** A buffer cut into batches. */
  function Batches<E>(entries: seq<E>): seq<seq<E>>
    decreases |entries|
  {
    if |entries| > MAX_BATCH then [entries[..MAX_BATCH]] + Batches(entries[MAX_BATCH..])
    else if entries == [] then []
    else [entries]
  }

  /** The batches hold the entries in order; all are full but the last, which is not empty. */
  lemma {:induction false} BatchesAreFull<E>(entries: seq<E>)
    ensures var bs := Batches(entries);
            && Flatten(bs) == entries
            && (forall i :: 0 <= i < |bs| ==> 0 < |bs[i]| <= MAX_BATCH)
            && (forall i :: 0 <= i < |bs| - 1 ==> |bs[i]| == MAX_BATCH)
    decreases |entries|
  {
    if |entries| > MAX_BATCH {
      BatchesAreFull(entries[MAX_BATCH..]);
      assert Batches(entries)[1..] == Batches(entries[MAX_BATCH..]);
      assert entries == entries[..MAX_BATCH] + entries[MAX_BATCH..];
    } else if entries != [] {
      assert [entries][1..] == [];
    }
  }

  /** The batches for which a request can be made. */
  function Encoded<E>(batches: seq<seq<E>>, encodes: seq<E> -> bool): seq<seq<E>> {
    if batches == [] then []
    else (if encodes(batches[0]) then [batches[0]] else []) + Encoded(batches[1..], encodes)
  }

  /** The requests that are still to be made for the entries from `i` on. */
  function ToSend<E>(entries: seq<E>, i: nat, encodes: seq<E> -> bool): seq<seq<E>> {
    Encoded(Batches(if i < |entries| then entries[i..] else []), encodes)
  }

  lemma NextBatch<E>(entries: seq<E>, i: nat, end: nat, encodes: seq<E> -> bool)
    requires i < end <= |entries| && end - i <= MAX_BATCH && (end < |entries| ==> end - i == MAX_BATCH)
    ensures ToSend(entries, i, encodes) ==
            (if encodes(entries[i..end]) then [entries[i..end]] else []) + ToSend(entries, i + MAX_BATCH, encodes)
  {
    var left, batch := entries[i..], entries[i..end];
    if end < |entries| {
      assert left[..MAX_BATCH] == batch && left[MAX_BATCH..] == entries[end..];
      assert Batches(left)[1..] == Batches(entries[end..]);
    } else {
      assert left == batch;
      assert [batch][1..] == [];
    }
  }

  /** The requests once the batch up to `end` has been dealt with. */
  function WithBatch<E>(requests: seq<seq<E>>, batch: seq<E>, encodes: seq<E> -> bool): seq<seq<E>> {
    if encodes(batch) then requests + [batch] else requests
  }

  /** Dealing with a batch moves it from what is to be sent to what was sent. */
  lemma BatchMoves<E>(requests: seq<seq<E>>, entries: seq<E>, i: nat, end: nat, encodes: seq<E> -> bool)
    requires i < end <= |entries| && end - i <= MAX_BATCH && (end < |entries| ==> end - i == MAX_BATCH)
    ensures WithBatch(requests, entries[i..end], encodes) + ToSend(entries, i + MAX_BATCH, encodes) ==
            requests + ToSend(entries, i, encodes)
  {
    var batch, rest := entries[i..end], ToSend(entries, i + MAX_BATCH, encodes);
    NextBatch(entries, i, end, encodes);
    assert requests + ([batch] + rest) == (requests + [batch]) + rest;
    assert [] + rest == rest;
  }

  lemma AllToSend<E>(entries: seq<E>, encodes: seq<E> -> bool)
    ensures [] + ToSend(entries, 0, encodes) == Encoded(Batches(entries), encodes)
  {
    assert entries[0..] == entries;
  }

  lemma NoneToSend<E>(requests: seq<seq<E>>, entries: seq<E>, i: nat, encodes: seq<E> -> bool)
    requires |entries| <= i
    ensures requests + ToSend(entries, i, encodes) == requests
  {
  }

  class HttpLogStore<E> {
    var buf: seq<E>
    var closed: bool
    ghost var accepted: seq<E>
    ghost var drained: seq<seq<E>>

    constructor ()
      ensures View() == Core([], false, [], [])
    {
      buf, closed, accepted, drained := [], false, [], [];
    }

    ghost function View(): Core<E> reads this { Core(buf, closed, accepted, drained) }

    method Store(e: E) returns (ok: bool)
      modifies this
      ensures View() == Accepted(old(View()), e)
      ensures ok <==> !old(closed)
    {
      if closed {
        return false;
      }
      buf := buf + [e];
      accepted := accepted + [e];
      if |buf| >= FLUSH_SIZE {
        FlushLocked();
      }
      return true;
    }

    method TimerFlush()
      modifies this
      ensures View() == TimedOut(old(View()))
    {
      if closed {
        return;
      }
      FlushLocked();
    }

    method FlushLocked()
      modifies this
      ensures View() == Flushed(old(View()))
    {
      if |buf| == 0 {
        return;
      }
      drained := drained + [buf];
      buf := [];
    }

    /** Returns what is left for `Close` to send itself. */
    method Close() returns (remaining: seq<E>)
      modifies this
      ensures View() == Closed(old(View())) && remaining == old(buf)
    {
      closed := true;
      remaining := buf;
      if |remaining| > 0 {
        drained := drained + [remaining];
      }
      buf := [];
    }

    /** The requests that `send` makes, in order. */
    method Send(entries: seq<E>, encodes: seq<E> -> bool) returns (requests: seq<seq<E>>)
      ensures requests == Encoded(Batches(entries), encodes)
    {
      requests := [];
      var i := 0;
      AllToSend(entries, encodes);
      while i < |entries|
        invariant 0 <= i
        invariant requests + ToSend(entries, i, encodes) == Encoded(Batches(entries), encodes)
      {
        var end := i + MAX_BATCH;
        if end > |entries| {
          end := |entries|;
        }
        var batch := entries[i..end];
        BatchMoves(requests, entries, i, end, encodes);
        i := i + MAX_BATCH;
        if !encodes(batch) {
          continue;
        }
        requests := requests + [batch];
      }
      NoneToSend(requests, entries, i, encodes);
    }
  }

  // ---- Every interleaving of stores, timers, closes and senders ----

  /** A batch that a sender got to: posted in a request, or dropped because none could be made. */
  datatype Batch<E> = Batch(sender: nat, entries: seq<E>, posted: bool)

  /** `sent[i]` is how much of `drained[i]` its sender has gone through; `batches` are those of all senders. */
  datatype State<E> = State(core: Core<E>, sent: seq<nat>, batches: seq<Batch<E>>)

  datatype Action<E> = Store(e: E) | Timer | Close | SendNext(i: nat)

  function Start<E>(): State<E> { State(Core([], false, [], []), [], []) }

  /** Each newly drained buffer gets a sender that has done nothing. */
  function Spawn<E>(s: State<E>, c: Core<E>): State<E> {
    State(c, if |c.drained| == |s.core.drained| then s.sent else s.sent + [0], s.batches)
  }

  function Do<E>(encodes: seq<E> -> bool, s: State<E>, a: Action<E>): State<E> {
    match a
    case Store(e) => Spawn(s, Accepted(s.core, e))
    case Timer => Spawn(s, TimedOut(s.core))
    case Close => Spawn(s, Closed(s.core))
    case SendNext(i) =>
      if i >= |s.core.drained| || i >= |s.sent| || s.sent[i] >= |s.core.drained[i]| then s
      else
        var all, from := s.core.drained[i], s.sent[i];
        var end := if from + MAX_BATCH > |all| then |all| else from + MAX_BATCH;
        var batch := all[from..end];
        s.(sent := s.sent[i := end], batches := s.batches + [Batch(i, batch, encodes(batch))])
  }

  function Run<E>(encodes: seq<E> -> bool, s: State<E>, actions: seq<Action<E>>): State<E>
    decreases |actions|
  {
    if actions == [] then s else Run(encodes, Do(encodes, s, actions[0]), actions[1..])
  }

  ghost predicate CoreInv<E>(c: Core<E>) {
    && Flatten(c.drained) + c.buf == c.accepted
    && |c.buf| < FLUSH_SIZE
    && (c.closed ==> c.buf == [])
    && (forall i :: 0 <= i < |c.drained| ==> 0 < |c.drained[i]| <= FLUSH_SIZE)
  }

  /** The batch is its sender's whole buffer, and was posted if a request could be made for it. */
  ghost predicate WholeBuffer<E>(encodes: seq<E> -> bool, c: Core<E>, b: Batch<E>) {
    b.sender < |c.drained| && b.entries == c.drained[b.sender] && b.posted == encodes(b.entries)
  }

  /** A sender has either done nothing or gone through its whole buffer as one batch. */
  ghost predicate Inv<E>(encodes: seq<E> -> bool, s: State<E>) {
    && CoreInv(s.core)
    && |s.sent| == |s.core.drained|
    && (forall i :: 0 <= i < |s.sent| ==> s.sent[i] == 0 || s.sent[i] == |s.core.drained[i]|)
    && (forall n :: 0 <= n < |s.batches| ==>
          WholeBuffer(encodes, s.core, s.batches[n]))
    && (forall i :: 0 <= i < |s.sent| ==>
          (s.sent[i] != 0 <==> exists n :: 0 <= n < |s.batches| && s.batches[n].sender == i))
    && (forall m, n :: 0 <= m < n < |s.batches| ==> s.batches[m].sender != s.batches[n].sender)
  }

  lemma FlushKeeps<E>(c: Core<E>)
    requires Flatten(c.drained) + c.buf == c.accepted && |c.buf| <= FLUSH_SIZE
    requires forall i :: 0 <= i < |c.drained| ==> 0 < |c.drained[i]| <= FLUSH_SIZE
    ensures CoreInv(Flushed(c)) && Flushed(c).buf == [] && Flushed(c).accepted == c.accepted
  {
    FlattenAppend(c.drained, c.buf);
  }

  lemma CoreKeeps<E>(c: Core<E>, e: E)
    requires CoreInv(c)
    ensures CoreInv(Accepted(c, e)) && CoreInv(TimedOut(c)) && CoreInv(Closed(c))
  {
    FlushKeeps(c);
    var d := c.(buf := c.buf + [e], accepted := c.accepted + [e]);
    assert Flatten(c.drained) + (c.buf + [e]) == (Flatten(c.drained) + c.buf) + [e];
    FlushKeeps(d);
  }

  /** What a sender may refer to only grows. */
  lemma SpawnKeeps<E>(encodes: seq<E> -> bool, s: State<E>, c: Core<E>, b: seq<E>)
    requires Inv(encodes, s) && CoreInv(c) && (c.drained == s.core.drained || c.drained == s.core.drained + [b])
    ensures Inv(encodes, Spawn(s, c))
  {
  }

  lemma SendShape<E>(encodes: seq<E> -> bool, s: State<E>, i: nat)
    requires Inv(encodes, s) && i < |s.sent| && s.sent[i] < |s.core.drained[i]|
    ensures
      var all := s.core.drained[i];
      && s.sent[i] == 0
      && Do(encodes, s, SendNext(i)) == State(s.core, s.sent[i := |all|], s.batches + [Batch(i, all, encodes(all))])
  {
    var all := s.core.drained[i];
    assert all[0..|all|] == all;
  }

  lemma SendKeeps<E>(encodes: seq<E> -> bool, s: State<E>, i: nat)
    requires Inv(encodes, s)
    ensures Inv(encodes, Do(encodes, s, SendNext(i)))
  {
    if i < |s.sent| && s.sent[i] < |s.core.drained[i]| {
      var t := Do(encodes, s, SendNext(i));
      SendShape(encodes, s, i);
      forall j | 0 <= j < |t.sent|
        ensures t.sent[j] != 0 <==> exists n :: 0 <= n < |t.batches| && t.batches[n].sender == j
      {
        if j == i {
          assert t.batches[|s.batches|].sender == i;
        } else if s.sent[j] != 0 {
          var n :| 0 <= n < |s.batches| && s.batches[n].sender == j;
          assert t.batches[n].sender == j;
        }
      }
    }
  }

  lemma {:induction false} RunKeeps<E>(encodes: seq<E> -> bool, s: State<E>, actions: seq<Action<E>>)
    requires Inv(encodes, s)
    ensures Inv(encodes, Run(encodes, s, actions))
    decreases |actions|
  {
    if actions != [] {
      match actions[0] {
        case Store(e) =>
          CoreKeeps(s.core, e);
          SpawnKeeps(encodes, s, Accepted(s.core, e), s.core.buf + [e]);
        case Timer =>
          FlushKeeps(s.core);
          SpawnKeeps(encodes, s, TimedOut(s.core), s.core.buf);
        case Close =>
          FlushKeeps(s.core);
          SpawnKeeps(encodes, s, Closed(s.core), s.core.buf);
        case SendNext(i) => SendKeeps(encodes, s, i);
      }
      RunKeeps(encodes, Do(encodes, s, actions[0]), actions[1..]);
    }
  }

  /** In every interleaving nothing is lost, doubled or reordered on the way out of the buffer,
      the buffer is below the flush size whenever the lock is free, and is empty once closed. */
  lemma NothingIsLost<E>(encodes: seq<E> -> bool, actions: seq<Action<E>>)
    ensures
      var c := Run(encodes, Start(), actions).core;
      && Flatten(c.drained) + c.buf == c.accepted
      && |c.buf| < FLUSH_SIZE
      && (c.closed ==> c.buf == [])
  {
    RunKeeps(encodes, Start<E>(), actions);
  }

  /** After a close, whatever happens, nothing more is accepted and nothing is buffered. */
  lemma {:induction false} ClosedForGood<E>(encodes: seq<E> -> bool, s: State<E>, actions: seq<Action<E>>)
    requires Inv(encodes, s) && s.core.closed
    ensures
      var t := Run(encodes, s, actions);
      t.core.closed && t.core.accepted == s.core.accepted && t.core.drained == s.core.drained && t.core.buf == []
    decreases |actions|
  {
    if actions != [] {
      if actions[0].SendNext? {
        SendKeeps(encodes, s, actions[0].i);
      }
      ClosedForGood(encodes, Do(encodes, s, actions[0]), actions[1..]);
    }
  }

  /** Although `send` can split, every drained buffer is gone through whole, as one batch, at most
      once, and exactly once as soon as its sender has run: posted in a single request if a request
      can be made for it, and dropped otherwise. */
  lemma OneRequestPerBuffer<E>(encodes: seq<E> -> bool, actions: seq<Action<E>>, i: nat)
    requires i < |Run(encodes, Start(), actions).core.drained|
    ensures
      var s := Run(encodes, Start(), actions);
      && 0 < |s.core.drained[i]| <= FLUSH_SIZE
      && (forall n :: 0 <= n < |s.batches| && s.batches[n].sender == i ==>
            s.batches[n].entries == s.core.drained[i] && (s.batches[n].posted <==> encodes(s.core.drained[i])))
      && (forall m, n :: 0 <= m < n < |s.batches| ==> s.batches[m].sender != s.batches[n].sender)
    ensures
      var after := Do(encodes, Run(encodes, Start(), actions), SendNext(i)).batches;
      exists n :: 0 <= n < |after| && after[n].sender == i
  {
    RunKeeps(encodes, Start<E>(), actions);
    var s := Run(encodes, Start(), actions);
    SendKeeps(encodes, s, i);
    assert Do(encodes, s, SendNext(i)).sent[i] != 0;
  }

  // ---- Conservation all the way to the requests ----

  /** The entries of the batches that were posted, or of those that were dropped. */
  ghost function Handled<E>(batches: seq<Batch<E>>, posted: bool): multiset<E> {
    if batches == [] then multiset{}
    else
      var n := |batches| - 1;
      Handled(batches[..n], posted) + if batches[n].posted == posted then multiset(batches[n].entries) else multiset{}
  }

  /** Entries of drained buffers whose sender has not run yet. */
  ghost function Unsent<E>(drained: seq<seq<E>>, sent: seq<nat>): multiset<E>
    requires |drained| == |sent|
  {
    if drained == [] then multiset{}
    else
      var n := |drained| - 1;
      Unsent(drained[..n], sent[..n]) + if sent[n] == 0 then multiset(drained[n]) else multiset{}
  }

  ghost predicate Conserved<E>(s: State<E>) {
    && |s.sent| == |s.core.drained|
    && Handled(s.batches, true) + Handled(s.batches, false) + Unsent(s.core.drained, s.sent) ==
       multiset(Flatten(s.core.drained))
  }

  lemma {:induction false} SendMoves<E>(drained: seq<seq<E>>, sent: seq<nat>, i: nat, to: nat)
    requires |drained| == |sent| && i < |sent| && sent[i] == 0 && to > 0
    ensures Unsent(drained, sent) == Unsent(drained, sent[i := to]) + multiset(drained[i])
    decreases |drained|
  {
    var n := |drained| - 1;
    if i == n {
      assert sent[i := to][..n] == sent[..n];
    } else {
      SendMoves(drained[..n], sent[..n], i, to);
      assert sent[i := to][..n] == sent[..n][i := to];
    }
  }

  /** A drained buffer joins those that wait for their sender. */
  lemma SpawnConserves<E>(s: State<E>, c: Core<E>, b: seq<E>)
    requires Conserved(s) && (c.drained == s.core.drained || c.drained == s.core.drained + [b])
    ensures Conserved(Spawn(s, c))
  {
    if c.drained != s.core.drained {
      var t, n := Spawn(s, c), |s.core.drained|;
      FlattenAppend(s.core.drained, b);
      assert c.drained[..n] == s.core.drained && t.sent[..n] == s.sent;
    }
  }

  lemma HandledAlso<E>(batches: seq<Batch<E>>, b: Batch<E>)
    ensures Handled(batches + [b], true) + Handled(batches + [b], false) ==
            Handled(batches, true) + Handled(batches, false) + multiset(b.entries)
  {
    assert (batches + [b])[..|batches|] == batches;
  }

  lemma SendConserves<E>(encodes: seq<E> -> bool, s: State<E>, i: nat)
    requires Inv(encodes, s) && Conserved(s)
    ensures Conserved(Do(encodes, s, SendNext(i)))
  {
    if i < |s.sent| && s.sent[i] < |s.core.drained[i]| {
      var all := s.core.drained[i];
      SendShape(encodes, s, i);
      HandledAlso(s.batches, Batch(i, all, encodes(all)));
      SendMoves(s.core.drained, s.sent, i, |all|);
    }
  }

  lemma StepConserves<E>(encodes: seq<E> -> bool, s: State<E>, a: Action<E>)
    requires Inv(encodes, s) && Conserved(s)
    ensures Conserved(Do(encodes, s, a))
  {
    match a
    case Store(e) => SpawnConserves(s, Accepted(s.core, e), s.core.buf + [e]);
    case Timer => SpawnConserves(s, TimedOut(s.core), s.core.buf);
    case Close => SpawnConserves(s, Closed(s.core), s.core.buf);
    case SendNext(i) => SendConserves(encodes, s, i);
  }

  lemma {:induction false} RunConserves<E>(encodes: seq<E> -> bool, s: State<E>, actions: seq<Action<E>>)
    requires Inv(encodes, s) && Conserved(s)
    ensures Conserved(Run(encodes, s, actions)) && Inv(encodes, Run(encodes, s, actions))
    decreases |actions|
  {
    RunKeeps(encodes, s, actions);
    if actions != [] {
      RunKeeps(encodes, s, [actions[0]]);
      assert Run(encodes, s, [actions[0]]) == Do(encodes, s, actions[0]) by {
        assert [actions[0]][1..] == [];
      }
      StepConserves(encodes, s, actions[0]);
      RunConserves(encodes, Do(encodes, s, actions[0]), actions[1..]);
    }
  }

  /** At any moment of any interleaving, every accepted entry is in exactly one place: a request
      that was made, a batch dropped because none could be made, a buffer waiting for its sender, or
      the buffer under the lock. */
  lemma EveryEntryIsInOnePlace<E>(encodes: seq<E> -> bool, actions: seq<Action<E>>)
    ensures
      var s := Run(encodes, Start(), actions);
      && |s.sent| == |s.core.drained|
      && Handled(s.batches, true) + Handled(s.batches, false) + Unsent(s.core.drained, s.sent) + multiset(s.core.buf)
         == multiset(s.core.accepted)
  {
    RunConserves(encodes, Start<E>(), actions);
    var c := Run(encodes, Start(), actions).core;
    assert multiset(Flatten(c.drained) + c.buf) == multiset(Flatten(c.drained)) + multiset(c.buf);
  }
}
