/** Every interleaving of the critical sections of `CodeStore`. `ConsumeCode` gives up its
    lock while it asks the backend, so a call is up to three steps: the first section, the
    backend's reply, and the section after relocking. An interleaving is a sequence of
    actions; an action that is not enabled changes nothing. */
module CodeSingleUse {
  import opened Common
  import opened OAuthTypes
  import opened KeyedStore
  import opened Stores

  /** A call of `ConsumeCode` that is outside the lock. */
  datatype Call = Fetching(code: string) | Fetched(code: string, record: AuthCode)

  datatype State = State(
    codes: map<string, AuthCode>,
    now: Time,
    calls: map<nat, Call>,
    handed: seq<string>)  // codes returned by ConsumeCode, oldest first

  datatype Action =
    | Tick(to: Time)
    | PutCode(c: AuthCode)
    | MarkUsed(code: string)
    | Cleanup
    | Enter(id: nat, code: string)
    | Answer(id: nat, reply: Reply<AuthCode>)
    | Relock(id: nat)

  const Start := State(map[], 0, map[], [])

  function ClaimStep(s: State, codes: map<string, AuthCode>, code: string): State {
    s.(codes := Claimed(codes, code, s.now),
       handed := if Claim(codes, code, s.now).Some? then s.handed + [code] else s.handed)
  }

  function Do(s: State, a: Action): State {
    match a
    case Tick(to) => if s.now <= to then s.(now := to) else s
    case PutCode(c) => s.(codes := s.codes[c.code := c])
    case MarkUsed(code) => s.(codes := MarkedLocal(s.codes, code))
    case Cleanup => s.(codes := Live(s.codes, CodeDeadline, s.now))
    case Enter(id, code) =>
      if code in s.codes then ClaimStep(s, s.codes, code)
      else if id in s.calls then s
      else s.(calls := s.calls[id := Fetching(code)])
    case Answer(id, reply) =>
      if id !in s.calls || !s.calls[id].Fetching? then s
      else if reply.Found? then s.(calls := s.calls[id := Fetched(s.calls[id].code, reply.value)])
      else s.(calls := s.calls - {id})
    case Relock(id) =>
      if id !in s.calls || !s.calls[id].Fetched? then s
      else
        var call := s.calls[id];
        ClaimStep(s.(calls := s.calls - {id}), Adopted(s.codes, call.code, call.record), call.code)
  }

  function Run(s: State, actions: seq<Action>): State
    decreases |actions|
  {
    if actions == [] then s else Run(Do(s, actions[0]), actions[1..])
  }

  /** All that is asked of the world: a stored code was never handed out before, and the
      backend reports the expiry a code was saved with. It may fail, forget a code, or
      report any code as unused at any time. */
  predicate Honest(s: State, a: Action, expiry: string -> Time) {
    match a
    case PutCode(c) => c.code !in s.handed && c.expiresAt == expiry(c.code)
    case Answer(id, Found(c)) => id in s.calls ==> c.expiresAt == expiry(s.calls[id].code)
    case _ => true
  }

  predicate HonestRun(s: State, actions: seq<Action>, expiry: string -> Time)
    decreases |actions|
  {
    actions == [] || (Honest(s, actions[0], expiry) && HonestRun(Do(s, actions[0]), actions[1..], expiry))
  }

  /** A handed-out code is either held and marked used, or past its expiry. */
  predicate Spent(s: State, code: string, expiry: string -> Time) {
    (code in s.codes && s.codes[code].used) || s.now > expiry(code)
  }

  predicate Distinct(handed: seq<string>) {
    forall i, j :: 0 <= i < j < |handed| ==> handed[i] != handed[j]
  }

  ghost predicate Inv(s: State, expiry: string -> Time) {
    && (forall k :: k in s.codes ==> s.codes[k].expiresAt == expiry(k))
    && (forall id :: id in s.calls && s.calls[id].Fetched? ==> s.calls[id].record.expiresAt == expiry(s.calls[id].code))
    && (forall k :: k in s.handed ==> Spent(s, k, expiry))
    && Distinct(s.handed)
  }

  /** Whatever map the tail section runs on, a code it hands out was not handed out before. */
  lemma ClaimKeepsInv(s: State, codes: map<string, AuthCode>, code: string, expiry: string -> Time)
    requires Inv(s.(codes := codes), expiry)
    ensures Inv(ClaimStep(s, codes, code), expiry)
  {
    var before := s.(codes := codes);
    var after := ClaimStep(s, codes, code);
    if Claim(codes, code, s.now).Some? {
      assert code !in s.handed by {
        assert !Spent(before, code, expiry);
      }
      forall k | k in after.handed ensures Spent(after, k, expiry) {
        assert k in s.handed ==> Spent(before, k, expiry);
      }
    }
  }

  lemma StepKeepsInv(s: State, a: Action, expiry: string -> Time)
    requires Inv(s, expiry) && Honest(s, a, expiry)
    ensures Inv(Do(s, a), expiry)
  {
    var t := Do(s, a);
    match a
    case Enter(id, code) =>
      if code in s.codes {
        ClaimKeepsInv(s, s.codes, code, expiry);
      }
    case Relock(id) =>
      if id in s.calls && s.calls[id].Fetched? {
        var call := s.calls[id];
        var resumed := s.(calls := s.calls - {id});
        var codes := Adopted(s.codes, call.code, call.record);
        KeepsSpent(s, resumed.(codes := codes), expiry);
        ClaimKeepsInv(resumed, codes, call.code, expiry);
      }
    case _ => KeepsSpent(s, t, expiry);
  }

  lemma KeepsSpent(s: State, t: State, expiry: string -> Time)
    requires Inv(s, expiry)
    requires s.handed == t.handed && s.now <= t.now
    requires forall k :: k in s.handed && k in s.codes && s.codes[k].used ==>
               (k in t.codes && t.codes[k].used) || t.now > expiry(k)
    ensures forall k :: k in t.handed ==> Spent(t, k, expiry)
  {
    forall k | k in t.handed ensures Spent(t, k, expiry) {
      assert Spent(s, k, expiry);
    }
  }

  lemma {:induction false} RunKeepsInv(s: State, actions: seq<Action>, expiry: string -> Time)
    requires Inv(s, expiry) && HonestRun(s, actions, expiry)
    ensures Inv(Run(s, actions), expiry)
    decreases |actions|
  {
    if actions != [] {
      StepKeepsInv(s, actions[0], expiry);
      RunKeepsInv(Do(s, actions[0]), actions[1..], expiry);
    }
  }

  /** No interleaving hands the same code out twice, whatever the backend's calls do. */
  lemma CodesAreSingleUse(actions: seq<Action>, expiry: string -> Time)
    requires HonestRun(Start, actions, expiry)
    ensures Distinct(Run(Start, actions).handed)
  {
    RunKeepsInv(Start, actions, expiry);
  }

  /** In particular a code that was handed out, swept away by `Cleanup` and fetched again as
      unused is refused: the sweep can only have happened after its expiry. */
  lemma RefetchedCodeIsRefused(actions: seq<Action>, expiry: string -> Time, code: string, again: AuthCode)
    requires HonestRun(Start, actions, expiry)
    requires code in Run(Start, actions).handed
    requires again.expiresAt == expiry(code)
    ensures
      var s := Run(Start, actions);
      && Claim(Adopted(s.codes, code, again), code, s.now) == None
      && (code !in s.codes ==> s.now > again.expiresAt)
  {
    RunKeepsInv(Start, actions, expiry);
    assert Spent(Run(Start, actions), code, expiry);
  }

  /** The expiry the backend reports does matter: with one that postpones it, a code is
      handed out a second time. */
  lemma ExpiryMustBeReportedFaithfully(c: AuthCode)
    requires !c.used && 0 <= c.expiresAt
    ensures
      var s1 := Do(Start, PutCode(c));
      var s2 := Do(s1, Enter(0, c.code));
      var late := c.expiresAt + 1;
      var s3 := Do(s2, Tick(late));
      var s4 := Do(s3, Cleanup);
      var s5 := Do(s4, Enter(1, c.code));
      var s6 := Do(s5, Answer(1, Found(c.(expiresAt := late))));
      Do(s6, Relock(1)).handed == [c.code, c.code]
  {
    var late := c.expiresAt + 1;
    var s2 := Do(Do(Start, PutCode(c)), Enter(0, c.code));
    assert s2 == State(map[c.code := c.(used := true)], 0, map[], [c.code]);
    var s4 := Do(Do(s2, Tick(late)), Cleanup);
    assert s4 == State(map[], late, map[], [c.code]);
  }
}
