/** The caching token source and the clients that share it: who logs in, which token a caller
    gets, and how often a request is sent. */
module Token {
  import opened Prelude

  const MARGIN: int := 60_000_000_000
  const UNAUTHORIZED: int := 401

  /** What a successful login hands out; a ttl that is not positive means unknown. */
  datatype Grant = Grant(token: string, ttl: int)

  /** The cached token ("" for none) and when to renew it. */
  datatype Source = Source(token: string, expiresAt: Option<int>)

  /** One call of Token at time `now`: the token the caller saw rejected ("" for none), what a
      login would answer, and the time by which it has answered. */
  datatype Call = Call(stale: string, now: int, login: Option<Grant>, later: int)

  function Expiry(ttl: int, now: int): Option<int> {
    if ttl <= 0 then None
    else Some(now + if ttl > MARGIN then ttl - MARGIN else ttl)
  }

  predicate Expired(s: Source, now: int) {
    s.expiresAt.Some? && now >= s.expiresAt.value
  }

  /** The cached token answers the call: to a caller with no complaint while it has not
      expired, to one with a rejected token when it is another one. */
  predicate Reuses(s: Source, c: Call) {
    && s.token != ""
    && if c.stale == "" then !Expired(s, c.now) else s.token != c.stale
  }

  predicate LogsIn(s: Source, c: Call) {
    !Reuses(s, c) && c.login.Some?
  }

  function After(s: Source, c: Call): Source {
    if LogsIn(s, c) then Source(c.login.value.token, Expiry(c.login.value.ttl, c.later)) else s
  }

  /** The token handed out; None when the login failed. */
  function Given(s: Source, c: Call): Option<string> {
    if Reuses(s, c) then Some(s.token)
    else if c.login.Some? then Some(c.login.value.token)
    else None
  }

  class CachingTokenSource {
    var token: string
    var expiresAt: Option<int>

    function View(): Source
      reads this
    {
      Source(token, expiresAt)
    }

    constructor ()
      ensures View() == Source("", None)
    {
      token, expiresAt := "", None;
    }

    method Token(c: Call) returns (r: Option<string>)
      modifies this
      ensures View() == After(old(View()), c)
      ensures r == Given(old(View()), c)
    {
      var forced := c.stale != "";
      if !forced && token != "" && !(expiresAt.Some? && c.now >= expiresAt.value) {
        return Some(token);
      }
      if forced && token != "" && token != c.stale {
        return Some(token);
      }
      if c.login.None? {
        return None;
      }
      token := c.login.value.token;
      SetExpiry(c.login.value.ttl, c.later);
      return Some(token);
    }

    method SetExpiry(ttl: int, now: int)
      modifies this`expiresAt
      ensures expiresAt == Expiry(ttl, now)
    {
      if ttl <= 0 {
        expiresAt := None;
        return;
      }
      var left := ttl;
      if left > MARGIN {
        left := left - MARGIN;
      }
      expiresAt := Some(now + left);
    }
  }

  // ----- Clients sharing one source -----

  /** The answer to a request: a status, or a transport error. */
  datatype Reply = Status(code: int) | Broken

  /** Refused: the first request came back 401 and is to be sent again. */
  datatype Stage = Start | Waiting | Refused | Finished

  /** One call of DoJSON or DoWithTokenRetry: the tokens it sent, one per request, and the
      answers it got. */
  datatype Client = Client(stage: Stage, sent: seq<string>, answers: seq<Reply>)

  datatype Mint = Mint(at: int, ttl: int)

  /** The source, its clients, and two histories: when each token was minted, and the rejected
      tokens for which a caller logged in again. */
  datatype State = State(source: Source, clients: map<nat, Client>, minted: map<string, Mint>, spent: seq<string>)

  datatype Event =
    | Begin(id: nat)
    | Ask(id: nat, call: Call)
    | Answer(id: nat, reply: Reply)

  const INIT := State(Source("", None), map[], map[], [])

  /** The token a client complains about when it next asks. */
  function Complaint(c: Client): string {
    if c.stage == Refused && c.sent != [] then c.sent[|c.sent| - 1] else ""
  }

  /** A login never hands out the empty token, nor one it handed out before. */
  predicate FreshLogin(s: State, call: Call) {
    call.login.Some? ==> call.login.value.token != "" && call.login.value.token !in s.minted
  }

  predicate Enabled(s: State, e: Event) {
    match e
    case Begin(id) => id !in s.clients
    case Ask(id, call) =>
      && id in s.clients && s.clients[id].stage in {Start, Refused}
      && call.stale == Complaint(s.clients[id]) && FreshLogin(s, call)
    case Answer(id, _) => id in s.clients && s.clients[id].stage == Waiting
  }

  function Asked(c: Client, given: Option<string>): Client {
    if given.None? then c.(stage := Finished) else c.(stage := Waiting, sent := c.sent + [given.value])
  }

  function Answered(c: Client, reply: Reply): Client {
    var again := |c.sent| == 1 && reply == Status(UNAUTHORIZED);
    c.(stage := if again then Refused else Finished, answers := c.answers + [reply])
  }

  function Apply(s: State, e: Event): State
    requires Enabled(s, e)
  {
    match e
    case Begin(id) => s.(clients := s.clients[id := Client(Start, [], [])])
    case Answer(id, reply) => s.(clients := s.clients[id := Answered(s.clients[id], reply)])
    case Ask(id, call) =>
      var loggedIn := LogsIn(s.source, call);
      s.(source := After(s.source, call),
         clients := s.clients[id := Asked(s.clients[id], Given(s.source, call))],
         minted := if loggedIn then s.minted[call.login.value.token := Mint(call.later, call.login.value.ttl)] else s.minted,
         spent := if loggedIn && call.stale != "" then s.spent + [call.stale] else s.spent)
  }

  predicate Possible(evs: seq<Event>)
    decreases |evs|, 0
  {
    evs == [] || (Possible(Front(evs)) && Enabled(Run(Front(evs)), evs[|evs| - 1]))
  }

  function Run(evs: seq<Event>): State
    requires Possible(evs)
    decreases |evs|, 1
  {
    if evs == [] then INIT else Apply(Run(Front(evs)), evs[|evs| - 1])
  }

  // ----- Invariant -----

  ghost predicate SourceOk(s: State) {
    && "" !in s.minted
    && if s.source.token == "" then s.minted == map[]
       else
         && s.source.token in s.minted
         && s.source.expiresAt == Expiry(s.minted[s.source.token].ttl, s.minted[s.source.token].at)
  }

  ghost predicate SpentOk(s: State) {
    && NoDup(s.spent)
    && forall t :: t in s.spent ==> t in s.minted && t != s.source.token
  }

  /** A client sends one request, and a second one exactly when the first came back 401 and
      another token could be had for it. */
  predicate ClientOk(c: Client, minted: map<string, Mint>) {
    && (forall t :: t in c.sent ==> t in minted)
    && |c.sent| <= 2 && |c.answers| <= |c.sent|
    && (|c.answers| < |c.sent| <==> c.stage == Waiting)
    && (c.stage == Start ==> |c.sent| == 0)
    && (c.stage == Refused ==> |c.sent| == 1)
    && (c.stage == Refused || |c.sent| == 2 ==> c.answers != [] && c.answers[0] == Status(UNAUTHORIZED))
    && (|c.sent| == 2 ==> c.sent[0] != c.sent[1])
  }

  predicate Rejected(c: Client, t: string) {
    |c.sent| > 0 && |c.answers| > 0 && c.sent[0] == t && c.answers[0] == Status(UNAUTHORIZED)
  }

  ghost predicate ClientsOk(s: State) {
    forall id :: id in s.clients ==> ClientOk(s.clients[id], s.minted)
  }

  ghost predicate Blamed(s: State) {
    forall t :: t in s.spent ==> exists id :: id in s.clients && Rejected(s.clients[id], t)
  }

  ghost predicate Inv(s: State) {
    SourceOk(s) && SpentOk(s) && ClientsOk(s) && Blamed(s)
  }

  lemma StepSource(s: State, e: Event)
    requires Inv(s) && Enabled(s, e)
    ensures SourceOk(Apply(s, e)) && SpentOk(Apply(s, e))
  {
    if e.Ask? {
      assert ClientOk(s.clients[e.id], s.minted);
      assert e.call.stale != "" ==> e.call.stale in s.clients[e.id].sent;
      var s' := Apply(s, e);
      if s'.spent != s.spent {
        assert e.call.stale !in s.spent;
      }
    }
  }

  lemma StepClients(s: State, e: Event)
    requires Inv(s) && Enabled(s, e)
    ensures ClientsOk(Apply(s, e))
  {
    var s' := Apply(s, e);
    forall id | id in s'.clients
      ensures ClientOk(s'.clients[id], s'.minted)
    {
      if id in s.clients {
        assert ClientOk(s.clients[id], s.minted);
      }
    }
  }

  lemma StepBlamed(s: State, e: Event)
    requires Inv(s) && Enabled(s, e)
    ensures Blamed(Apply(s, e))
  {
    var s' := Apply(s, e);
    forall t | t in s'.spent
      ensures exists id :: id in s'.clients && Rejected(s'.clients[id], t)
    {
      var id: nat;
      if t in s.spent {
        id :| id in s.clients && Rejected(s.clients[id], t);
      } else {
        id := e.id;
        assert ClientOk(s.clients[id], s.minted);
      }
      assert Rejected(s'.clients[id], t);
    }
  }

  lemma {:induction false} RunInv(evs: seq<Event>)
    requires Possible(evs)
    ensures Inv(Run(evs))
  {
    if evs != [] {
      var s, e := Run(Front(evs)), evs[|evs| - 1];
      RunInv(Front(evs));
      StepSource(s, e);
      StepClients(s, e);
      StepBlamed(s, e);
    }
  }

  // ----- Main results -----

  /** However the calls of any number of clients interleave, all the callers turned away with
      the same token cause at most one successful login between them: the logins made on a
      complaint are no more than the tokens some client saw rejected. */
  lemma OneLoginPerRejectedToken(evs: seq<Event>)
    requires Possible(evs)
    ensures NoDup(Run(evs).spent)
    ensures forall t :: t in Run(evs).spent ==> exists id :: id in Run(evs).clients && Rejected(Run(evs).clients[id], t)
  {
    RunInv(evs);
  }

  /** Fresh tokens are needed for that: with a login that hands the rejected token out again,
      every complaint about it logs in again. */
  lemma RepeatedTokenDefeatsTheGuard(s: Source, c: Call, d: Call)
    requires s.token == c.stale == d.stale != ""
    requires c.login.Some? && c.login.value.token == c.stale && d.login.Some?
    ensures LogsIn(s, c) && LogsIn(After(s, c), d)
  {
  }

  /** A call sends its request at most twice, the second time only after a 401 for the first,
      and then with another token; so what it reports is never the same token rejected twice. */
  lemma AtMostOneRetry(evs: seq<Event>, id: nat)
    requires Possible(evs) && id in Run(evs).clients
    ensures var c := Run(evs).clients[id];
      && |c.sent| <= 2
      && (|c.sent| == 2 ==> c.answers != [] && c.answers[0] == Status(401) && c.sent[1] != c.sent[0])
      && (c.stage == Finished && c.answers == [Status(401)] && |c.sent| == 1 ==> LoginFailedFor(evs, id))
  {
    RunInv(evs);
    assert ClientOk(Run(evs).clients[id], Run(evs).minted);
    UnretriedMeans(evs, id);
  }

  /** At some step of the run the client, turned away, asked for another token in vain. */
  ghost predicate LoginFailedFor(evs: seq<Event>, id: nat) {
    exists k :: 0 <= k < |evs| && FailsFor(evs[k], id)
  }

  predicate FailsFor(e: Event, id: nat) {
    e.Ask? && e.id == id && e.call.stale != "" && e.call.login.None?
  }

  lemma {:induction false} UnretriedMeans(evs: seq<Event>, id: nat)
    requires Possible(evs) && id in Run(evs).clients
    ensures var c := Run(evs).clients[id];
      c.stage == Finished && c.answers == [Status(UNAUTHORIZED)] && |c.sent| == 1 ==> LoginFailedFor(evs, id)
  {
    if evs != [] {
      var was, e := Front(evs), evs[|evs| - 1];
      RunInv(was);
      if id in Run(was).clients {
        UnretriedMeans(was, id);
        assert ClientOk(Run(was).clients[id], Run(was).minted);
        var c := Run(was).clients[id];
        assert c.sent != [] ==> c.sent[0] in c.sent && c.sent[0] != "";
        assert e.Answer? && e.id == id ==> Run(evs).clients[id] == Answered(c, e.reply);
        assert e.Answer? && |c.answers| == 0 ==> (c.answers + [e.reply])[0] == e.reply;
        assert e.Ask? && e.id == id ==> Run(evs).clients[id] == Asked(c, Given(Run(was).source, e.call));
        assert e.id != id ==> Run(evs).clients[id] == c;
        if LoginFailedFor(was, id) {
          var k :| 0 <= k < |was| && FailsFor(was[k], id);
          assert FailsFor(evs[k], id);
        }
        if FailsFor(e, id) {
          assert FailsFor(evs[|evs| - 1], id);
        }
      }
    }
  }

  /** A caller with no complaint never gets a token past its recorded expiry, and one granted
      for longer than a minute still has more than a minute to run. */
  lemma UnforcedTokensHaveTimeLeft(evs: seq<Event>, e: Event)
    requires Possible(evs) && Enabled(Run(evs), e) && e.Ask? && e.call.stale == ""
    requires Given(Run(evs).source, e.call).Some?
    ensures var t := Given(Run(evs).source, e.call).value;
      var reused := Reuses(Run(evs).source, e.call);
      var now := if reused then e.call.now else e.call.later;
      var minted := Apply(Run(evs), e).minted;
      && t in minted && (reused <==> t in Run(evs).minted)
      && (minted[t].ttl > 0 ==> now < minted[t].at + minted[t].ttl)
      && (minted[t].ttl > 60_000_000_000 ==> minted[t].at + minted[t].ttl - now > 60_000_000_000)
  {
    RunInv(evs);
  }

  /** A source logs in on its own account only when it has no token or an expired one. */
  lemma UncalledForLogins(evs: seq<Event>, e: Event)
    requires Possible(evs) && Enabled(Run(evs), e) && e.Ask? && LogsIn(Run(evs).source, e.call)
    ensures var s := Run(evs);
      if e.call.stale == "" then
        s.minted == map[] ||
          exists t :: t in s.minted && t == s.source.token && s.minted[t].ttl > 0
            && e.call.now >= s.minted[t].at + s.minted[t].ttl - (if s.minted[t].ttl > 60_000_000_000 then 60_000_000_000 else 0)
      else s.source.token == e.call.stale
  {
    RunInv(evs);
    assert ClientOk(Run(evs).clients[e.id], Run(evs).minted);
    assert e.call.stale != "" ==> e.call.stale in Run(evs).clients[e.id].sent;
  }
}
