/** The retry loop of the Twitch Helix client (backend/twitchapi/helix.go) over its cached app access token
    (backend/twitchapi/token.go). */
module Helix {
  import opened Common

  const MAX_RETRIES := 4
  const EXPIRY_BUFFER: int := 60 * SECOND

  /** What comes back from one HTTP request. */
  datatype Reply = NetworkError | Status(code: int, decodes: bool) {
    predicate Unauthorized() {
      Status? && code == 401
    }

    predicate Overloaded() {
      Status? && (code == 429 || 500 <= code <= 599)
    }

    /** Whether another request may follow. */
    predicate MayRetry() {
      NetworkError? || Unauthorized() || Overloaded()
    }
  }

  /** The world outside, call by call: the clock at each use of the token cache, the answer to each token
      request (None for any failure, otherwise the instant the new token expires), the reply to each Helix
      request, and whether the sleep after it runs to its end. */
  datatype World = World(clock: nat -> int, grant: nat -> Option<int>, reply: nat -> Reply, sleeps: nat -> bool)

  datatype Outcome =
    | Success
    | NoToken
    | RefreshFailed
    | Network
    | Cancelled
    | Refused(code: int)
    | BadBody
    | AfterRetries // the return after the loop

  /** The token cache; a token is named by the number of the request that it answered. */
  datatype Cache = Cache(token: Option<nat>, expiresAt: int, uses: nat, asked: nat) {
    predicate Valid() {
      token.Some? ==> token.value < asked
    }

    predicate Live(w: World) {
      token.Some? && expiresAt - w.clock(uses) > EXPIRY_BUFFER
    }

    /** What Get answers. */
    function Token(w: World): Option<nat> {
      if Live(w) then token else if w.grant(asked).Some? then Some(asked) else None
    }

    /** The cache after Get. */
    function Used(w: World): Cache {
      if Live(w) then this.(uses := uses + 1)
      else if w.grant(asked).Some? then Cache(Some(asked), w.grant(asked).value, uses + 1, asked + 1)
      else this.(uses := uses + 1, asked := asked + 1)
    }

    function Cleared(): Cache {
      this.(token := None, expiresAt := 0)
    }
  }

  /** A request: the token it carried and how many tokens had been asked for by then. */
  datatype Sent = Sent(token: nat, asked: nat)

  /** One call of requestJSON on its way: the variables of the loop, the requests made, the requests whose
      response body was closed, and how often the token was thrown away. */
  datatype Call = Call(attempt: nat, refreshed: bool, cache: Cache, sent: seq<Sent>, closed: seq<nat>,
    forced: nat, outcome: Option<Outcome>)
  {
    predicate Running() {
      outcome.None? && attempt <= MAX_RETRIES
    }

    function Pause(w: World): Call
      requires sent != []
    {
      if w.sleeps(|sent| - 1) then this.(attempt := attempt + 1) else this.(outcome := Some(Cancelled))
    }

    function Answered(reply: Reply): Call
      requires reply.Status?
    {
      this.(outcome := Some(if reply.code != 200 then Refused(reply.code)
                            else if reply.decodes then Success else BadBody))
    }
  }

  function Start(cache: Cache): Call {
    Call(1, false, cache, [], [], 0, None)
  }

  /** The call after its next request went out. */
  function Request(w: World, c: Call): Call
    requires c.cache.Token(w).Some?
  {
    var cache := c.cache.Used(w);
    c.(cache := cache, sent := c.sent + [Sent(c.cache.Token(w).value, cache.asked)])
  }

  /** What the first 401 leads to; the counter is rolled back if it came on the last attempt. */
  function Renew(w: World, c: Call): Call {
    var cleared := c.cache.Cleared();
    var d := c.(cache := cleared.Used(w), forced := c.forced + 1);
    if cleared.Token(w).None? then d.(outcome := Some(RefreshFailed))
    else d.(refreshed := true, attempt := if c.attempt == MAX_RETRIES then c.attempt else c.attempt + 1)
  }

  /** What the reply to the last request leads to. */
  function Handle(w: World, c: Call): Call
    requires c.sent != []
  {
    var reply := w.reply(|c.sent| - 1);
    if reply.NetworkError? then
      if c.attempt == MAX_RETRIES then c.(outcome := Some(Network)) else c.Pause(w)
    else
      var d := c.(closed := c.closed + [|c.sent| - 1]);
      if reply.Unauthorized() && !c.refreshed then Renew(w, d)
      else if reply.Overloaded() && c.attempt < MAX_RETRIES then d.Pause(w)
      else d.Answered(reply)
  }

  /** One pass through the loop. */
  function Pass(w: World, c: Call): Call {
    if c.cache.Token(w).None? then c.(cache := c.cache.Used(w), outcome := Some(NoToken))
    else Handle(w, Request(w, c))
  }

  /** The whole loop. It ends although the counter is rolled back: that happens only once. */
  function Loop(w: World, c: Call): Call
    decreases c.outcome.None?, !c.refreshed, MAX_RETRIES - c.attempt
  {
    if c.Running() then Loop(w, Pass(w, c)) else c
  }

  lemma OnePass(w: World, c: Call, d: Call)
    requires c.Running() && c.cache.Token(w).Some? && d == Request(w, c)
    ensures d.Running() && d.sent != [] && Loop(w, c) == Loop(w, Handle(w, d))
  {
  }

  // ---- How long it goes on ----

  /** Before each pass one request went out per attempt, and one more after a refresh on the last attempt. */
  predicate InStep(c: Call) {
    && 1 <= c.attempt
    && c.forced == (if c.refreshed then 1 else 0)
    && (c.outcome.None? ==> c.attempt <= MAX_RETRIES)
    && (c.outcome.None? ==> (|c.sent| == c.attempt - 1 || (c.refreshed && |c.sent| == c.attempt)))
  }

  predicate Stopped(c: Call) {
    && c.outcome.Some? && c.outcome != Some(AfterRetries)
    && |c.sent| <= MAX_RETRIES + 1 && c.forced <= 1
    && (c.outcome == Some(Network) ==> |c.sent| >= MAX_RETRIES)
    && (c.outcome.value.Refused? && Status(c.outcome.value.code, true).Overloaded() ==> |c.sent| >= MAX_RETRIES)
  }

  lemma PassStaysInStep(w: World, c: Call)
    requires c.Running() && InStep(c)
    ensures Pass(w, c).outcome.None? ==> InStep(Pass(w, c))
    ensures Pass(w, c).outcome.Some? ==> Stopped(Pass(w, c))
  {
  }

  lemma {:induction false} LoopStops(w: World, c: Call)
    requires c.Running() && InStep(c)
    ensures Stopped(Loop(w, c))
    decreases c.outcome.None?, !c.refreshed, MAX_RETRIES - c.attempt
  {
    PassStaysInStep(w, c);
    if Pass(w, c).outcome.None? {
      LoopStops(w, Pass(w, c));
    }
  }

  /** A call makes at most one request more than the limit and throws the token away at most once; it never
      falls out of the loop, and gives up on a network or server error or rate limit only after the limit. */
  lemma CallsAreBounded(w: World, cache: Cache)
    ensures Stopped(Loop(w, Start(cache)))
  {
    LoopStops(w, Start(cache));
  }

  // ---- Response bodies ----

  /** The requests among the first n that got a response. */
  function Responses(w: World, n: nat): seq<nat> {
    if n == 0 then []
    else if w.reply(n - 1).Status? then Responses(w, n - 1) + [n - 1] else Responses(w, n - 1)
  }

  lemma {:induction false} LoopCloses(w: World, c: Call)
    requires c.closed == Responses(w, |c.sent|)
    ensures Loop(w, c).closed == Responses(w, |Loop(w, c).sent|)
    decreases c.outcome.None?, !c.refreshed, MAX_RETRIES - c.attempt
  {
    if c.Running() {
      LoopCloses(w, Pass(w, c));
    }
  }

  /** However a call ends, each response body was closed exactly once. */
  lemma EveryBodyIsClosedOnce(w: World, cache: Cache)
    ensures Loop(w, Start(cache)).closed == Responses(w, |Loop(w, Start(cache)).sent|)
  {
    LoopCloses(w, Start(cache));
  }

  // ---- What is retried and what is reported ----

  /** While the call is running every reply so far allowed a retry, and a 401 only if it is the one refresh. */
  predicate Retried(w: World, c: Call) {
    && (forall i | 0 <= i < |c.sent| :: w.reply(i).MayRetry())
    && (!c.refreshed ==> forall i | 0 <= i < |c.sent| :: !w.reply(i).Unauthorized())
    && (forall i, j | 0 <= i < j < |c.sent| :: !(w.reply(i).Unauthorized() && w.reply(j).Unauthorized()))
  }

  predicate Reported(w: World, c: Call) {
    && (forall i | 0 <= i < |c.sent| - 1 :: w.reply(i).MayRetry())
    && (forall i, j | 0 <= i < j < |c.sent| - 1 :: !(w.reply(i).Unauthorized() && w.reply(j).Unauthorized()))
    && c.outcome.Some?
    && (c.outcome.value.Success? || c.outcome.value.BadBody? || c.outcome.value.Refused? ==>
      (c.sent != [] && w.reply(|c.sent| - 1).Status?
       && (c.outcome.value.Success? <==> w.reply(|c.sent| - 1) == Status(200, true))
       && (c.outcome.value.BadBody? <==> w.reply(|c.sent| - 1) == Status(200, false))
       && (c.outcome.value.Refused? ==> w.reply(|c.sent| - 1).code == c.outcome.value.code != 200)))
    && (c.sent != [] && !w.reply(|c.sent| - 1).MayRetry() ==>
      (c.outcome.value.Success? || c.outcome.value.BadBody? || c.outcome.value.Refused?))
  }

  lemma PassRetries(w: World, c: Call)
    requires c.Running() && Retried(w, c)
    ensures Pass(w, c).outcome.None? ==> Retried(w, Pass(w, c))
    ensures Pass(w, c).outcome.Some? ==> Reported(w, Pass(w, c))
  {
  }

  lemma {:induction false} LoopReports(w: World, c: Call)
    requires c.Running() && InStep(c) && Retried(w, c)
    ensures Reported(w, Loop(w, c))
    decreases c.outcome.None?, !c.refreshed, MAX_RETRIES - c.attempt
  {
    PassRetries(w, c);
    PassStaysInStep(w, c);
    if Pass(w, c).outcome.None? {
      LoopReports(w, Pass(w, c));
    }
  }

  /** Only a network error, a rate limit, a server error or the first 401 is followed by another request; the
      result is that of the last reply, and a call succeeds exactly on a decodable 200. */
  lemma ResultIsTheLastReply(w: World, cache: Cache)
    ensures Reported(w, Loop(w, Start(cache)))
  {
    LoopReports(w, Start(cache));
  }

  // ---- What follows which reply ----

  /** Trouble that passes: a network error, a rate limit or a server error. */
  predicate Passing(reply: Reply) {
    reply.NetworkError? || reply.code == 429 || 500 <= reply.code <= 599
  }

  /** One of the first n requests got a 401. */
  predicate Saw401(w: World, n: nat) {
    n > 0 && (w.reply(n - 1).Unauthorized() || Saw401(w, n - 1))
  }

  /** Another request follows the reply to request i: after trouble that passes, if it was not the fourth attempt
      and the sleep ran to its end; after the first 401, if the request for a new token was granted. */
  predicate GoesOn(w: World, sent: seq<Sent>, i: nat)
    requires i < |sent|
  {
    if Passing(w.reply(i)) then i + 1 < 4 && w.sleeps(i)
    else w.reply(i).Unauthorized() && !Saw401(w, i) && w.grant(sent[i].asked).Some?
  }

  /** The call under way, by the requests made so far. */
  ghost predicate Follows(w: World, c: Call) {
    && |c.sent| <= 4 && c.attempt == (if |c.sent| < 4 then |c.sent| + 1 else 4) && (|c.sent| == 4 ==> c.refreshed)
    && (forall i | 0 <= i < |c.sent| :: GoesOn(w, c.sent, i))
    && (c.refreshed <==> Saw401(w, |c.sent|)) && c.forced == (if c.refreshed then 1 else 0)
  }

  /** How the call ended, by the reply to its last request. */
  ghost predicate Ends(w: World, c: Call) {
    var n := |c.sent|;
    && c.outcome.Some? && c.forced == (if Saw401(w, n) then 1 else 0)
    && (forall i | 0 <= i < n - 1 :: GoesOn(w, c.sent, i))
    && match c.outcome.value
       case NoToken => (n > 0 ==> GoesOn(w, c.sent, n - 1)) && c.cache.asked > 0 && w.grant(c.cache.asked - 1).None?
       case RefreshFailed =>
         n > 0 && w.reply(n - 1).Unauthorized() && !Saw401(w, n - 1) && w.grant(c.sent[n - 1].asked).None?
       case Network => n >= 4 && w.reply(n - 1).NetworkError?
       case Cancelled => 0 < n < 4 && Passing(w.reply(n - 1)) && !w.sleeps(n - 1)
       case Success => n > 0 && w.reply(n - 1) == Status(200, true)
       case BadBody => n > 0 && w.reply(n - 1) == Status(200, false)
       case Refused(code) =>
         && n > 0 && w.reply(n - 1).Status? && w.reply(n - 1).code == code != 200
         && (code == 401 ==> Saw401(w, n - 1)) && (Passing(w.reply(n - 1)) ==> n >= 4)
       case AfterRetries => false
  }

  /** The same with the next request made and its reply not yet looked at. */
  ghost predicate Awaits(w: World, d: Call) {
    && 0 < |d.sent| <= 5 && d.attempt == (if |d.sent| < 4 then |d.sent| else 4) && (|d.sent| == 5 ==> d.refreshed)
    && (forall i | 0 <= i < |d.sent| - 1 :: GoesOn(w, d.sent, i))
    && (d.refreshed <==> Saw401(w, |d.sent| - 1)) && d.forced == (if d.refreshed then 1 else 0)
    && d.cache.asked == d.sent[|d.sent| - 1].asked && d.outcome.None?
  }

  lemma RequestFollows(w: World, c: Call, d: Call)
    requires c.Running() && Follows(w, c) && c.cache.Token(w).Some? && d == Request(w, c)
    ensures Awaits(w, d)
  {
    forall i | 0 <= i < |c.sent| ensures GoesOn(w, d.sent, i) {
      assert GoesOn(w, c.sent, i) && d.sent[i] == c.sent[i];
    }
  }

  lemma HandleFollows(w: World, d: Call, e: Call)
    requires Awaits(w, d) && e == Handle(w, d) && e.outcome.None?
    ensures Follows(w, e)
  {
    assert e.sent == d.sent;
  }

  lemma HandleEnds(w: World, d: Call, e: Call)
    requires Awaits(w, d) && e == Handle(w, d) && e.outcome.Some?
    ensures Ends(w, e)
  {
    assert e.sent == d.sent;
  }

  lemma PassFollows(w: World, c: Call, e: Call)
    requires c.Running() && Follows(w, c) && e == Pass(w, c)
    ensures e.outcome.None? ==> Follows(w, e)
    ensures e.outcome.Some? ==> Ends(w, e)
  {
    if c.cache.Token(w).Some? {
      RequestFollows(w, c, Request(w, c));
      if e.outcome.None? {
        HandleFollows(w, Request(w, c), e);
      } else {
        HandleEnds(w, Request(w, c), e);
      }
    }
  }

  lemma {:induction false} LoopFollows(w: World, c: Call)
    requires c.Running() && Follows(w, c)
    ensures Ends(w, Loop(w, c))
    decreases c.outcome.None?, !c.refreshed, MAX_RETRIES - c.attempt
  {
    PassFollows(w, c, Pass(w, c));
    if Pass(w, c).outcome.None? {
      LoopFollows(w, Pass(w, c));
    }
  }

  /** The whole call, by the replies: which of them another request followed, when the token was thrown away, and
      what each outcome says about the last reply. */
  lemma RepliesDecide(w: World, cache: Cache)
    ensures Ends(w, Loop(w, Start(cache)))
  {
    LoopFollows(w, Start(cache));
  }

  lemma {:induction false} SawIff(w: World, n: nat)
    ensures Saw401(w, n) <==> exists i :: 0 <= i < n && w.reply(i).Unauthorized()
  {
    if n > 0 {
      SawIff(w, n - 1);
    }
  }

  /** A 401 is never simply reported: the token has been thrown away and asked for once, and a call that ends
      with a 401 had an earlier one. */
  lemma RefusalIsRefreshed(w: World, cache: Cache, i: nat)
    requires i < |Loop(w, Start(cache)).sent| && w.reply(i).Status? && w.reply(i).code == 401
    ensures Loop(w, Start(cache)).forced == 1
    ensures Loop(w, Start(cache)).outcome == Some(Refused(401)) ==>
      exists j :: 0 <= j < |Loop(w, Start(cache)).sent| - 1 && w.reply(j).Status? && w.reply(j).code == 401
  {
    var c := Loop(w, Start(cache));
    RepliesDecide(w, cache);
    SawIff(w, |c.sent|);
    SawIff(w, |c.sent| - 1);
  }

  // ---- Tokens after a 401 ----

  /** The requests after a 401 carry tokens asked for after it, and so will the next one. */
  predicate Renewed(w: World, c: Call) {
    && c.cache.Valid()
    && (forall i | 0 <= i < |c.sent| :: c.sent[i].asked <= c.cache.asked)
    && (c.outcome.None? ==> forall i | 0 <= i < |c.sent| && w.reply(i).Unauthorized() ::
      c.cache.token.Some? && c.cache.token.value >= c.sent[i].asked)
    && (forall i, j | 0 <= i < j < |c.sent| && w.reply(i).Unauthorized() :: c.sent[j].token >= c.sent[i].asked)
  }

  lemma RequestRenews(w: World, c: Call)
    requires c.Running() && Renewed(w, c) && c.cache.Token(w).Some?
    ensures var d := Request(w, c);
      && d.cache.Valid() && d.cache.token == Some(d.sent[|c.sent|].token)
      && (forall i | 0 <= i < |d.sent| :: d.sent[i].asked <= d.cache.asked)
      && (forall i | 0 <= i < |c.sent| && w.reply(i).Unauthorized() :: d.sent[|c.sent|].token >= d.sent[i].asked)
  {
  }

  lemma HandleRenews(w: World, c: Call)
    requires c.Running() && c.sent != [] && c.cache.Valid()
    ensures Handle(w, c).cache.Valid() && Handle(w, c).cache.asked >= c.cache.asked && Handle(w, c).sent == c.sent
    ensures !w.reply(|c.sent| - 1).Unauthorized() ==> Handle(w, c).cache == c.cache
    ensures w.reply(|c.sent| - 1).Unauthorized() && Handle(w, c).outcome.None? ==>
      Handle(w, c).cache.token == Some(c.cache.asked)
  {
  }

  lemma PassRenews(w: World, c: Call)
    requires c.Running() && Renewed(w, c)
    ensures Renewed(w, Pass(w, c))
  {
    if c.cache.Token(w).Some? {
      RequestRenews(w, c);
      HandleRenews(w, Request(w, c));
    }
  }

  lemma {:induction false} LoopRenews(w: World, c: Call)
    requires Renewed(w, c)
    ensures Renewed(w, Loop(w, c))
    decreases c.outcome.None?, !c.refreshed, MAX_RETRIES - c.attempt
  {
    if c.Running() {
      PassRenews(w, c);
      LoopRenews(w, Pass(w, c));
    }
  }

  /** Every request made after one that was refused with 401 carries a token that was asked for after it. */
  lemma NoTokenOutlivesARefusal(w: World, cache: Cache, i: nat, j: nat)
    requires cache.Valid()
    requires i < j < |Loop(w, Start(cache)).sent| && w.reply(i).Unauthorized()
    ensures Loop(w, Start(cache)).sent[j].token >= Loop(w, Start(cache)).sent[i].asked
  {
    LoopRenews(w, Start(cache));
  }

  // ---- The code ----

  class TokenSource {
    var token: Option<nat>
    var expiresAt: int
    var uses: nat
    var asked: nat

    function State(): Cache
      reads this
    {
      Cache(token, expiresAt, uses, asked)
    }

    constructor ()
      ensures State() == Cache(None, 0, 0, 0)
    {
      token, expiresAt, uses, asked := None, 0, 0, 0;
    }

    /** The cached token if it lives for more than a minute, a new one otherwise. */
    method Get(w: World) returns (r: Option<nat>)
      modifies this
      ensures r == old(State()).Token(w) && State() == old(State()).Used(w) && uses == old(uses) + 1
      ensures old(token).Some? && old(expiresAt) > w.clock(old(uses)) + 60 * SECOND ==>
        r == old(token) && asked == old(asked) && token == old(token) && expiresAt == old(expiresAt)
      ensures !(old(token).Some? && old(expiresAt) > w.clock(old(uses)) + 60 * SECOND) ==>
        && asked == old(asked) + 1 && (r.Some? <==> w.grant(old(asked)).Some?)
        && (r.Some? ==> r == token == Some(old(asked)) && Some(expiresAt) == w.grant(old(asked)))
    {
      var now := w.clock(uses);
      uses := uses + 1;
      if token.Some? && expiresAt - now > EXPIRY_BUFFER {
        return token;
      }
      var answer := w.grant(asked);
      asked := asked + 1;
      if answer.None? {
        return None;
      }
      token := Some(asked - 1);
      expiresAt := answer.value;
      return token;
    }

    method Clear()
      modifies this
      ensures State() == old(State()).Cleared()
    {
      token, expiresAt := None, 0;
    }
  }

  class Client {
    const source: TokenSource

    constructor (source: TokenSource)
      ensures this.source == source
    {
      this.source := source;
    }

    /** The part of requestJSON's loop that handles a reply; without an outcome the loop goes on. */
    method React(w: World, attempt: nat, refreshed: bool, sent: seq<Sent>, closed: seq<nat>, forced: nat)
      returns (r: Option<Outcome>, attempt': nat, refreshed': bool, closed': seq<nat>, forced': nat)
      requires sent != [] && attempt <= MAX_RETRIES
      modifies source
      ensures Call(attempt', refreshed', source.State(), sent, closed', forced', r)
           == Handle(w, Call(attempt, refreshed, old(source.State()), sent, closed, forced, None))
    {
      r, attempt', refreshed', closed', forced' := None, attempt, refreshed, closed, forced;
      var k := |sent| - 1;
      var reply := w.reply(k);
      if reply.NetworkError? {
        if attempt == MAX_RETRIES {
          r := Some(Network);
          return;
        }
        if !w.sleeps(k) {
          r := Some(Cancelled);
          return;
        }
        attempt' := attempt + 1;
        return;
      }
      if reply.code == 401 && !refreshed {
        closed' := closed + [k];
        source.Clear();
        forced' := forced + 1;
        var renewed := source.Get(w);
        if renewed.None? {
          r := Some(RefreshFailed);
          return;
        }
        refreshed' := true;
        if attempt == MAX_RETRIES {
          attempt' := attempt' - 1;
        }
        attempt' := attempt' + 1;
        return;
      }
      if (reply.code == 429 || 500 <= reply.code <= 599) && attempt < MAX_RETRIES {
        closed' := closed + [k];
        if !w.sleeps(k) {
          r := Some(Cancelled);
          return;
        }
        attempt' := attempt + 1;
        return;
      }
      if reply.code != 200 {
        closed' := closed + [k];
        r := Some(Refused(reply.code));
        return;
      }
      r := Some(if reply.decodes then Success else BadBody);
      closed' := closed + [k];
    }

    /** requestJSON. */
    method RequestJSON(w: World) returns (r: Outcome, sent: seq<Sent>, closed: seq<nat>, forced: nat)
      modifies source
      ensures var c := Loop(w, Start(old(source.State())));
        r == c.outcome.GetOr(AfterRetries) && sent == c.sent && closed == c.closed && forced == c.forced
        && source.State() == c.cache
    {
      var attempt: nat, refreshed := 1, false;
      sent, closed, forced := [], [], 0;
      ghost var whole := Loop(w, Start(source.State()));
      while attempt <= MAX_RETRIES
        invariant Loop(w, Call(attempt, refreshed, source.State(), sent, closed, forced, None)) == whole
        decreases !refreshed, MAX_RETRIES - attempt
      {
        ghost var c := Call(attempt, refreshed, source.State(), sent, closed, forced, None);
        var tok := source.Get(w);
        if tok.None? {
          assert Loop(w, c) == Pass(w, c);
          return NoToken, sent, closed, forced;
        }
        sent := sent + [Sent(tok.value, source.asked)];
        OnePass(w, c, Request(w, c));
        var end: Option<Outcome>;
        end, attempt, refreshed, closed, forced := React(w, attempt, refreshed, sent, closed, forced);
        if end.Some? {
          return end.value, sent, closed, forced;
        }
      }
      r := AfterRetries;
    }
  }
}
