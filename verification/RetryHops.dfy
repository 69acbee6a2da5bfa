/**
  One trip through the retry ladder (consumer.go, headers.go): a failed
  delivery is republished, expires on the retry queue, is dead-lettered by the
  broker and delivered again.
 */
module RetryHops {
  import opened Headers

  /** The properties a republish carries over (carriedProperties). */
  datatype Carried = Carried(contentType: string, contentEncoding: string, priority: nat, timestamp: int, typ: string, appId: string)

  datatype Message = Message(
    headers: Table,
    key: string,
    exchange: string,
    body: seq<int>,
    correlationId: string,
    messageId: string,
    replyTo: string,
    carried: Carried,
    persistent: bool,
    expiration: string,
    userId: string)

  /** What one attempt takes from outside: the clock, a fresh id, the error's summary. */
  datatype Env = Env(now: int, freshId: string, summary: string)

  /** A copy must not fan out to queues of the publisher's choosing. */
  function RepublishedHeaders(d: Message): Table {
    d.headers - {"CC", "BCC"}
  }

  function FirstFailure(d: Message, now: int): Value {
    if FIRST_FAILURE in d.headers && HeaderInt(d.headers[FIRST_FAILURE]).Some?
       && HeaderInt(d.headers[FIRST_FAILURE]).value != 0
    then d.headers[FIRST_FAILURE]
    else Signed(64, now)
  }

  /** publish gives a message without an id a fresh one. */
  function WithId(m: Message, freshId: string): Message {
    if m.messageId == "" then m.(messageId := freshId) else m
  }

  /** publishRetry. */
  function RetryCopy(d: Message, exchange: string, attempt: nat, env: Env): Message {
    WithId(
      Message(
        RepublishedHeaders(d)
        [RETRY_COUNT := IntHeader(attempt + 1)]
        [ORIGINAL_KEY := Label(d.key)]
        [FIRST_FAILURE := FirstFailure(d, env.now)]
        [LAST_ERROR := Label(env.summary)],
        d.key, exchange, d.body, d.correlationId, d.messageId, d.replyTo, d.carried, true, "", ""),
      env.freshId)
  }

  /** publishDeadLetter: no replyTo, nothing should answer from the DLQ. */
  function DeadLetterCopy(d: Message, queue: string, dlq: string, attempt: nat, env: Env): Message {
    WithId(
      Message(
        RepublishedHeaders(d)
        [RETRY_COUNT := IntHeader(attempt)]
        [ORIGINAL_KEY := Label(d.key)]
        [ORIGINAL_QUEUE := Label(queue)]
        [FIRST_FAILURE := FirstFailure(d, env.now)]
        [DEAD_LETTER_TIME := Signed(64, env.now)]
        [LAST_ERROR := Label(env.summary)],
        dlq, "", d.body, d.correlationId, d.messageId, "", d.carried, true, "", ""),
      env.freshId)
  }

  /** The broker dead-letters an expired message, under its own key unless the queue names one. */
  function Expired(m: Message, dlx: string, key: string): Message {
    var deaths := if X_DEATH in m.headers && m.headers[X_DEATH].Deaths? then m.headers[X_DEATH].count + 1 else 1;
    m.(headers := m.headers[X_DEATH := Deaths(deaths)], exchange := dlx, key := key)
  }

  /** A failed attempt comes back: retry copy, expiry, redelivery. */
  function Hop(d: Message, retryExchange: string, dlx: string, env: Env): Message {
    var copy := RetryCopy(d, retryExchange, RetryCount(d.headers), env);
    Expired(copy, dlx, copy.key)
  }

  /** Any number of hops. */
  function Hops(d: Message, retryExchange: string, dlx: string, envs: seq<Env>): Message
    decreases |envs|
  {
    if envs == [] then d
    else Hop(Hops(d, retryExchange, dlx, envs[..|envs| - 1]), retryExchange, dlx, envs[|envs| - 1])
  }

  // ---- hop invariance ----------------------------------------------------

  /** What the caller and the handlers rely on. */
  predicate SamePayload(a: Message, b: Message) {
    && a.key == b.key && a.body == b.body && a.correlationId == b.correlationId
    && a.replyTo == b.replyTo && a.carried == b.carried
  }

  predicate Stamped(h: Table) {
    FIRST_FAILURE in h && HeaderInt(h[FIRST_FAILURE]).Some? && HeaderInt(h[FIRST_FAILURE]).value != 0
  }

  lemma {:induction false} HopsKeepPayload(d: Message, rx: string, dlx: string, envs: seq<Env>)
    ensures var m := Hops(d, rx, dlx, envs);
      && SamePayload(d, m)
      && (d.messageId != "" ==> m.messageId == d.messageId)
      && (d.messageId == "" && |envs| > 0 && envs[0].freshId != "" ==> m.messageId == envs[0].freshId)
      && (|envs| > 0 ==> "CC" !in m.headers && "BCC" !in m.headers && m.persistent)
    decreases |envs|
  {
    if |envs| > 0 {
      HopsKeepPayload(d, rx, dlx, envs[..|envs| - 1]);
    }
  }

  /** The first hop fixes the first-failure time, unless the message arrived with one. */
  lemma {:induction false} FirstFailureFixed(d: Message, rx: string, dlx: string, envs: seq<Env>)
    requires |envs| > 0 && envs[0].now != 0
    ensures var m := Hops(d, rx, dlx, envs);
      Stamped(m.headers) && m.headers[FIRST_FAILURE] == FirstFailure(d, envs[0].now)
    decreases |envs|
  {
    if |envs| > 1 {
      FirstFailureFixed(d, rx, dlx, envs[..|envs| - 1]);
      assert envs[..|envs| - 1][0] == envs[0];
    } else {
      assert envs[..0] == [];
    }
  }

  // ---- the count ---------------------------------------------------------

  /** Every hop counts once, through the header, until the count clamps. */
  lemma HopCounts(d: Message, rx: string, dlx: string, env: Env)
    ensures RetryCount(Hop(d, rx, dlx, env).headers) ==
            if RetryCount(d.headers) < MAX_INT32 then RetryCount(d.headers) + 1 else MAX_INT32
  {
    var n := RetryCount(d.headers);
    RetryCountRoundTrip(RepublishedHeaders(d), n + 1);
    assert Hop(d, rx, dlx, env).headers[RETRY_COUNT] == IntHeader(n + 1);
  }

  lemma {:induction false} HopsCount(d: Message, rx: string, dlx: string, envs: seq<Env>)
    ensures RetryCount(Hops(d, rx, dlx, envs).headers) ==
            if RetryCount(d.headers) + |envs| <= MAX_INT32 then RetryCount(d.headers) + |envs| else MAX_INT32
    decreases |envs|
  {
    if |envs| > 0 {
      HopsCount(d, rx, dlx, envs[..|envs| - 1]);
      HopCounts(Hops(d, rx, dlx, envs[..|envs| - 1]), rx, dlx, envs[|envs| - 1]);
    }
  }

  // ---- the ladder --------------------------------------------------------

  /** Some number of hops brings an always-failing message to the dead-letter branch. */
  ghost predicate LadderEnds(d: Message, rx: string, dlx: string, maxRetries: nat) {
    exists envs :: RetryCount(Hops(d, rx, dlx, envs).headers) >= maxRetries
  }

  /** The ladder ends if and only if the count can reach MaxRetries before it clamps. */
  lemma LadderEndsIff(d: Message, rx: string, dlx: string, maxRetries: nat)
    ensures LadderEnds(d, rx, dlx, maxRetries) <==> maxRetries <= MAX_INT32
  {
    HopsCount(d, rx, dlx, seq(maxRetries, _ => Env(1, "id", "")));
    if envs :| RetryCount(Hops(d, rx, dlx, envs).headers) >= maxRetries {
      HopsCount(d, rx, dlx, envs);
    }
  }
}
