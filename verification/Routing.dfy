/**
  Exchanges, bindings and queue arguments: how the broker routes a publish
  (internal/fakebroker/broker.go) and what services and listeners declare for
  their retries (service.go, eventlistener.go).
 */
module Routing {
  import opened Basics
  import opened Topics

  datatype Kind = Fanout | Direct | Topic
  datatype Binding = Binding(queue: string, key: string)
  datatype Exchange = Exchange(kind: Kind, bindings: seq<Binding>)

  /** The queue arguments that matter to routing: expiry and where it leads. */
  datatype QueueArgs = QueueArgs(ttl: Option<nat>, dlx: Option<string>, dlxKey: Option<string>)

  const PLAIN := QueueArgs(None, None, None)

  datatype Topology = Topology(exchanges: map<string, Exchange>, queues: map<string, QueueArgs>)

  // ---- routing a publish -------------------------------------------------

  predicate Hit(kind: Kind, bindingKey: string, key: string) {
    match kind
    case Fanout => true
    case Direct => bindingKey == key
    case Topic => TopicMatch(Split(bindingKey), Split(key))
  }

  /** The queues a publish reaches: by name on the default exchange, else through a hit binding. */
  ghost predicate Reaches(t: Topology, exchange: string, key: string, q: string) {
    && q in t.queues
    && if exchange == "" then q == key
       else
         && exchange in t.exchanges
         && exists i | 0 <= i < |t.exchanges[exchange].bindings| ::
              && t.exchanges[exchange].bindings[i].queue == q
              && Hit(t.exchanges[exchange].kind, t.exchanges[exchange].bindings[i].key, key)
  }

  /** route: scan the bindings, each queue once. */
  method Targets(t: Topology, exchange: string, key: string) returns (targets: seq<string>)
    requires exchange == "" || exchange in t.exchanges
    ensures forall q :: q in targets <==> Reaches(t, exchange, key, q)
    ensures forall i, j | 0 <= i < j < |targets| :: targets[i] != targets[j]
  {
    targets := [];
    if exchange == "" {
      if key in t.queues {
        targets := [key];
      }
      return;
    }
    var ex := t.exchanges[exchange];
    for n := 0 to |ex.bindings|
      invariant forall i, j | 0 <= i < j < |targets| :: targets[i] != targets[j]
      invariant forall q :: q in targets <==> q in t.queues && exists i | 0 <= i < n ::
        ex.bindings[i].queue == q && Hit(ex.kind, ex.bindings[i].key, key)
    {
      var bd := ex.bindings[n];
      if bd.queue in t.queues && bd.queue !in targets && Hit(ex.kind, bd.key, key) {
        targets := targets + [bd.queue];
      }
    }
  }

  // ---- declarations ------------------------------------------------------

  datatype Declare =
    | DeclareExchange(name: string, kind: Kind)
    | DeclareQueue(name: string, args: QueueArgs)
    | BindQueue(queue: string, key: string, exchange: string)

  /** An inequivalent redeclaration, or a bind to something missing, fails and changes nothing. */
  predicate Accepted(t: Topology, d: Declare) {
    match d
    case DeclareExchange(name, kind) => name in t.exchanges ==> t.exchanges[name].kind == kind
    case DeclareQueue(name, args) => name in t.queues ==> t.queues[name] == args
    case BindQueue(queue, _, exchange) => exchange != "" && exchange in t.exchanges && queue in t.queues
  }

  function Apply(t: Topology, d: Declare): Topology {
    if !Accepted(t, d) then t
    else
      match d
      case DeclareExchange(name, kind) =>
        if name in t.exchanges then t else t.(exchanges := t.exchanges[name := Exchange(kind, [])])
      case DeclareQueue(name, args) => t.(queues := t.queues[name := args])
      case BindQueue(queue, key, exchange) =>
        var ex := t.exchanges[exchange];
        if Binding(queue, key) in ex.bindings then t
        else t.(exchanges := t.exchanges[exchange := ex.(bindings := ex.bindings + [Binding(queue, key)])])
  }

  function ApplyAll(t: Topology, ds: seq<Declare>): Topology
    decreases |ds|
  {
    if ds == [] then t else ApplyAll(Apply(t, ds[0]), ds[1..])
  }

  /** Every step of ds succeeds in turn. */
  predicate AllAccepted(t: Topology, ds: seq<Declare>)
    decreases |ds|
  {
    ds == [] || (Accepted(t, ds[0]) && AllAccepted(Apply(t, ds[0]), ds[1..]))
  }

  /** The configured exchanges. */
  datatype Config = Config(bus: string, callbacks: string, events: string, cancel: string)

  const RETRY := ".Retry"
  const RETRY_EXCHANGE := ".Retry.Exchange"
  const REDELIVERY := ".Redelivery"
  const DLQ := ".DLQ"

  function RequestBinding(name: string): string { "REQUEST." + name + ".*" }

  /** declareRetryTopology. */
  function RetryDeclares(base: string, delay: nat, deadLetterTo: string): seq<Declare> {
    [DeclareQueue(base + DLQ, PLAIN),
     DeclareQueue(base + RETRY, QueueArgs(Some(delay), Some(deadLetterTo), None)),
     DeclareExchange(base + RETRY_EXCHANGE, Topic),
     BindQueue(base + RETRY, "#", base + RETRY_EXCHANGE)]
  }

  /** What starting a service with retries declares. */
  function ServiceDeclares(cfg: Config, name: string, delay: nat): seq<Declare> {
    [DeclareExchange(cfg.bus, Topic),
     DeclareQueue(name, PLAIN),
     BindQueue(name, RequestBinding(name), cfg.bus)]
    + RetryDeclares(name, delay, cfg.bus)
  }

  function PatternBinds(cfg: Config, queue: string, patterns: seq<string>): (ds: seq<Declare>)
    ensures |ds| == |patterns| && forall i | 0 <= i < |ds| :: ds[i] == BindQueue(queue, patterns[i], cfg.events)
  {
    seq(|patterns|, i requires 0 <= i < |patterns| => BindQueue(queue, patterns[i], cfg.events))
  }

  /** What starting an event listener with retries declares. */
  function ListenerDeclares(cfg: Config, queue: string, patterns: seq<string>, delay: nat): seq<Declare> {
    [DeclareExchange(cfg.events, Topic),
     DeclareQueue(queue, PLAIN)]
    + PatternBinds(cfg, queue, patterns)
    + [DeclareExchange(queue + REDELIVERY, Topic),
       BindQueue(queue, "#", queue + REDELIVERY)]
    + RetryDeclares(queue, delay, queue + REDELIVERY)
  }

  /** Every bind any protobus component makes. */
  ghost predicate Protobus(cfg: Config, d: Declare) {
    match d
    case BindQueue(q, key, ex) =>
      || (ex == cfg.bus && key == RequestBinding(q) && PlainName(q))
      || ex == cfg.events || ex == cfg.callbacks || ex == cfg.cancel
      || (ex == q + REDELIVERY && key == "#")
      || (exists base :: q == base + RETRY && ex == base + RETRY_EXCHANGE && key == "#")
    case DeclareExchange(name, kind) => kind == KindOf(cfg, name)
    case DeclareQueue(_, _) => true
  }

  function KindOf(cfg: Config, name: string): Kind {
    if name == cfg.callbacks then Direct else if name == cfg.cancel then Fanout else Topic
  }

  /** A service name is dotted words without wildcards. */
  predicate PlainName(name: string) {
    "*" !in Split(name) && "#" !in Split(name)
  }

  predicate EndsWith(s: string, suffix: string) {
    |s| >= |suffix| && s[|s| - |suffix|..] == suffix
  }

  /** The configured names are distinct and are not retry exchanges themselves. */
  predicate ConfigOk(cfg: Config) {
    && cfg.bus != cfg.events && cfg.bus != cfg.callbacks && cfg.bus != cfg.cancel
    && cfg.events != cfg.callbacks && cfg.events != cfg.cancel && cfg.callbacks != cfg.cancel
    && NotRetryName(cfg.bus) && NotRetryName(cfg.events) && NotRetryName(cfg.callbacks) && NotRetryName(cfg.cancel)
  }

  predicate NotRetryName(s: string) {
    !EndsWith(s, REDELIVERY) && !EndsWith(s, RETRY_EXCHANGE) && s != ""
  }

  // ---- names -------------------------------------------------------------

  lemma SuffixInjective(a: string, b: string, suffix: string)
    requires a + suffix == b + suffix
    ensures a == b
  {
    assert |a| == |b|;
    assert a == (a + suffix)[..|a|] && b == (b + suffix)[..|b|];
  }

  lemma SuffixesDiffer(a: string, b: string)
    ensures a + REDELIVERY != b + RETRY_EXCHANGE
  {
    var x, y := a + REDELIVERY, b + RETRY_EXCHANGE;
    assert x[|x| - 1] == 'y' && y[|y| - 1] == 'e';
  }

  lemma HasSuffix(a: string, suffix: string)
    ensures EndsWith(a + suffix, suffix)
  {
    assert (a + suffix)[|a|..] == suffix;
  }

  // ---- the invariant of every deployment ---------------------------------

  /** Every binding was made by a protobus component, and exchanges have their kinds. */
  ghost predicate Sound(cfg: Config, t: Topology) {
    && (forall ex, bd | ex in t.exchanges && bd in t.exchanges[ex].bindings ::
          Protobus(cfg, BindQueue(bd.queue, bd.key, ex)))
    && (forall ex | ex in t.exchanges :: t.exchanges[ex].kind == KindOf(cfg, ex))
  }

  lemma ApplyKeepsSound(cfg: Config, t: Topology, d: Declare)
    requires Sound(cfg, t) && Protobus(cfg, d)
    ensures Sound(cfg, Apply(t, d))
  {
  }

  /** What has been declared stays declared. */
  ghost predicate Extends(t: Topology, t': Topology) {
    && (forall q | q in t.queues :: q in t'.queues && t'.queues[q] == t.queues[q])
    && (forall ex | ex in t.exchanges :: ex in t'.exchanges)
    && (forall ex, bd | ex in t.exchanges && bd in t.exchanges[ex].bindings :: bd in t'.exchanges[ex].bindings)
  }

  lemma {:induction false} ApplyAllKeeps(cfg: Config, t: Topology, ds: seq<Declare>)
    requires Sound(cfg, t) && forall i | 0 <= i < |ds| :: Protobus(cfg, ds[i])
    ensures Sound(cfg, ApplyAll(t, ds)) && Extends(t, ApplyAll(t, ds))
    decreases |ds|
  {
    if ds != [] {
      ApplyKeepsSound(cfg, t, ds[0]);
      ApplyAllKeeps(cfg, Apply(t, ds[0]), ds[1..]);
    }
  }

  /** A declaration that was accepted took effect, and its effect is kept. */
  ghost predicate Done(t: Topology, d: Declare) {
    match d
    case DeclareExchange(name, kind) => name in t.exchanges
    case DeclareQueue(name, args) => name in t.queues && t.queues[name] == args
    case BindQueue(queue, key, exchange) => exchange in t.exchanges && Binding(queue, key) in t.exchanges[exchange].bindings
  }

  lemma {:induction false} AcceptedIsDone(t: Topology, ds: seq<Declare>, k: nat)
    requires AllAccepted(t, ds) && k < |ds|
    ensures Done(ApplyAll(t, ds), ds[k]) && Extends(t, ApplyAll(t, ds))
    decreases |ds|
  {
    var t1 := Apply(t, ds[0]);
    if k > 0 {
      AcceptedIsDone(t1, ds[1..], k - 1);
    } else {
      assert Done(t1, ds[0]);
      if |ds| > 1 {
        AcceptedIsDone(t1, ds[1..], 0);
      }
    }
  }

  lemma DoneStays(t: Topology, t': Topology, d: Declare)
    requires Done(t, d) && Extends(t, t')
    ensures Done(t', d)
  {
  }

  /** Everything services and listeners declare is within the invariant. */
  lemma ServiceIsProtobus(cfg: Config, name: string, delay: nat, k: nat)
    requires ConfigOk(cfg) && PlainName(name) && k < |ServiceDeclares(cfg, name, delay)|
    ensures Protobus(cfg, ServiceDeclares(cfg, name, delay)[k])
  {
    RetryIsProtobus(cfg, name, delay, cfg.bus);
  }

  lemma ListenerIsProtobus(cfg: Config, queue: string, patterns: seq<string>, delay: nat, k: nat)
    requires ConfigOk(cfg) && k < |ListenerDeclares(cfg, queue, patterns, delay)|
    ensures Protobus(cfg, ListenerDeclares(cfg, queue, patterns, delay)[k])
  {
    RetryIsProtobus(cfg, queue, delay, queue + REDELIVERY);
    HasSuffix(queue, REDELIVERY);
  }

  lemma RetryIsProtobus(cfg: Config, base: string, delay: nat, deadLetterTo: string)
    requires ConfigOk(cfg)
    ensures forall k | 0 <= k < 4 :: Protobus(cfg, RetryDeclares(base, delay, deadLetterTo)[k])
  {
    HasSuffix(base, RETRY_EXCHANGE);
    var bind := RetryDeclares(base, delay, deadLetterTo)[3];
    assert bind.queue == base + RETRY && bind.exchange == base + RETRY_EXCHANGE;
  }

  // ---- confinement -------------------------------------------------------

  lemma HashMatchesAll(t: seq<Word>)
    ensures TopicMatch(["#"], t)
  {
    assert ["#"][1..] == [] && t[|t|..] == [];
    HashAbsorbs(["#"], t, |t|);
  }

  lemma SplitHash()
    ensures Split("#") == ["#"]
  {
    assert Join(["#"]) == "#";
    SplitOfJoin(["#"]);
  }

  /** A publish on a component's retry exchange reaches its retry queue and nothing else. */
  lemma RetryReachesOwnQueue(cfg: Config, t: Topology, base: string, delay: nat, deadLetterTo: string, key: string, q: string)
    requires ConfigOk(cfg) && Sound(cfg, t)
    requires forall k | 0 <= k < 4 :: Done(t, RetryDeclares(base, delay, deadLetterTo)[k])
    ensures Reaches(t, base + RETRY_EXCHANGE, key, q) <==> q == base + RETRY
  {
    var ex := base + RETRY_EXCHANGE;
    HasSuffix(base, RETRY_EXCHANGE);
    var bds := t.exchanges[ex].bindings;
    assert Done(t, RetryDeclares(base, delay, deadLetterTo)[1]) && Done(t, RetryDeclares(base, delay, deadLetterTo)[3]);
    SplitHash();
    HashMatchesAll(Split(key));
    var i :| 0 <= i < |bds| && bds[i] == Binding(base + RETRY, "#");
    assert Hit(Topic, bds[i].key, key);
    forall bd | bd in bds ensures bd.queue == base + RETRY {
      OnlyOwnRetry(cfg, base, bd.queue, bd.key);
    }
  }

  lemma OnlyOwnRetry(cfg: Config, base: string, q: string, key: string)
    requires ConfigOk(cfg) && Protobus(cfg, BindQueue(q, key, base + RETRY_EXCHANGE))
    ensures q == base + RETRY
  {
    HasSuffix(base, RETRY_EXCHANGE);
    SuffixesDiffer(q, base);
    var b :| q == b + RETRY && base + RETRY_EXCHANGE == b + RETRY_EXCHANGE && key == "#";
    SuffixInjective(b, base, RETRY_EXCHANGE);
  }

  lemma OnlyOwnRedelivery(cfg: Config, base: string, q: string, key: string)
    requires ConfigOk(cfg) && Protobus(cfg, BindQueue(q, key, base + REDELIVERY))
    ensures q == base
  {
    HasSuffix(base, REDELIVERY);
    if base + REDELIVERY == q + REDELIVERY {
      SuffixInjective(base, q, REDELIVERY);
    } else {
      var b :| q == b + RETRY && base + REDELIVERY == b + RETRY_EXCHANGE && key == "#";
      SuffixesDiffer(base, b);
    }
  }

  /** A listener's expired retry comes back to its own queue and to no other subscriber. */
  lemma RedeliveryReachesOwnQueue(cfg: Config, t: Topology, queue: string, key: string, q: string)
    requires ConfigOk(cfg) && Sound(cfg, t) && queue in t.queues
    requires Done(t, BindQueue(queue, "#", queue + REDELIVERY))
    ensures Reaches(t, queue + REDELIVERY, key, q) <==> q == queue
  {
    var ex := queue + REDELIVERY;
    HasSuffix(queue, REDELIVERY);
    var bds := t.exchanges[ex].bindings;
    SplitHash();
    HashMatchesAll(Split(key));
    var i :| 0 <= i < |bds| && bds[i] == Binding(queue, "#");
    assert Hit(Topic, bds[i].key, key);
    forall bd | bd in bds ensures bd.queue == queue {
      OnlyOwnRedelivery(cfg, queue, bd.queue, bd.key);
    }
  }

  /** The keys a service's binding accepts: its name, then one word. */
  predicate ServiceKey(name: string, key: string) {
    TopicMatch(Split(RequestBinding(name)), Split(key))
  }

  lemma {:induction false} JoinConcat(a: seq<Word>, b: seq<Word>)
    requires |a| > 0 && |b| > 0
    ensures Join(a + b) == Join(a) + "." + Join(b)
    decreases |a|
  {
    if |a| == 1 {
      assert (a + b)[1..] == b;
    } else {
      assert (a + b)[1..] == a[1..] + b;
      JoinConcat(a[1..], b);
    }
  }

  lemma RequestBindingWords(name: string)
    ensures Split(RequestBinding(name)) == ["REQUEST"] + Split(name) + ["*"]
  {
    var words := ["REQUEST"] + Split(name) + ["*"];
    JoinConcat(["REQUEST"], Split(name));
    JoinConcat(["REQUEST"] + Split(name), ["*"]);
    assert Join(words) == RequestBinding(name);
    SplitOfJoin(words);
  }

  /** Words without wildcards, then one '*'. */
  lemma {:induction false} LiteralThenStar(p: seq<Word>, t: seq<Word>)
    requires "*" !in p && "#" !in p
    ensures TopicMatch(p + ["*"], t) <==> |t| == |p| + 1 && t[..|p|] == p
    decreases |p|
  {
    if |p| == 0 {
      assert p + ["*"] == ["*"];
      assert |t| > 0 ==> (TopicMatch(["*"][1..], t[1..]) <==> |t| == 1);
    } else {
      assert (p + ["*"])[1..] == p[1..] + ["*"] && (p + ["*"])[0] == p[0];
      if |t| > 0 {
        LiteralThenStar(p[1..], t[1..]);
        if |t| == |p| + 1 {
          assert t[..|p|] == [t[0]] + t[1..][..|p| - 1];
          assert p == [p[0]] + p[1..];
        }
      }
    }
  }

  /** Two services never share a key. */
  lemma ServiceKeysDisjoint(a: string, b: string, key: string)
    requires PlainName(a) && PlainName(b) && ServiceKey(a, key) && ServiceKey(b, key)
    ensures a == b
  {
    RequestBindingWords(a);
    RequestBindingWords(b);
    LiteralThenStar(["REQUEST"] + Split(a), Split(key));
    LiteralThenStar(["REQUEST"] + Split(b), Split(key));
    assert Split(a) == (["REQUEST"] + Split(a))[1..];
    assert Split(b) == (["REQUEST"] + Split(b))[1..];
    assert a == Join(Split(a)) == Join(Split(b)) == b;
  }

  /** A service's expired retry comes back to the service and to nothing else on the bus. */
  lemma BusReachesOwnService(cfg: Config, t: Topology, name: string, key: string, q: string)
    requires ConfigOk(cfg) && Sound(cfg, t) && PlainName(name) && name in t.queues
    requires Done(t, BindQueue(name, RequestBinding(name), cfg.bus)) && ServiceKey(name, key)
    ensures Reaches(t, cfg.bus, key, q) <==> q == name
  {
    var bds := t.exchanges[cfg.bus].bindings;
    var i :| 0 <= i < |bds| && bds[i] == Binding(name, RequestBinding(name));
    assert Hit(Topic, bds[i].key, key);
    forall bd | bd in bds && Hit(Topic, bd.key, key) ensures bd.queue == name {
      BusBindsServices(cfg, bd.queue, bd.key);
      ServiceKeysDisjoint(bd.queue, name, key);
    }
  }

  lemma BusBindsServices(cfg: Config, q: string, key: string)
    requires ConfigOk(cfg) && Protobus(cfg, BindQueue(q, key, cfg.bus))
    ensures key == RequestBinding(q) && PlainName(q)
  {
    HasSuffix(q, REDELIVERY);
    if base :| q == base + RETRY && cfg.bus == base + RETRY_EXCHANGE {
      HasSuffix(base, RETRY_EXCHANGE);
    }
  }
}
