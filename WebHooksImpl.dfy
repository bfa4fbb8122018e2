/** The dispatcher (server/sonar-server .../webhook/WebHooksImpl.java): loads the ordered list of
    webhooks from the configuration, and if there is any, builds the payload once, calls and
    persists each webhook in turn and finally purges the project's old deliveries.
    The HTTP caller is a function; the calls, the storage's persist and purge, and the moment
    the payload supplier is invoked are recorded in a trace of events. */
module WebHooksImpl {
  import opened Wrappers
  import opened WebHooks

  // The constants of WebhookProperties.
  const GLOBAL_KEY := "sonar.webhooks.global"
  const PROJECT_KEY := "sonar.webhooks.project"
  const NAME_FIELD := "name"
  const URL_FIELD := "url"
  const MAX_WEBHOOKS_PER_TYPE := 10

  /** format("%s.%s", a, b) */
  function PropertyKey(a: string, b: string): string {
    a + "." + b
  }

  function Min(a: nat, b: nat): nat {
    if a < b then a else b
  }

  /** getWebhookProperties: the property prefixes of the first MAX_WEBHOOKS_PER_TYPE ids
      declared in the scope, in declaration order. */
  function WebhookProperties(config: Configuration, scopeKey: string): (props: seq<string>)
    ensures |props| == Min(|config.GetStringArray(scopeKey)|, MAX_WEBHOOKS_PER_TYPE)
    ensures forall i :: 0 <= i < |props| ==> props[i] == PropertyKey(scopeKey, config.GetStringArray(scopeKey)[i])
  {
    var ids := config.GetStringArray(scopeKey);
    var n := Min(|ids|, MAX_WEBHOOKS_PER_TYPE);
    seq(n, i requires 0 <= i < n => PropertyKey(scopeKey, ids[i]))
  }

  /** The mapping step of loadWebhooks: a webhook when both `<property>.name` and
      `<property>.url` are set, null otherwise. */
  function ResolveWebhook(analysis: Analysis, config: Configuration, property: string): (r: Option<Webhook>)
    ensures r.Some? <==> PropertyKey(property, NAME_FIELD) in config.values && PropertyKey(property, URL_FIELD) in config.values
    ensures r.Some? ==> r.value == Webhook(analysis.projectUuid, analysis.ceTaskUuid, analysis.analysisUuid,
                                           config.values[PropertyKey(property, NAME_FIELD)],
                                           config.values[PropertyKey(property, URL_FIELD)])
  {
    var name := config.Get(PropertyKey(property, NAME_FIELD));
    var url := config.Get(PropertyKey(property, URL_FIELD));
    if name.Some? && url.Some? then
      Some(Webhook(analysis.projectUuid, analysis.ceTaskUuid, analysis.analysisUuid, name.value, url.value))
    else None
  }

  /** map(ResolveWebhook) followed by filter(nonNull), keeping the order. */
  function ResolveAll(analysis: Analysis, config: Configuration, properties: seq<string>): seq<Webhook>
  {
    if properties == [] then []
    else
      var r := ResolveWebhook(analysis, config, properties[|properties| - 1]);
      ResolveAll(analysis, config, properties[..|properties| - 1]) + (if r.Some? then [r.value] else [])
  }

  /** loadWebhooks: the global scope's properties, then the project scope's. */
  function LoadWebhooks(analysis: Analysis, config: Configuration): seq<Webhook> {
    ResolveAll(analysis, config, WebhookProperties(config, GLOBAL_KEY) + WebhookProperties(config, PROJECT_KEY))
  }

  lemma {:induction false} ResolveAllAppend(analysis: Analysis, config: Configuration, a: seq<string>, b: seq<string>)
    ensures ResolveAll(analysis, config, a + b) == ResolveAll(analysis, config, a) + ResolveAll(analysis, config, b)
  {
    if b == [] {
      assert a + b == a;
    } else {
      assert (a + b)[..|a + b| - 1] == a + b[..|b| - 1];
      assert (a + b)[|a + b| - 1] == b[|b| - 1];
      ResolveAllAppend(analysis, config, a, b[..|b| - 1]);
    }
  }

  /** Every property yields at most one webhook; a webhook is in the result exactly when some
      property resolves to it; and each carries the analysis's three ids. */
  lemma {:induction false} ResolveAllSpec(analysis: Analysis, config: Configuration, properties: seq<string>)
    ensures |ResolveAll(analysis, config, properties)| <= |properties|
    ensures forall w :: w in ResolveAll(analysis, config, properties) <==>
              exists i :: 0 <= i < |properties| && ResolveWebhook(analysis, config, properties[i]) == Some(w)
    ensures forall w :: w in ResolveAll(analysis, config, properties) ==>
              w.projectUuid == analysis.projectUuid && w.ceTaskUuid == analysis.ceTaskUuid && w.analysisUuid == analysis.analysisUuid
  {
    if properties != [] {
      var init := properties[..|properties| - 1];
      ResolveAllSpec(analysis, config, init);
      forall w
        ensures w in ResolveAll(analysis, config, properties) <==>
                exists i :: 0 <= i < |properties| && ResolveWebhook(analysis, config, properties[i]) == Some(w)
      {
        if w in ResolveAll(analysis, config, init) {
          var i :| 0 <= i < |init| && ResolveWebhook(analysis, config, init[i]) == Some(w);
          assert properties[i] == init[i];
        }
        if exists i :: 0 <= i < |properties| && ResolveWebhook(analysis, config, properties[i]) == Some(w) {
          var i :| 0 <= i < |properties| && ResolveWebhook(analysis, config, properties[i]) == Some(w);
          if i < |init| {
            assert init[i] == properties[i];
          }
        }
      }
    }
  }

  /** Global webhooks come first, then project ones; each scope contributes at most
      MAX_WEBHOOKS_PER_TYPE, every one of them bound to the analysis. */
  lemma LoadWebhooksOrderAndBounds(analysis: Analysis, config: Configuration)
    ensures var globals := ResolveAll(analysis, config, WebhookProperties(config, GLOBAL_KEY));
            var projects := ResolveAll(analysis, config, WebhookProperties(config, PROJECT_KEY));
            LoadWebhooks(analysis, config) == globals + projects &&
            |globals| <= MAX_WEBHOOKS_PER_TYPE && |projects| <= MAX_WEBHOOKS_PER_TYPE
    ensures forall w :: w in LoadWebhooks(analysis, config) ==>
              w.projectUuid == analysis.projectUuid && w.ceTaskUuid == analysis.ceTaskUuid && w.analysisUuid == analysis.analysisUuid
  {
    var g := WebhookProperties(config, GLOBAL_KEY);
    var p := WebhookProperties(config, PROJECT_KEY);
    ResolveAllAppend(analysis, config, g, p);
    ResolveAllSpec(analysis, config, g);
    ResolveAllSpec(analysis, config, p);
    ResolveAllSpec(analysis, config, g + p);
  }

  /** A webhook is loaded exactly when one of the first MAX_WEBHOOKS_PER_TYPE ids of a scope
      has both a name and a url; ids beyond the cap and incomplete ids contribute nothing. */
  lemma LoadWebhooksMembership(analysis: Analysis, config: Configuration, w: Webhook)
    ensures w in LoadWebhooks(analysis, config) <==>
      (exists i :: 0 <= i < Min(|config.GetStringArray(GLOBAL_KEY)|, MAX_WEBHOOKS_PER_TYPE) &&
         ResolveWebhook(analysis, config, PropertyKey(GLOBAL_KEY, config.GetStringArray(GLOBAL_KEY)[i])) == Some(w)) ||
      (exists i :: 0 <= i < Min(|config.GetStringArray(PROJECT_KEY)|, MAX_WEBHOOKS_PER_TYPE) &&
         ResolveWebhook(analysis, config, PropertyKey(PROJECT_KEY, config.GetStringArray(PROJECT_KEY)[i])) == Some(w))
  {
    var g := WebhookProperties(config, GLOBAL_KEY);
    var p := WebhookProperties(config, PROJECT_KEY);
    ResolveAllAppend(analysis, config, g, p);
    ResolveAllSpec(analysis, config, g);
    ResolveAllSpec(analysis, config, p);
  }

  /** What happens to the caller and the delivery storage during one dispatch. */
  datatype Event =
    | PayloadBuilt(payload: Payload)            // the payload supplier was invoked
    | Called(webhook: Webhook, payload: Payload)  // caller.call
    | Persisted(delivery: Delivery)             // deliveryStorage.persist
    | Purged(projectUuid: string)               // deliveryStorage.purge

  /** The body of the forEach: call, then persist the delivery, for each webhook in order. */
  function CallsAndPersists(caller: (Webhook, Payload) -> Delivery, webhooks: seq<Webhook>, payload: Payload): seq<Event> {
    if webhooks == [] then []
    else
      var w := webhooks[|webhooks| - 1];
      CallsAndPersists(caller, webhooks[..|webhooks| - 1], payload) + [Called(w, payload), Persisted(caller(w, payload))]
  }

  /** The whole effect of sendProjectAnalysisUpdate once the webhooks are loaded. */
  function DispatchTrace(caller: (Webhook, Payload) -> Delivery, webhooks: seq<Webhook>, payload: Payload, projectUuid: string): seq<Event> {
    if webhooks == [] then []
    else [PayloadBuilt(payload)] + CallsAndPersists(caller, webhooks, payload) + [Purged(projectUuid)]
  }

  lemma {:induction false} CallsAndPersistsAt(caller: (Webhook, Payload) -> Delivery, webhooks: seq<Webhook>, payload: Payload)
    ensures |CallsAndPersists(caller, webhooks, payload)| == 2 * |webhooks|
    ensures forall i :: 0 <= i < |webhooks| ==>
              CallsAndPersists(caller, webhooks, payload)[2 * i] == Called(webhooks[i], payload) &&
              CallsAndPersists(caller, webhooks, payload)[2 * i + 1] == Persisted(caller(webhooks[i], payload))
  {
    if webhooks != [] {
      var init := webhooks[..|webhooks| - 1];
      CallsAndPersistsAt(caller, init, payload);
      forall i | 0 <= i < |init| ensures webhooks[i] == init[i] { }
    }
  }

  /** With webhooks: the supplier is invoked first and only once; then each webhook, in list
      order, is called with that same payload and its delivery persisted right after; then the
      project is purged once, last. Without webhooks nothing happens at all. */
  lemma DispatchTraceShape(caller: (Webhook, Payload) -> Delivery, webhooks: seq<Webhook>, payload: Payload, projectUuid: string)
    ensures webhooks == [] ==> DispatchTrace(caller, webhooks, payload, projectUuid) == []
    ensures webhooks != [] ==>
      var t := DispatchTrace(caller, webhooks, payload, projectUuid);
      && |t| == 2 * |webhooks| + 2
      && (forall j :: 0 <= j < |t| ==> (t[j].PayloadBuilt? <==> j == 0))
      && (forall j :: 0 <= j < |t| ==> (t[j].Purged? <==> j == |t| - 1))
      && t[0] == PayloadBuilt(payload)
      && t[|t| - 1] == Purged(projectUuid)
      && (forall i :: 0 <= i < |webhooks| ==>
            t[2 * i + 1] == Called(webhooks[i], payload) && t[2 * i + 2] == Persisted(caller(webhooks[i], payload)))
  {
    if webhooks != [] {
      var cp := CallsAndPersists(caller, webhooks, payload);
      CallsAndPersistsAt(caller, webhooks, payload);
      var t := DispatchTrace(caller, webhooks, payload, projectUuid);
      assert t == [PayloadBuilt(payload)] + cp + [Purged(projectUuid)];
      forall j | 0 < j < |t| - 1 ensures t[j].Called? || t[j].Persisted? {
        var k := j - 1;
        var i := k / 2;
        assert 0 <= i < |webhooks|;
        assert t[j] == cp[k];
        if k % 2 == 0 {
          assert k == 2 * i;
          assert cp[2 * i] == Called(webhooks[i], payload);
        } else {
          assert k == 2 * i + 1;
          assert cp[2 * i + 1] == Persisted(caller(webhooks[i], payload));
        }
      }
    }
  }

  lemma CallsAndPersistsStep(caller: (Webhook, Payload) -> Delivery, webhooks: seq<Webhook>, i: nat, payload: Payload)
    requires i < |webhooks|
    ensures CallsAndPersists(caller, webhooks[..i + 1], payload) ==
            CallsAndPersists(caller, webhooks[..i], payload) + [Called(webhooks[i], payload), Persisted(caller(webhooks[i], payload))]
  {
    assert webhooks[..i + 1][..i] == webhooks[..i];
  }

  class WebHooksImpl {
    const caller: (Webhook, Payload) -> Delivery
    var trace: seq<Event>

    constructor (caller: (Webhook, Payload) -> Delivery)
      ensures this.caller == caller && trace == []
    {
      this.caller := caller;
      trace := [];
    }

    /** sendProjectAnalysisUpdate: stop if no webhook is configured, else build the payload
        once, call and persist each webhook in turn, then purge once. */
    method SendProjectAnalysisUpdate(config: Configuration, analysis: Analysis, payloadSupplier: () -> Payload)
      modifies this
      ensures trace == old(trace) + DispatchTrace(caller, LoadWebhooks(analysis, config), payloadSupplier(), analysis.projectUuid)
    {
      var webhooks := LoadWebhooks(analysis, config);
      if |webhooks| == 0 {
        return;
      }

      var payload := payloadSupplier();
      trace := trace + [PayloadBuilt(payload)];
      ghost var start := trace;
      var i := 0;
      while i < |webhooks|
        invariant 0 <= i <= |webhooks|
        invariant trace == start + CallsAndPersists(caller, webhooks[..i], payload)
      {
        var delivery := caller(webhooks[i], payload);
        CallsAndPersistsStep(caller, webhooks, i, payload);
        trace := trace + [Called(webhooks[i], payload), Persisted(delivery)];
        i := i + 1;
      }
      assert webhooks[..i] == webhooks;
      trace := trace + [Purged(analysis.projectUuid)];
    }
  }
}
