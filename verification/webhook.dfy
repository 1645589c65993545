/** The webhook handler of src/handlers/webhook.rs: for each alert of the payload, in order,
    derive its thread name and effective status and reconcile its thread once. */
module Webhook {
  import opened Wrappers
  import opened AlertManager
  import opened Discord
  import opened ThreadHandler

  /** The placeholder for a missing label or status. */
  const Unknown: string := "unknown"
  /** What the handler answers, whatever the alerts held. */
  const Ok: string := "OK"
  /** Separates the alert name from the namespace in a thread name. */
  const Separator: string := " - "

  /** The alert's `alertname` label, or "unknown" when the labels or that label are absent. */
  function AlertName(alert: Alert): (r: string)
    ensures alert.labels.Some? && alert.labels.value.alertname.Some? ==> r == alert.labels.value.alertname.value
    ensures alert.labels.None? || alert.labels.value.alertname.None? ==> r == Unknown
  {
    match alert.labels
    case Some(labels) => labels.alertname.GetOr(Unknown)
    case None => Unknown
  }

  /** The alert's `namespace` label, or "unknown" when the labels or that label are absent. */
  function Namespace(alert: Alert): (r: string)
    ensures alert.labels.Some? && alert.labels.value.namespace.Some? ==> r == alert.labels.value.namespace.value
    ensures alert.labels.None? || alert.labels.value.namespace.None? ==> r == Unknown
  {
    match alert.labels
    case Some(labels) => labels.namespace.GetOr(Unknown)
    case None => Unknown
  }

  /** The name that identifies an alert's thread: the alert name, " - ", the namespace. */
  function ThreadKey(alertname: string, namespace: string): (r: string)
    ensures |r| == |alertname| + |Separator| + |namespace|
    ensures r[..|alertname|] == alertname
    ensures r[|alertname|..|alertname| + |Separator|] == Separator
    ensures r[|alertname| + |Separator|..] == namespace
  {
    alertname + Separator + namespace
  }

  /** The thread name of an alert: its alert name and namespace, each replaced on its own by
      "unknown" when missing; a missing labels object gives "unknown - unknown". */
  function ThreadName(alert: Alert): (r: string)
    ensures alert.labels.None? ==> r == "unknown - unknown"
    ensures alert.labels.Some? ==>
              r == alert.labels.value.alertname.GetOr("unknown") + " - " + alert.labels.value.namespace.GetOr("unknown")
  {
    ThreadKey(AlertName(alert), Namespace(alert))
  }

  /** The `alertname` label, absent when the labels object or the label is absent. */
  function AlertNameLabel(alert: Alert): Option<string> {
    if alert.labels.Some? then alert.labels.value.alertname else None
  }

  /** The `namespace` label, absent when the labels object or the label is absent. */
  function NamespaceLabel(alert: Alert): Option<string> {
    if alert.labels.Some? then alert.labels.value.namespace else None
  }

  /** Alerts with the same alert name and namespace share a thread, whatever their pod,
      status or annotations; an alert without labels and one whose labels lack both names
      share "unknown - unknown". */
  lemma SameLabelsSameThread(a1: Alert, a2: Alert)
    requires AlertNameLabel(a1) == AlertNameLabel(a2)
    requires NamespaceLabel(a1) == NamespaceLabel(a2)
    ensures ThreadName(a1) == ThreadName(a2)
  {
  }

  /** When alert names contain no '-', a thread name determines the alert name and the
      namespace: distinct alerts never share a thread. */
  lemma ThreadKeyInjective(a1: string, n1: string, a2: string, n2: string)
    requires '-' !in a1 && '-' !in a2
    requires ThreadKey(a1, n1) == ThreadKey(a2, n2)
    ensures a1 == a2 && n1 == n2
  {
    var k := ThreadKey(a1, n1);
    if |a1| < |a2| {
      DashAfterName(a1, n1);
      assert false;
    } else if |a2| < |a1| {
      DashAfterName(a2, n2);
      assert false;
    } else {
      assert a1 == k[..|a1|] == a2;
      assert n1 == k[|a1| + 3..] == n2;
    }
  }

  /** In a thread key the separator's dash sits right after the alert name. */
  lemma DashAfterName(a: string, n: string)
    ensures ThreadKey(a, n)[|a| + 1] == '-'
  {
    assert ThreadKey(a, n)[|a| + 1] == Separator[1];
  }

  /** Without that restriction two different alerts can share a thread name. */
  lemma ThreadKeyCollision()
    ensures ThreadKey("A - B", "C") == ThreadKey("A", "B - C")
  {
  }

  /** The payload's status, or "unknown" when it has none. */
  function PayloadStatus(payload: AlertPayload): (r: string)
    ensures payload.status.Some? ==> r == payload.status.value
    ensures payload.status.None? ==> r == Unknown
  {
    payload.status.GetOr(Unknown)
  }

  /** The status an alert is reconciled with: its own, else `fallback`. */
  function EffectiveStatus(alert: Alert, fallback: string): (r: string)
    ensures alert.status.Some? ==> r == alert.status.value
    ensures alert.status.None? ==> r == fallback
  {
    alert.status.GetOr(fallback)
  }

  /** The alert's own status wins over the payload's, which wins over "unknown". */
  lemma StatusPrecedence(alert: Alert, payload: AlertPayload)
    ensures alert.status.Some? ==> EffectiveStatus(alert, PayloadStatus(payload)) == alert.status.value
    ensures alert.status.None? && payload.status.Some? ==>
              EffectiveStatus(alert, PayloadStatus(payload)) == payload.status.value
    ensures alert.status.None? && payload.status.None? ==>
              EffectiveStatus(alert, PayloadStatus(payload)) == "unknown"
  {
  }

  /** The alerts of the payload, none when the field is absent. */
  function AlertsOf(payload: AlertPayload): (r: seq<Alert>)
    ensures payload.alerts.Some? ==> r == payload.alerts.value
    ensures payload.alerts.None? ==> r == []
  {
    payload.alerts.GetOr([])
  }

  /** One reconciliation request: the arguments `handle_thread` is called with. */
  datatype Dispatch = Dispatch(threadName: string, alert: Alert, status: string)

  /** The reconciliation request for `alert` when the payload's status is `fallback`. */
  function DispatchFor(alert: Alert, fallback: string): Dispatch {
    Dispatch(ThreadName(alert), alert, EffectiveStatus(alert, fallback))
  }

  /** The calls one reconciliation request makes, given what the listing calls returned. */
  function Reconcile(channel: Channel, listing: Listing, d: Dispatch): seq<Action> {
    HandleThread(channel, listing, d.threadName, d.alert, d.status)
  }

  /** The outcome of one webhook request: the reply, the reconciliation requests in the order
      they were made, and the calls each of them made. */
  datatype WebhookResult = WebhookResult(reply: string, dispatched: seq<Dispatch>, calls: seq<seq<Action>>)

  /** Handles one webhook request against `channel`; `listing(i)` is what the platform lists
      while the `i`-th alert is reconciled. Exactly one reconciliation per alert, in payload
      order; the reply is always "OK"; the calls, run one group after the other, form a
      well-formed trace that creates at most one thread per alert. */
  function HandleWebhook(channel: Channel, payload: AlertPayload, listing: nat -> Listing): (r: WebhookResult)
    ensures r.reply == "OK"
    ensures |r.dispatched| == |r.calls| == |AlertsOf(payload)|
    ensures forall i | 0 <= i < |r.dispatched| ::
              var alert := AlertsOf(payload)[i];
              r.dispatched[i] == Dispatch(ThreadName(alert), alert, EffectiveStatus(alert, PayloadStatus(payload)))
    ensures forall i | 0 <= i < |r.calls| :: r.calls[i] == Reconcile(channel, listing(i), r.dispatched[i])
    ensures WellFormed(Flatten(r.calls))
    ensures CreationCount(Flatten(r.calls)) <= |AlertsOf(payload)|
  {
    var alerts := AlertsOf(payload);
    var fallback := PayloadStatus(payload);
    var dispatched := seq(|alerts|, i requires 0 <= i < |alerts| => DispatchFor(alerts[i], fallback));
    var calls := seq(|alerts|, i requires 0 <= i < |alerts| => Reconcile(channel, listing(i), dispatched[i]));
    assert forall i | 0 <= i < |calls| ::
      calls[i] == HandleThread(channel, listing(i), dispatched[i].threadName, dispatched[i].alert, dispatched[i].status);
    FlattenWellFormed(calls);
    WebhookResult(Ok, dispatched, calls)
  }

  /** The one reconciliation of the HighCPU/ns1 alert in a forum without its thread opens
      one forum post. */
  lemma ForumReconcile(forum: Channel, alert: Alert, listing: Listing)
    requires forum.kind == Forum
    requires alert == Alert(Some("firing"), Some(AlertLabels(Some("HighCPU"), Some("ns1"), None)), Some(AlertAnnotations(None)))
    requires !HasMatch(forum, listing, "HighCPU - ns1")
    ensures Reconcile(forum, listing, DispatchFor(alert, Unknown))
            == [CreateForumPost(forum.id, "HighCPU - ns1", Message("HighCPU - ns1", "firing", alert))]
  {
    var name := "HighCPU - ns1";
    assert AlertName(alert) == "HighCPU" && Namespace(alert) == "ns1";
    assert "HighCPU" + Separator + "ns1" == name;
    assert DispatchFor(alert, Unknown) == Dispatch(name, alert, "firing");
    assert Locate(forum, listing, name).None?;
  }

  /** A firing alert sent to a forum that holds no thread of its name opens exactly one
      forum post named after it, and the request is answered "OK". */
  lemma ForumScenario(forum: Channel, alert: Alert, listing: nat -> Listing)
    requires forum.kind == Forum
    requires alert == Alert(Some("firing"), Some(AlertLabels(Some("HighCPU"), Some("ns1"), None)), Some(AlertAnnotations(None)))
    requires !HasMatch(forum, listing(0), "HighCPU - ns1")
    ensures var r := HandleWebhook(forum, AlertPayload(Some([alert]), None), listing);
            && r.reply == "OK"
            && Flatten(r.calls) == [CreateForumPost(forum.id, "HighCPU - ns1", Message("HighCPU - ns1", "firing", alert))]
  {
    var payload := AlertPayload(Some([alert]), None);
    var r := HandleWebhook(forum, payload, listing);
    assert PayloadStatus(payload) == Unknown;
    assert r.dispatched[0] == DispatchFor(alert, Unknown);
    ForumReconcile(forum, alert, listing(0));
    assert r.calls == [r.calls[0]];
    FlattenSingleton(r.calls[0]);
  }
}
