/** The Alertmanager webhook payload as the bridge receives it. Every field is optional:
    an absent JSON field becomes `None`, never a decoding failure. */
module AlertManager {
  import opened Wrappers

  /** The webhook body: the alerts of one notification and the group's status. */
  datatype AlertPayload = AlertPayload(alerts: Option<seq<Alert>>, status: Option<string>)

  /** One alert: its own status ("firing", "resolved", ...), labels and annotations. */
  datatype Alert = Alert(
    status: Option<string>,
    labels: Option<AlertLabels>,
    annotations: Option<AlertAnnotations>)

  /** The labels the bridge reads; `pod` is carried but never used to pick a thread. */
  datatype AlertLabels = AlertLabels(
    alertname: Option<string>,
    namespace: Option<string>,
    pod: Option<string>)

  datatype AlertAnnotations = AlertAnnotations(description: Option<string>)
}
