# alertmanager-discord-rs, modelled in Dafny

The bridge receives Alertmanager webhook payloads and mirrors each alert into a Discord
channel. Each alert is correlated with a thread by name, `"{alertname} - {namespace}"`: a
thread of that name found in the listings is reused, and otherwise a new one is created, so
duplicates are possible (see "Left out"). While an alert is not resolved, a status message is
posted into its thread. When a resolved alert finds its thread, the thread is archived; a
resolved alert that finds no thread gets a new, unarchived thread with its message.

This project models the decision logic of the two request handlers as pure functions:

- `wrappers.dfy` (`Wrappers`): the `Option` type that stands for Rust's `Option`.
- `alert_manager.dfy` (`AlertManager`): the payload records. Every field is optional.
- `discord.dfy` (`Discord`): channels, threads and the two thread listings the handler reads.
  Every call that changes Discord is an `Action` in a returned trace: archive a thread, send a
  message, create a forum post, or create a thread from a message. The module also defines
  the ordering the API imposes on these calls (`WellFormed`) and counts creations and
  deliveries.
- `text.dfy` (`Text`): splitting at the first line feed and stripping a prefix, used to read
  a status message back.
- `thread_handler.dfy` (`ThreadHandler`): `handle_thread`, `handle_existing_thread` and
  `create_new_thread`. It locates the alert's thread, composes the three-line status message
  and decides which calls to make.
- `webhook.dfy` (`Webhook`): `handle_webhook`. It derives each alert's thread name and
  effective status, reconciles every alert once in payload order, and always answers "OK".

The listing calls are inputs rather than actions. `HandleThread` takes the `Listing` the two
listing calls returned. `HandleWebhook` takes `listing: nat -> Listing`, which is what Discord
lists while the i-th alert is reconciled. Earlier alerts of the same payload may have changed
Discord, and the model does not simulate Discord itself.

Every remote call is assumed to succeed. In the code, a failed archive, send or create call is
logged with `error!` and then `.unwrap()` aborts the handling of the request; a failed listing
call (thread.rs:12-13) is unwrapped without logging, and so are the thread's `parent_id`
(thread.rs:16) and `thread_metadata` (thread.rs:45). The model has no failure path (see
"Left out").

In the existing-thread branch, the code archives a thread that is already archived
(`archived(true)`) and then sends the message. The model does exactly the same.

## Model

| member | source | states |
|---|---|---|
| ThreadHandler.AllThreads | src/handlers/thread.rs:12-15 | the threads searched are all active threads followed by all archived ones, each list kept whole and in order |
| ThreadHandler.ChannelThreads | src/handlers/thread.rs:16 | the filter keeps exactly the listed threads whose parent is the target channel |
| ThreadHandler.FindByName | src/handlers/thread.rs:18-19 | the search returns a listed thread with exactly the wanted name, and returns none only when no listed thread has that name |
| ThreadHandler.Locate | src/handlers/thread.rs:12-19 | a located thread was listed (active or archived), belongs to the channel and has exactly the wanted name; nothing is located exactly when no listed thread of the channel has that name |
| ThreadHandler.FindFirstMatch | src/handlers/thread.rs:16-19 | filtering by parent and then searching by name yields the first listed thread that passes both tests |
| ThreadHandler.LocateIsFirstMatch | src/handlers/thread.rs:12-19 | a thread is located exactly when some listed thread matches, and it is the first match in listing order (ties between equal names go to the earlier one) |
| ThreadHandler.ActiveThreadsFirst | src/handlers/thread.rs:12-19 | a matching active thread is located in preference to every archived one, because active threads are listed first |
| ThreadHandler.ArchivedThreadsSecond | src/handlers/thread.rs:12-19 | when no active thread matches, the first matching archived thread is located |
| ThreadHandler.DescriptionOf | src/handlers/thread.rs:24-28 | the description is the annotation's description when both the annotations and the description are present, and "No description provided" otherwise |
| ThreadHandler.ParseMessage | src/handlers/thread.rs:21-29 | any text that reads as a status message is exactly the three-line template (title, status, description) for the fields read |
| ThreadHandler.ParseComposeRoundTrip | src/handlers/thread.rs:21-29 | a status message whose title and status are single lines reads back as exactly the title, status and description it was composed from |
| ThreadHandler.ComposeMessage | src/handlers/thread.rs:21-29 | the template adds exactly 42 characters to its fields, starts with the title line and the status label, and ends with the description label and the description; ParseComposeRoundTrip shows it is read back unambiguously |
| ThreadHandler.Message | src/handlers/thread.rs:21-29 | the message posted for an alert reads back as its thread name, its status, and the annotation's description when both the annotations and the description are present, else "No description provided" (for a single-line name and status) |
| ThreadHandler.TitleMessage | src/handlers/thread.rs:71 | the anchor message is the title label followed by the thread name, and stays one line when the name is one line |
| ThreadHandler.TitleMessageIsFirstLine | src/handlers/thread.rs:69-72 | the anchor message posted in a text channel ("**Title:** " and the thread name) is the first line of the thread's status message |
| ThreadHandler.HandleExistingThread | src/handlers/thread.rs:37-56 | for status "resolved" the only call archives the thread. Otherwise an archived thread is archived and then sent the message, and an unarchived thread is only sent the message. It never creates a thread and delivers the message once unless resolved |
| ThreadHandler.CreateNewThread | src/handlers/thread.rs:58-89 | a forum gets one forum post titled with the thread name and carrying the message. Any other channel gets, in order, the title message in the channel, a thread created from it under the thread name, and the message in that new thread. Exactly one thread is created and the message is delivered once |
| ThreadHandler.HandleThread | src/handlers/thread.rs:7-35 | one alert makes 1 to 3 calls in an order the API allows. It creates a thread exactly when no listed thread of the channel has the name, so a resolved alert with no thread still gets one. It delivers the message once unless it only closes an existing thread, and archives only a matching listed thread. When a thread is located (the first match) the calls are exactly those for that existing thread; otherwise they are exactly those that create a new one |
| Discord.FlattenMembers | src/handlers/webhook.rs:14-29 | running the per-alert call groups one after the other makes exactly the calls of the groups: a call is made exactly when some alert's group makes it |
| Discord.FlattenWellFormed | src/handlers/webhook.rs:14-29 | running the per-alert call groups one after the other keeps the API ordering and creates at most one thread per alert |
| Webhook.AlertName | src/handlers/webhook.rs:16-20 | the alert name is the `alertname` label, or "unknown" when the labels or that label are missing |
| Webhook.Namespace | src/handlers/webhook.rs:21-25 | the namespace is the `namespace` label, or "unknown" when the labels or that label are missing |
| Webhook.ThreadKey | src/handlers/webhook.rs:15-26 | the key is the alert name, then " - ", then the namespace, with nothing added or lost; ThreadKeyInjective shows when it identifies the pair |
| Webhook.ThreadName | src/handlers/webhook.rs:15-26 | the thread name is alert name, " - ", namespace; missing labels give "unknown - unknown", and a missing label replaces only its own part |
| Webhook.SameLabelsSameThread | src/handlers/webhook.rs:15-26 | alerts with equal alert name and namespace labels (an absent labels object counting as both absent) get the same thread name, whatever their pod, status or annotations |
| Webhook.ThreadKeyInjective | src/handlers/webhook.rs:15-26 | when alert names contain no '-', equal thread names mean equal alert names and equal namespaces |
| Webhook.ThreadKeyCollision | src/handlers/webhook.rs:15-26 | without that restriction, two different label pairs ("A - B", "C") and ("A", "B - C") share one thread name |
| Webhook.PayloadStatus | src/handlers/webhook.rs:12 | the payload status is its own status, or "unknown" when it has none |
| Webhook.EffectiveStatus | src/handlers/webhook.rs:28 | an alert is reconciled with its own status when it has one, and with the payload status otherwise |
| Webhook.StatusPrecedence | src/handlers/webhook.rs:12-28 | the alert's status wins over the payload's, which wins over "unknown" |
| Webhook.AlertsOf | src/handlers/webhook.rs:11 | an absent alert list is treated as empty |
| Webhook.HandleWebhook | src/handlers/webhook.rs:7-32 | the reply is always "OK". There is one reconciliation per alert, in payload order, each with that alert's thread name and effective status. The calls of all alerts form an API-ordered trace that creates at most one thread per alert |
| Webhook.ForumReconcile | src/handlers/thread.rs:58-67 | a firing HighCPU/ns1 alert reconciled in a forum whose listing holds no thread of that name makes exactly one call, a forum post titled "HighCPU - ns1" carrying its status message |
| Webhook.ForumScenario | src/handlers/webhook.rs:14-31 | a firing HighCPU/ns1 alert sent to a forum whose listing holds no thread named "HighCPU - ns1" produces exactly one forum post with that name carrying the status message, and the reply is "OK" |

## Left out

- src/main.rs: the HTTP router, the TCP listener and the async runtime are plumbing.
- src/discord/thread.rs: reading DISCORD_TOKEN and CHANNEL_ID from the environment and building the HTTP client happen at startup; the model takes the resolved target `Channel` as a parameter.
- JSON deserialization of the payload: the model starts from the decoded `AlertPayload`.
- Remote call failures: every `.unwrap()` on a failed Discord call (logged first for the archive, send and create calls, not for the two listing calls) aborts the request's handling in the code. The model assumes every call succeeds and has no failure path.
- Pagination of archived threads: the code reads a single page of archived public threads (no `before` or `limit`, and `has_more` is never read), so an archived thread beyond that page is not found and a second thread of the same name is created. The model's `archived` list is whatever that single call returned; it does not model the pages the call leaves out.
- `parent_id.unwrap()` and `thread_metadata.unwrap()`: Discord always sets both on threads, so the model's `Thread` has a mandatory parent and archived flag instead of optional fields that could panic.
- How Discord changes between alerts of one payload (a thread created for one alert is listed for the next): the listings are inputs, not a simulation of the platform.
- Concurrent webhook requests and the resulting duplicate-thread race: these belong to the remote system and the server, not to this sequential code.
- Logging (`log::debug!` of the thread name, `error!` before the unwraps of the archive, send and create calls): it has no effect on the decision.
- A lemma comparing a whole literal message is omitted because checking long literal strings character by character is too costly for the solver. `ParseComposeRoundTrip` and `ParseMessage` pin down the template instead.
- Webhook.HandleWebhook: bounds the number of created threads by the number of alerts instead of giving the exact count. The exact count per alert is stated by `ThreadHandler.HandleThread`.
