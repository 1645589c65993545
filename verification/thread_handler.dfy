/** The per-alert reconciliation of src/handlers/thread.rs: find the alert's thread among the
    listed threads, compose the status message, and decide which remote calls to make. */
module ThreadHandler {
  import opened Wrappers
  import opened Text
  import opened AlertManager
  import opened Discord

  /** The one status that closes a thread. */
  const Resolved: string := "resolved"
  /** The description used when the alert carries none. */
  const DefaultDescription: string := "No description provided"

  const TitleLabel: string := "**Title:** "
  const StatusLabel: string := "**Status:** "
  const DescriptionLabel: string := "**Description:** "

  // ---------------------------------------------------------------------------------------
  // Thread location
  // ---------------------------------------------------------------------------------------

  /** Every thread the two listing calls returned, active ones first. */
  function AllThreads(listing: Listing): (r: seq<Thread>)
    ensures |r| == |listing.active| + |listing.archived|
    ensures r[..|listing.active|] == listing.active && r[|listing.active|..] == listing.archived
  {
    listing.active + listing.archived
  }

  /** Is `t` a thread of `channel` named exactly `name`? */
  predicate IsMatch(t: Thread, channel: Channel, name: string) {
    t.parent == channel.id && t.name == name
  }

  /** Does the listing hold some thread of `channel` named `name`? */
  predicate HasMatch(channel: Channel, listing: Listing, name: string) {
    exists t :: t in AllThreads(listing) && IsMatch(t, channel, name)
  }

  /** Index `i` holds a matching thread and no earlier index does. */
  predicate FirstMatchAt(threads: seq<Thread>, i: int, channel: Channel, name: string) {
    && 0 <= i < |threads|
    && IsMatch(threads[i], channel, name)
    && forall j | 0 <= j < i :: !IsMatch(threads[j], channel, name)
  }

  /** The threads whose parent is `channel`, in listing order (the `filter` step). */
  function ChannelThreads(threads: seq<Thread>, channel: Channel): (r: seq<Thread>)
    ensures forall t :: t in r <==> t in threads && t.parent == channel.id
  {
    if |threads| == 0 then []
    else
      assert threads == [threads[0]] + threads[1..];
      if threads[0].parent == channel.id then [threads[0]] + ChannelThreads(threads[1..], channel)
      else ChannelThreads(threads[1..], channel)
  }

  /** The first thread named `name`, if any (the `find` step). */
  function FindByName(threads: seq<Thread>, name: string): (r: Option<Thread>)
    ensures r.Some? ==> r.value in threads && r.value.name == name
    ensures r.None? <==> forall t | t in threads :: t.name != name
  {
    if |threads| == 0 then None
    else
      assert threads == [threads[0]] + threads[1..];
      if threads[0].name == name then Some(threads[0])
      else FindByName(threads[1..], name)
  }

  /** The thread an alert named `name` is mirrored into: among the active threads and then
      the archived ones, keep those of `channel`, and take the first named exactly `name`. */
  function Locate(channel: Channel, listing: Listing, name: string): (r: Option<Thread>)
    ensures r.Some? ==> r.value in AllThreads(listing) && IsMatch(r.value, channel, name)
    ensures r.None? <==> !HasMatch(channel, listing, name)
  {
    FindByName(ChannelThreads(AllThreads(listing), channel), name)
  }

  /** Filtering then searching by name finds the first thread that passes both tests. */
  lemma {:induction false} FindFirstMatch(threads: seq<Thread>, channel: Channel, name: string, i: int)
    requires FirstMatchAt(threads, i, channel, name)
    ensures FindByName(ChannelThreads(threads, channel), name) == Some(threads[i])
    decreases i
  {
    var rest := threads[1..];
    if i == 0 {
      assert ChannelThreads(threads, channel) == [threads[0]] + ChannelThreads(rest, channel);
    } else {
      assert !IsMatch(threads[0], channel, name);
      assert FirstMatchAt(rest, i - 1, channel, name) by {
        forall j | 0 <= j < i - 1 ensures !IsMatch(rest[j], channel, name) {
          assert rest[j] == threads[j + 1];
        }
      }
      FindFirstMatch(rest, channel, name, i - 1);
      if threads[0].parent == channel.id {
        assert ChannelThreads(threads, channel) == [threads[0]] + ChannelThreads(rest, channel);
        assert ([threads[0]] + ChannelThreads(rest, channel))[1..] == ChannelThreads(rest, channel);
      }
    }
  }

  /** Whenever some thread matches, there is a first one. */
  lemma {:induction false} FirstMatchExists(threads: seq<Thread>, channel: Channel, name: string, t: Thread)
    requires t in threads && IsMatch(t, channel, name)
    ensures exists i :: FirstMatchAt(threads, i, channel, name)
  {
    if IsMatch(threads[0], channel, name) {
      assert FirstMatchAt(threads, 0, channel, name);
    } else {
      var rest := threads[1..];
      assert threads == [threads[0]] + rest;
      FirstMatchExists(rest, channel, name, t);
      var i :| FirstMatchAt(rest, i, channel, name);
      forall j | 0 <= j < i + 1 ensures !IsMatch(threads[j], channel, name) {
        if j > 0 { assert threads[j] == rest[j - 1]; }
      }
      assert FirstMatchAt(threads, i + 1, channel, name);
    }
  }

  /** The located thread is exactly the first match in listing order, and there is none
      only when no listed thread matches. */
  lemma LocateIsFirstMatch(channel: Channel, listing: Listing, name: string)
    ensures Locate(channel, listing, name).Some? <==>
              exists i :: FirstMatchAt(AllThreads(listing), i, channel, name)
    ensures forall i | FirstMatchAt(AllThreads(listing), i, channel, name) ::
              Locate(channel, listing, name) == Some(AllThreads(listing)[i])
  {
    var all := AllThreads(listing);
    forall i | FirstMatchAt(all, i, channel, name)
      ensures Locate(channel, listing, name) == Some(all[i])
    {
      FindFirstMatch(all, channel, name, i);
    }
    if r :| r in all && IsMatch(r, channel, name) {
      FirstMatchExists(all, channel, name, r);
    }
  }

  /** A match among the active threads wins over every archived one. */
  lemma ActiveThreadsFirst(channel: Channel, listing: Listing, name: string, i: int)
    requires FirstMatchAt(listing.active, i, channel, name)
    ensures Locate(channel, listing, name) == Some(listing.active[i])
  {
    var all := AllThreads(listing);
    assert all[i] == listing.active[i];
    forall j | 0 <= j < i ensures !IsMatch(all[j], channel, name) {
      assert all[j] == listing.active[j];
    }
    FindFirstMatch(all, channel, name, i);
  }

  /** With no match among the active threads, the first archived match is located. */
  lemma ArchivedThreadsSecond(channel: Channel, listing: Listing, name: string, i: int)
    requires forall t | t in listing.active :: !IsMatch(t, channel, name)
    requires FirstMatchAt(listing.archived, i, channel, name)
    ensures Locate(channel, listing, name) == Some(listing.archived[i])
  {
    var all := AllThreads(listing);
    var k := |listing.active| + i;
    assert all[k] == listing.archived[i];
    forall j | 0 <= j < k ensures !IsMatch(all[j], channel, name) {
      if j < |listing.active| {
        assert all[j] == listing.active[j];
      } else {
        assert all[j] == listing.archived[j - |listing.active|];
      }
    }
    FindFirstMatch(all, channel, name, k);
  }

  // ---------------------------------------------------------------------------------------
  // Message composition
  // ---------------------------------------------------------------------------------------

  /** The alert's description, or the default text when the annotations or the description
      are missing. */
  function DescriptionOf(alert: Alert): (r: string)
    ensures alert.annotations.Some? && alert.annotations.value.description.Some? ==>
              r == alert.annotations.value.description.value
    ensures alert.annotations.None? || alert.annotations.value.description.None? ==>
              r == DefaultDescription
  {
    match alert.annotations
    case Some(annotations) => annotations.description.GetOr(DefaultDescription)
    case None => DefaultDescription
  }

  /** The three-line status message. */
  function ComposeMessage(title: string, status: string, description: string): (r: string)
    ensures |r| == |title| + |status| + |description| + 42
    ensures TitleLabel + title + "\n" + StatusLabel <= r
    ensures r[|r| - |description| - |DescriptionLabel|..] == DescriptionLabel + description
  {
    var r := TitleLabel + title + "\n" + StatusLabel + status + "\n" + DescriptionLabel + description;
    assert r == (TitleLabel + title + "\n" + StatusLabel) + (status + "\n" + DescriptionLabel + description);
    assert r == (TitleLabel + title + "\n" + StatusLabel + status + "\n") + (DescriptionLabel + description);
    r
  }

  /** The message posted for an alert into its thread: when the thread name and the status
      are single lines, it reads back as the thread name, the status, and the annotation's
      description or "No description provided". */
  function Message(threadName: string, status: string, alert: Alert): (r: string)
    ensures '\n' !in threadName && '\n' !in status ==>
              ParseMessage(r) ==
                Some(MessageFields(threadName, status,
                  if alert.annotations.Some? && alert.annotations.value.description.Some?
                  then alert.annotations.value.description.value
                  else "No description provided"))
  {
    var r := ComposeMessage(threadName, status, DescriptionOf(alert));
    if '\n' !in threadName && '\n' !in status then
      ParseComposeRoundTrip(threadName, status, DescriptionOf(alert));
      r
    else r
  }

  /** The standalone message a text-channel thread is anchored to: the title label followed
      by the thread name, on a single line when the name is one. */
  function TitleMessage(threadName: string): (r: string)
    ensures TitleLabel <= r && r[|TitleLabel|..] == threadName
    ensures '\n' !in threadName ==> '\n' !in r
  {
    TitleLabel + threadName
  }

  /** The three fields a status message carries. */
  datatype MessageFields = MessageFields(title: string, status: string, description: string)

  /** A status message is its title line, a line feed, then its status and description lines. */
  lemma ComposeLines(title: string, status: string, description: string)
    ensures ComposeMessage(title, status, description) ==
              (TitleLabel + title) + "\n" + ((StatusLabel + status) + "\n" + (DescriptionLabel + description))
  {
  }

  /** Reads a status message back into its fields; `None` when `m` is not one. */
  function ParseMessage(m: string): (r: Option<MessageFields>)
    ensures r.Some? ==> m == ComposeMessage(r.value.title, r.value.status, r.value.description)
    ensures r.Some? ==> '\n' !in r.value.title && '\n' !in r.value.status
  {
    match SplitAtNewline(m)
    case None => None
    case Some(first) =>
      match SplitAtNewline(first.1)
      case None => None
      case Some(second) =>
        match (StripPrefix(TitleLabel, first.0), StripPrefix(StatusLabel, second.0), StripPrefix(DescriptionLabel, second.1))
        case (Some(title), Some(status), Some(description)) =>
          NoNewlineInSuffix(TitleLabel, title);
          NoNewlineInSuffix(StatusLabel, status);
          ComposeLines(title, status, description);
          Some(MessageFields(title, status, description))
        case _ => None
  }

  /** A message whose title and status are single lines reads back as the fields it was
      composed from: the template is unambiguous. */
  lemma ParseComposeRoundTrip(title: string, status: string, description: string)
    requires '\n' !in title && '\n' !in status
    ensures ParseMessage(ComposeMessage(title, status, description)) ==
              Some(MessageFields(title, status, description))
  {
    var line1 := TitleLabel + title;
    var line2 := StatusLabel + status;
    var line3 := DescriptionLabel + description;
    ComposeLines(title, status, description);
    NoNewlineInJoin(TitleLabel, title);
    NoNewlineInJoin(StatusLabel, status);
    SplitAtNewlineOfJoin(line1, line2 + "\n" + line3);
    SplitAtNewlineOfJoin(line2, line3);
    StripPrefixOfJoin(TitleLabel, title);
    StripPrefixOfJoin(StatusLabel, status);
    StripPrefixOfJoin(DescriptionLabel, description);
  }

  /** The text channel's anchor message is the first line of the thread's status message. */
  lemma TitleMessageIsFirstLine(threadName: string, status: string, alert: Alert)
    requires '\n' !in threadName
    ensures SplitAtNewline(Message(threadName, status, alert)).Some?
    ensures SplitAtNewline(Message(threadName, status, alert)).value.0 == TitleMessage(threadName)
  {
    var rest := StatusLabel + status + "\n" + DescriptionLabel + DescriptionOf(alert);
    assert Message(threadName, status, alert) == TitleMessage(threadName) + "\n" + rest;
    SplitAtNewlineOfJoin(TitleMessage(threadName), rest);
  }

  // ---------------------------------------------------------------------------------------
  // Reconciliation
  // ---------------------------------------------------------------------------------------

  /** The calls made for an alert whose thread already exists. */
  function HandleExistingThread(thread: Thread, status: string, message: string): (r: seq<Action>)
    ensures status == Resolved ==> r == [ArchiveThread(thread.id)]
    ensures status != Resolved && thread.archived ==>
              r == [ArchiveThread(thread.id), SendMessage(ToThread(thread.id), message)]
    ensures status != Resolved && !thread.archived ==>
              r == [SendMessage(ToThread(thread.id), message)]
    ensures WellFormed(r) && CreationCount(r) == 0
    ensures Deliveries(r, message) == (if status == Resolved then 0 else 1)
  {
    if status == Resolved then
      [ArchiveThread(thread.id)]
    else
      var send := SendMessage(ToThread(thread.id), message);
      if thread.archived then
        var r := [ArchiveThread(thread.id), send];
        assert OrderedAt(r, 0) && OrderedAt(r, 1);
        assert r == [ArchiveThread(thread.id)] + ([send] + []);
        CountsOfCons(send, [], message);
        CountsOfCons(ArchiveThread(thread.id), [send], message);
        r
      else
        var r := [send];
        assert OrderedAt(r, 0) && r == [send] + [];
        CountsOfCons(send, [], message);
        r
  }

  /** The calls made for an alert that has no thread yet. */
  function CreateNewThread(channel: Channel, threadName: string, message: string): (r: seq<Action>)
    ensures channel.kind == Forum ==> r == [CreateForumPost(channel.id, threadName, message)]
    ensures channel.kind != Forum ==>
              r == [ SendMessage(ToChannel(channel.id), TitleMessage(threadName))
                   , CreateThreadFromMessage(channel.id, threadName)
                   , SendMessage(ToCreatedThread, message) ]
    ensures WellFormed(r) && CreationCount(r) == 1 && Deliveries(r, message) == 1
  {
    match channel.kind
    case Forum =>
      var post := CreateForumPost(channel.id, threadName, message);
      var r := [post];
      assert OrderedAt(r, 0) && r == [post] + [];
      CountsOfCons(post, [], message);
      r
    case _ =>
      var title := SendMessage(ToChannel(channel.id), TitleMessage(threadName));
      var create := CreateThreadFromMessage(channel.id, threadName);
      var send := SendMessage(ToCreatedThread, message);
      var r := [title, create, send];
      assert OrderedAt(r, 0) && OrderedAt(r, 1) && OrderedAt(r, 2);
      assert r == [title] + ([create] + ([send] + []));
      CountsOfCons(send, [], message);
      CountsOfCons(create, [send], message);
      CountsOfCons(title, [create, send], message);
      r
  }

  /** The calls made for one alert, given what the listing calls returned: it creates a
      thread exactly when no thread of the channel carries the name, delivers the message
      once unless it only closes an existing thread, and archives only a matching thread. */
  function HandleThread(channel: Channel, listing: Listing, threadName: string, alert: Alert, status: string)
    : (r: seq<Action>)
    ensures 1 <= |r| <= 3
    ensures WellFormed(r)
    ensures CreationCount(r) == (if HasMatch(channel, listing, threadName) then 0 else 1)
    ensures Deliveries(r, Message(threadName, status, alert)) ==
              (if HasMatch(channel, listing, threadName) && status == Resolved then 0 else 1)
    ensures forall k | 0 <= k < |r| && r[k].ArchiveThread? ::
              exists t :: t in AllThreads(listing) && IsMatch(t, channel, threadName) && t.id == r[k].thread
    ensures Locate(channel, listing, threadName).Some? ==>
              r == HandleExistingThread(Locate(channel, listing, threadName).value, status,
                                        Message(threadName, status, alert))
    ensures Locate(channel, listing, threadName).None? ==>
              r == CreateNewThread(channel, threadName, Message(threadName, status, alert))
  {
    var message := Message(threadName, status, alert);
    match Locate(channel, listing, threadName)
    case Some(thread) => HandleExistingThread(thread, status, message)
    case None => CreateNewThread(channel, threadName, message)
  }
}
