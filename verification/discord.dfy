/** The chat platform as the bridge sees it: channels, threads, the listings it reads and
    the remote calls it makes. Every call that changes the platform is an `Action` in a
    returned trace instead of a side effect, and is assumed to succeed. */
module Discord {

  /** Channels and threads share one identifier space on the platform. */
  type ChannelId = nat

  /** Only the forum kind matters to the bridge; every other kind takes the text path. */
  datatype ChannelKind = TextChannel | NewsChannel | Forum | OtherKind

  /** The configured target channel (a text channel or a forum). */
  datatype Channel = Channel(id: ChannelId, kind: ChannelKind)

  /** A thread as listed by the platform: its own id, its name, the channel it belongs to
      and whether it is archived. */
  datatype Thread = Thread(id: ChannelId, name: string, parent: ChannelId, archived: bool)

  /** What the two listing calls returned for one alert: every active thread of the guild,
      then the archived public threads of the target channel. */
  datatype Listing = Listing(active: seq<Thread>, archived: seq<Thread>)

  /** Where a message goes: an existing thread, the channel itself, or the thread created
      by the action just before it in the trace. */
  datatype Target = ToThread(thread: ChannelId) | ToChannel(channel: ChannelId) | ToCreatedThread

  /** One remote call that changes the platform. */
  datatype Action =
    | ArchiveThread(thread: ChannelId)
    | SendMessage(target: Target, content: string)
    | CreateForumPost(forum: ChannelId, title: string, content: string)
    | CreateThreadFromMessage(channel: ChannelId, name: string)

  /** Does `a` create a new thread (a forum post or a thread anchored to a message)? */
  predicate IsCreation(a: Action) {
    a.CreateForumPost? || a.CreateThreadFromMessage?
  }

  /** Does `a` post `content` as a message inside a thread (not in the channel itself)? */
  predicate DeliversInThread(a: Action, content: string) {
    match a
    case SendMessage(target, c) => !target.ToChannel? && c == content
    case CreateForumPost(_, _, c) => c == content
    case _ => false
  }

  /** How many threads `trace` creates. */
  function CreationCount(trace: seq<Action>): nat {
    if |trace| == 0 then 0
    else (if IsCreation(trace[0]) then 1 else 0) + CreationCount(trace[1..])
  }

  /** How many times `trace` posts `content` inside a thread. */
  function Deliveries(trace: seq<Action>, content: string): nat {
    if |trace| == 0 then 0
    else (if DeliversInThread(trace[0], content) then 1 else 0) + Deliveries(trace[1..], content)
  }

  /** Counting over a trace that starts with `a`. */
  lemma CountsOfCons(a: Action, rest: seq<Action>, content: string)
    ensures CreationCount([a] + rest) == (if IsCreation(a) then 1 else 0) + CreationCount(rest)
    ensures Deliveries([a] + rest, content) ==
              (if DeliversInThread(a, content) then 1 else 0) + Deliveries(rest, content)
  {
    assert ([a] + rest)[1..] == rest;
  }

  /** The call at index `i` is issued in an order the platform's API allows: a thread is
      created from a message only right after that message was posted in the same channel,
      and "the created thread" is only addressed right after a thread was created. */
  predicate OrderedAt(trace: seq<Action>, i: nat)
    requires i < |trace|
  {
    && (trace[i].CreateThreadFromMessage? ==>
          i > 0 && trace[i - 1].SendMessage? && trace[i - 1].target == ToChannel(trace[i].channel))
    && (trace[i].SendMessage? && trace[i].target.ToCreatedThread? ==>
          i > 0 && trace[i - 1].CreateThreadFromMessage?)
  }

  /** Every call of `trace` is issued in an order the platform's API allows. */
  predicate WellFormed(trace: seq<Action>) {
    forall i: nat | i < |trace| :: OrderedAt(trace, i)
  }

  /** Running two well-formed traces one after the other is well formed. */
  lemma WellFormedConcat(a: seq<Action>, b: seq<Action>)
    requires WellFormed(a) && WellFormed(b)
    ensures WellFormed(a + b)
  {
    var ab := a + b;
    forall i: nat | i < |ab|
      ensures OrderedAt(ab, i)
    {
      if i < |a| {
        assert OrderedAt(a, i);
        assert ab[i] == a[i];
        if i > 0 { assert ab[i - 1] == a[i - 1]; }
      } else {
        var j := i - |a|;
        assert OrderedAt(b, j);
        assert ab[i] == b[j];
        if j > 0 { assert ab[i - 1] == b[j - 1]; }
      }
    }
  }

  /** Thread creations add up over consecutive traces. */
  lemma {:induction false} CreationCountConcat(a: seq<Action>, b: seq<Action>)
    ensures CreationCount(a + b) == CreationCount(a) + CreationCount(b)
  {
    if |a| == 0 {
      assert a + b == b;
    } else {
      assert (a + b)[1..] == a[1..] + b;
      CreationCountConcat(a[1..], b);
    }
  }

  /** The calls of consecutive groups, one group after the other. */
  function Flatten(groups: seq<seq<Action>>): seq<Action>
  {
    if |groups| == 0 then [] else groups[0] + Flatten(groups[1..])
  }

  /** A call is in the flattened trace exactly when it is in one of the groups. */
  lemma {:induction false} FlattenMembers(groups: seq<seq<Action>>, a: Action)
    ensures a in Flatten(groups) <==> exists i | 0 <= i < |groups| :: a in groups[i]
  {
    if |groups| > 0 {
      FlattenMembers(groups[1..], a);
      assert forall i | 1 <= i < |groups| :: groups[i] == groups[1..][i - 1];
      assert forall i | 0 <= i < |groups| - 1 :: groups[1..][i] == groups[i + 1];
    }
  }

  /** A single group flattens to itself. */
  lemma FlattenSingleton(group: seq<Action>)
    ensures Flatten([group]) == group
  {
    assert [group][1..] == [];
  }

  /** Groups that are each well formed and each create at most one thread run, one after the
      other, as a well-formed trace that creates at most one thread per group. */
  lemma {:induction false} FlattenWellFormed(groups: seq<seq<Action>>)
    requires forall i | 0 <= i < |groups| :: WellFormed(groups[i]) && CreationCount(groups[i]) <= 1
    ensures WellFormed(Flatten(groups))
    ensures CreationCount(Flatten(groups)) <= |groups|
  {
    if |groups| > 0 {
      FlattenWellFormed(groups[1..]);
      WellFormedConcat(groups[0], Flatten(groups[1..]));
      CreationCountConcat(groups[0], Flatten(groups[1..]));
    }
  }
}
