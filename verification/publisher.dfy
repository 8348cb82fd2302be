/**
 Who closes which broker connection (RabbitPublisher of go/internal/events/publisher.go). Connections are numbered
 in the order they are dialled, and a channel carries the number of its connection.
 */
module Publishers {
  import opened Orders

  /** The publisher's fields, and everything ever dialled, opened and closed through it. */
  datatype Link = Link(
    conn: Option<nat>, channel: Option<nat>, declared: bool,
    dialled: nat, channels: set<nat>, connCloses: multiset<nat>, channelCloses: multiset<nat>)

  /** What the broker answers during one critical section. */
  datatype Broker = Broker(
    channelAlive: bool, channelCloseFails: bool, connCloseFails: bool, dials: bool, opensChannel: bool, declares: bool)

  // ---------------------------------------------------------------- the critical sections

  function One(x: Option<nat>): multiset<nat> {
    if x.Some? then multiset{x.value} else multiset{}
  }

  function CloseFailed(s: Link, b: Broker): bool {
    (s.channel.Some? && b.channelCloseFails) || (s.conn.Some? && b.connCloseFails)
  }

  /** After closeLocked. */
  function ClosedLink(s: Link): Link {
    s.(conn := None, channel := None, declared := false,
       connCloses := s.connCloses + One(s.conn), channelCloses := s.channelCloses + One(s.channel))
  }

  /** After dialling anew from a closed link. */
  function Redialled(s: Link, b: Broker): Link {
    var n := s.dialled;
    if !b.dials then s
    else if !b.opensChannel then s.(dialled := n + 1, connCloses := s.connCloses + multiset{n})
    else if !b.declares then
      s.(dialled := n + 1, channels := s.channels + {n}, connCloses := s.connCloses + multiset{n},
         channelCloses := s.channelCloses + multiset{n})
    else s.(dialled := n + 1, channels := s.channels + {n}, conn := Some(n), channel := Some(n), declared := true)
  }

  /** After ensureChannel. */
  function Ensured(s: Link, hasUri: bool, b: Broker): Link {
    if (s.channel.Some? && b.channelAlive) || !hasUri then s
    else if CloseFailed(s, b) then ClosedLink(s)
    else Redialled(ClosedLink(s), b)
  }

  /** The channel ensureChannel returns, if it does. */
  function Got(s: Link, hasUri: bool, b: Broker): Option<nat> {
    if s.channel.Some? && b.channelAlive then s.channel
    else if !hasUri || CloseFailed(s, b) then None
    else Redialled(ClosedLink(s), b).channel
  }

  const UNCONNECTED := Link(None, None, false, 0, {}, multiset{}, multiset{})

  class RabbitPublisher {
    const uri: string
    var conn: Option<nat>
    var channel: Option<nat>
    var declared: bool
    var dialled: nat
    var channels: set<nat>
    var connCloses: multiset<nat>
    var channelCloses: multiset<nat>

    constructor (uri: string)
      ensures this.uri == uri && View() == UNCONNECTED
    {
      this.uri := uri;
      conn, channel, declared := None, None, false;
      dialled, channels, connCloses, channelCloses := 0, {}, multiset{}, multiset{};
    }

    function View(): Link
      reads this
    {
      Link(conn, channel, declared, dialled, channels, connCloses, channelCloses)
    }

    method CloseLocked(b: Broker) returns (failed: bool)
      modifies this
      ensures View() == ClosedLink(old(View())) && failed == CloseFailed(old(View()), b)
      ensures conn.None? && channel.None? && !declared
      ensures failed <==> (old(channel).Some? && b.channelCloseFails) || (old(conn).Some? && b.connCloseFails)
    {
      var channelFailed := CloseChannel(b);
      var connFailed := CloseConnection(b);
      declared := false;
      failed := channelFailed || connFailed;
    }

    method CloseChannel(b: Broker) returns (failed: bool)
      modifies this`channel, this`channelCloses
      ensures channel.None? && channelCloses == old(channelCloses) + One(old(channel))
      ensures failed == (old(channel).Some? && b.channelCloseFails)
    {
      failed := false;
      if channel.Some? {
        channelCloses := channelCloses + multiset{channel.value};
        failed := b.channelCloseFails;
        channel := None;
      }
    }

    method CloseConnection(b: Broker) returns (failed: bool)
      modifies this`conn, this`connCloses
      ensures conn.None? && connCloses == old(connCloses) + One(old(conn))
      ensures failed == (old(conn).Some? && b.connCloseFails)
    {
      failed := false;
      if conn.Some? {
        connCloses := connCloses + multiset{conn.value};
        failed := b.connCloseFails;
        conn := None;
      }
    }

    method EnsureChannel(b: Broker) returns (result: Option<nat>)
      modifies this
      ensures View() == Ensured(old(View()), uri != "", b) && result == Got(old(View()), uri != "", b)
    {
      if channel.Some? && b.channelAlive {
        return channel;
      }
      if uri == "" {
        return None;
      }
      var failed := CloseLocked(b);
      if failed {
        return None;
      }
      result := Dial(b);
    }

    method Dial(b: Broker) returns (result: Option<nat>)
      requires channel.None? && conn.None?
      modifies this
      ensures View() == Redialled(old(View()), b) && result == channel
    {
      if !b.dials {
        return None;
      }
      var dialledConn := dialled;
      dialled := dialled + 1;
      if !b.opensChannel {
        connCloses := connCloses + multiset{dialledConn};
        return None;
      }
      channels := channels + {dialledConn};
      if !b.declares {
        channelCloses := channelCloses + multiset{dialledConn};
        connCloses := connCloses + multiset{dialledConn};
        return None;
      }
      conn := Some(dialledConn);
      channel := Some(dialledConn);
      declared := true;
      return channel;
    }

    /** Reset and Close are closeLocked under the mutex. */
    method Reset(b: Broker) returns (failed: bool)
      modifies this
      ensures View() == ClosedLink(old(View())) && failed == CloseFailed(old(View()), b)
    {
      failed := CloseLocked(b);
    }

    /** A publish that nothing interrupts; the link is reset exactly when the message could not be sent. */
    method Publish(marshals: bool, b: Broker, sends: bool, onReset: Broker) returns (ok: bool)
      modifies this
      ensures ok <==> marshals && Got(old(View()), uri != "", b).Some? && sends
      ensures View() == if !marshals then old(View())
                        else if Got(old(View()), uri != "", b).Some? && !sends
                        then ClosedLink(Ensured(old(View()), uri != "", b))
                        else Ensured(old(View()), uri != "", b)
    {
      if !marshals {
        return false;
      }
      var got := EnsureChannel(b);
      if got.None? {
        return false;
      }
      if !sends {
        var failed := Reset(onReset);
        return false;
      }
      return true;
    }
  }

  /**
   A channel is returned exactly when the one held is alive or, with a URI, what is held closes without error and dialling,
   opening and declaring all succeed. A connection is dialled exactly when it is needed, allowed and answered.
   */
  lemma ChannelExactly(s: Link, hasUri: bool, b: Broker)
    ensures var alive := s.channel.Some? && b.channelAlive;
            var closes := !(s.channel.Some? && b.channelCloseFails) && !(s.conn.Some? && b.connCloseFails);
            (Got(s, hasUri, b).Some? <==> alive || (hasUri && closes && b.dials && b.opensChannel && b.declares))
            && (alive ==> Got(s, hasUri, b) == s.channel && Ensured(s, hasUri, b) == s)
            && Ensured(s, hasUri, b).dialled == s.dialled + (if !alive && hasUri && closes && b.dials then 1 else 0)
            && (!alive && hasUri && !closes ==> Ensured(s, hasUri, b).conn.None? && Ensured(s, hasUri, b).channel.None?)
  {
  }

  // ---------------------------------------------------------------- ownership

  /**
   Connection, channel and declared flag are set together or not at all, and belong together; every connection ever
   dialled, other than the one held, has been closed exactly once, the held one never; likewise every channel opened.
   */
  ghost predicate Owned(s: Link) {
    s.conn == s.channel && (s.declared <==> s.conn.Some?)
    && (s.conn.Some? ==> s.conn.value < s.dialled && s.conn.value in s.channels)
    && (forall n :: n in s.channels ==> n < s.dialled)
    && (forall n: nat :: s.connCloses[n] == if n < s.dialled && s.conn != Some(n) then 1 else 0)
    && (forall n: nat :: s.channelCloses[n] == if n in s.channels && s.channel != Some(n) then 1 else 0)
  }

  lemma CloseKeepsOwned(s: Link)
    requires Owned(s)
    ensures Owned(ClosedLink(s))
  {
  }

  lemma RedialKeepsOwned(s: Link, b: Broker)
    requires Owned(s) && s.conn.None?
    ensures Owned(Redialled(s, b))
    ensures Redialled(s, b).channel.Some? <==> b.dials && b.opensChannel && b.declares
  {
  }

  /** A channel that ensureChannel returns is the one held; when it returns none though a URI is set, none is held. */
  lemma EnsureKeepsOwned(s: Link, hasUri: bool, b: Broker)
    requires Owned(s)
    ensures Owned(Ensured(s, hasUri, b))
    ensures Got(s, hasUri, b).Some? ==> Ensured(s, hasUri, b).channel == Got(s, hasUri, b)
    ensures Got(s, hasUri, b).None? && hasUri ==> Ensured(s, hasUri, b).conn.None?
  {
    CloseKeepsOwned(s);
    RedialKeepsOwned(ClosedLink(s), b);
  }

  lemma EnsureKeepsOpened(s: Link, hasUri: bool, b: Broker)
    ensures s.channels <= Ensured(s, hasUri, b).channels
  {
  }

  // ---------------------------------------------------------------- interleaved publishes

  /** A publish between its critical sections: about to send on a channel, or to reset after a send on it failed. */
  datatype Publishing = Sending(channel: nat) | Resetting(channel: nat)

  datatype Net = Net(link: Link, publishing: map<nat, Publishing>, sent: seq<nat>)

  /** Each step is one hold of the mutex, or a send, which is made without it. */
  datatype Step =
    | Ensure(thread: nat, b: Broker)
    | Send(thread: nat, accepted: bool)
    | ResetAfter(thread: nat)
    | Shut

  function Perform(n: Net, hasUri: bool, a: Step): Net {
    match a
    case Ensure(t, b) =>
      if t in n.publishing then n
      else
        var got := Got(n.link, hasUri, b);
        n.(link := Ensured(n.link, hasUri, b),
           publishing := if got.Some? then n.publishing[t := Sending(got.value)] else n.publishing)
    case Send(t, accepted) =>
      if t !in n.publishing || n.publishing[t].Resetting? then n
      else
        var ch := n.publishing[t].channel;
        // a channel that was closed refuses every message
        if accepted && n.link.channelCloses[ch] == 0 then n.(publishing := n.publishing - {t}, sent := n.sent + [ch])
        else n.(publishing := n.publishing[t := Resetting(ch)])
    case ResetAfter(t) =>
      if t !in n.publishing || n.publishing[t].Sending? then n
      else n.(link := ClosedLink(n.link), publishing := n.publishing - {t})
    case Shut => n.(link := ClosedLink(n.link))
  }

  function Reached(hasUri: bool, steps: seq<Step>): Net {
    if steps == [] then Net(UNCONNECTED, map[], [])
    else Perform(Reached(hasUri, steps[..|steps| - 1]), hasUri, steps[|steps| - 1])
  }

  ghost predicate NetOk(n: Net) {
    Owned(n.link)
    && (forall t :: t in n.publishing ==> n.publishing[t].channel in n.link.channels)
    && (forall i :: 0 <= i < |n.sent| ==> n.sent[i] in n.link.channels)
  }

  lemma PerformKeepsOk(n: Net, hasUri: bool, a: Step)
    requires NetOk(n)
    ensures NetOk(Perform(n, hasUri, a))
  {
    if a.Ensure? {
      EnsureKeepsOwned(n.link, hasUri, a.b);
      EnsureKeepsOpened(n.link, hasUri, a.b);
    } else if a.ResetAfter? || a.Shut? {
      CloseKeepsOwned(n.link);
    }
  }

  lemma {:induction false} EveryNetIsOk(hasUri: bool, steps: seq<Step>)
    ensures NetOk(Reached(hasUri, steps))
  {
    if steps != [] {
      EveryNetIsOk(hasUri, steps[..|steps| - 1]);
      PerformKeepsOk(Reached(hasUri, steps[..|steps| - 1]), hasUri, steps[|steps| - 1]);
    }
  }

  lemma {:induction false} CloseCount(m: multiset<nat>, dialled: nat, held: Option<nat>)
    requires held.Some? ==> held.value < dialled
    requires forall n: nat :: m[n] == if n < dialled && held != Some(n) then 1 else 0
    ensures |m| == dialled - if held.Some? then 1 else 0
  {
    if dialled == 0 {
      assert m == multiset{};
    } else if held == Some(dialled - 1) {
      CloseCount(m, dialled - 1, None);
    } else {
      var rest := m - multiset{dialled - 1};
      assert m == rest + multiset{dialled - 1};
      CloseCount(rest, dialled - 1, held);
    }
  }

  /**
   However publishes, resets and closes interleave and whatever the broker answers, connections dialled minus calls
   of Close on them is one if the publisher holds a connection and zero otherwise, and no connection is closed twice.
   */
  lemma ConnectionsBalance(hasUri: bool, steps: seq<Step>)
    ensures var s := Reached(hasUri, steps).link;
            s.dialled - |s.connCloses| == (if s.conn.Some? then 1 else 0)
            && (s.conn.Some? <==> s.channel.Some?) && (s.conn.Some? <==> s.declared)
            && forall n: nat :: s.connCloses[n] <= 1
  {
    EveryNetIsOk(hasUri, steps);
    var s := Reached(hasUri, steps).link;
    CloseCount(s.connCloses, s.dialled, s.conn);
  }

  /** Any Close, after whatever came before, leaves nothing open. */
  lemma ShutLeavesNothingOpen(hasUri: bool, steps: seq<Step>)
    ensures var s := Reached(hasUri, steps + [Shut]).link;
            |s.connCloses| == s.dialled && s.conn.None? && s.channel.None? && !s.declared
  {
    assert (steps + [Shut])[..|steps|] == steps;
    ConnectionsBalance(hasUri, steps + [Shut]);
  }

  /**
   The reset after a failed send closes no connection but the one it failed on, exactly when the publisher holds that
   connection still or none at all. Either way the connection it failed on has been closed by then.
   */
  lemma ResetClosesItsOwnExactly(hasUri: bool, steps: seq<Step>, t: nat)
    requires t in Reached(hasUri, steps).publishing && Reached(hasUri, steps).publishing[t].Resetting?
    ensures var n, after := Reached(hasUri, steps), Perform(Reached(hasUri, steps), hasUri, ResetAfter(t));
            var own := n.publishing[t].channel;
            ((forall k: nat :: k != own ==> after.link.connCloses[k] == n.link.connCloses[k])
             <==> n.link.conn.None? || n.link.conn == Some(own))
            && after.link.connCloses[own] == 1
  {
    EveryNetIsOk(hasUri, steps);
    var n, after := Reached(hasUri, steps), Perform(Reached(hasUri, steps), hasUri, ResetAfter(t));
    CloseKeepsOwned(n.link);
    if n.link.conn.Some? {
      var held := n.link.conn.value;
      assert after.link.connCloses[held] == n.link.connCloses[held] + 1;
    }
  }

  lemma ReachedNext(hasUri: bool, steps: seq<Step>, a: Step)
    ensures Reached(hasUri, steps + [a]) == Perform(Reached(hasUri, steps), hasUri, a)
  {
    assert (steps + [a])[..|steps|] == steps;
  }

  /** Two publishes that fail on one channel, a reset by the first, and a third publish that dials anew. */
  function Crossing(t0: nat, t1: nat, t2: nat, up: Broker): seq<Step> {
    [Send(t0, false)] + [Send(t1, false)] + [ResetAfter(t0)] + [Ensure(t2, up)]
  }

  /** From any state in which two publishes are about to send on the channel held, the second is left to close a new connection. */
  lemma LateResetClosesAnother(steps: seq<Step>, t0: nat, t1: nat, t2: nat, up: Broker)
    requires var n := Reached(true, steps);
             n.link.channel.Some? && t0 != t1 && t0 in n.publishing && t1 in n.publishing && t2 !in n.publishing
             && n.publishing[t0] == n.publishing[t1] == Sending(n.link.channel.value)
    requires up.dials && up.opensChannel && up.declares
    ensures var n, late := Reached(true, steps), Reached(true, steps + Crossing(t0, t1, t2, up));
            t1 in late.publishing && late.publishing[t1] == Resetting(n.link.channel.value)
            && t2 in late.publishing && late.publishing[t2] == Sending(n.link.dialled)
            && late.link.conn == Some(n.link.dialled) && n.link.channel.value != n.link.dialled && late.sent == n.sent
  {
    EveryNetIsOk(true, steps);
    CrossingSteps(steps, t0, t1, t2, up);
    var closed := FirstReset(Reached(true, steps), t0, t1, t2);
    Redial(closed, t2, up);
  }

  lemma Redial(n: Net, t: nat, up: Broker)
    requires n.link.channel.None? && n.link.conn.None? && t !in n.publishing && up.dials && up.opensChannel && up.declares
    ensures var m := Perform(n, true, Ensure(t, up));
            m.publishing == n.publishing[t := Sending(n.link.dialled)] && m.link.conn == Some(n.link.dialled) && m.sent == n.sent
  {
  }

  lemma CrossingSteps(steps: seq<Step>, t0: nat, t1: nat, t2: nat, up: Broker)
    ensures Reached(true, steps + Crossing(t0, t1, t2, up)) ==
            Perform(Perform(Perform(Perform(Reached(true, steps), true, Send(t0, false)), true, Send(t1, false)), true, ResetAfter(t0)),
                    true, Ensure(t2, up))
  {
    var a := steps + [Send(t0, false)];
    var b := a + [Send(t1, false)];
    var c := b + [ResetAfter(t0)];
    ReachedNext(true, steps, Send(t0, false));
    ReachedNext(true, a, Send(t1, false));
    ReachedNext(true, b, ResetAfter(t0));
    ReachedNext(true, c, Ensure(t2, up));
    assert steps + Crossing(t0, t1, t2, up) == c + [Ensure(t2, up)];
  }

  lemma FirstReset(n: Net, t0: nat, t1: nat, t2: nat) returns (closed: Net)
    requires t0 != t1 && t0 in n.publishing && n.publishing[t0].Sending? && t1 in n.publishing && n.publishing[t1].Sending?
    requires t2 !in n.publishing
    ensures closed == Perform(Perform(Perform(n, true, Send(t0, false)), true, Send(t1, false)), true, ResetAfter(t0))
    ensures closed.link == ClosedLink(n.link) && closed.sent == n.sent
    ensures t1 in closed.publishing && closed.publishing[t1] == Resetting(n.publishing[t1].channel) && t2 !in closed.publishing
  {
    closed := Perform(n, true, Send(t0, false));
    closed := Perform(closed, true, Send(t1, false));
    closed := Perform(closed, true, ResetAfter(t0));
  }

  /** Such a state is reached from the start by two publishes, so seven steps let a reset close a connection that is in use. */
  lemma LateResetHappens(up: Broker) returns (steps: seq<Step>)
    requires up.dials && up.opensChannel && up.declares && up.channelAlive
    ensures var n, after := Reached(true, steps), Perform(Reached(true, steps), true, ResetAfter(1));
            1 in n.publishing && n.publishing[1] == Resetting(0) && 2 in n.publishing && n.publishing[2] == Sending(1)
            && n.link.connCloses[1] == 0 && after.link.connCloses[1] == 1 && after.link.conn.None?
            && Perform(after, true, Send(2, true)).sent == []
  {
    var two := [] + [Ensure(0, up)] + [Ensure(1, up)];
    TwoPublishesMeet(up, two);
    LateResetClosesAnother(two, 0, 1, 2, up);
    steps := two + Crossing(0, 1, 2, up);
    EveryNetIsOk(true, steps);
    LateReset(Reached(true, steps), 1, 2);
  }

  lemma LateReset(n: Net, t: nat, u: nat)
    requires NetOk(n) && t in n.publishing && n.publishing[t].Resetting? && u in n.publishing && n.publishing[u].Sending?
    requires n.link.conn == Some(n.publishing[u].channel)
    ensures var after, k := Perform(n, true, ResetAfter(t)), n.publishing[u].channel;
            n.link.connCloses[k] == 0 && after.link.connCloses[k] == 1 && after.link.conn.None?
            && Perform(after, true, Send(u, true)).sent == n.sent
  {
    var after := Perform(n, true, ResetAfter(t));
    CloseKeepsOwned(n.link);
    assert after.link.channelCloses[n.publishing[u].channel] > 0;
  }

  lemma TwoPublishesMeet(up: Broker, two: seq<Step>)
    requires up.dials && up.opensChannel && up.declares && up.channelAlive && two == [] + [Ensure(0, up)] + [Ensure(1, up)]
    ensures var n := Reached(true, two);
            n.link.channel == Some(0) && n.link.dialled == 1 && n.sent == [] && n.publishing == map[0 := Sending(0), 1 := Sending(0)]
  {
    ReachedNext(true, [], Ensure(0, up));
    ReachedNext(true, [] + [Ensure(0, up)], Ensure(1, up));
  }
}
