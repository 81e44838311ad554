/** The two pollers. EpollPoller keeps a plain fd map beside the kernel's interest list;
    WSPollPoller keeps two parallel vectors with swap-remove and an index map.
    Channels are known here by an id; `added` stands for their m_added flags. */
module Pollers {

  type Fd = int
  type ChannelId = nat

  datatype Interest = Interest(reading: bool, writing: bool)

  const NO_EVENTS := Interest(false, false)

  /** What a poller reads of a Channel. */
  datatype Channel = Channel(id: ChannelId, fd: Fd, interest: Interest)

  datatype Entry = Entry(channel: ChannelId, interest: Interest)

  /** The map both pollers stand for. */
  datatype Registry = Registry(entries: map<Fd, Entry>, added: set<ChannelId>)

  const EMPTY := Registry(map[], {})

  function Removed(r: Registry, c: Channel): Registry {
    if c.fd !in r.entries then r else Registry(r.entries - {c.fd}, r.added - {c.id})
  }

  function Updated(r: Registry, c: Channel): Registry {
    if c.interest == NO_EVENTS then
      Removed(r, c)
    else if c.fd in r.entries then
      r.(entries := r.entries[c.fd := r.entries[c.fd].(interest := c.interest)])
    else
      Registry(r.entries[c.fd := Entry(c.id, c.interest)], r.added + {c.id})
  }

  datatype PollerCall = Update(channel: Channel) | Remove(channel: Channel)

  function Apply(r: Registry, call: PollerCall): Registry {
    match call
    case Update(c) => Updated(r, c)
    case Remove(c) => Removed(r, c)
  }

  function Replay(calls: seq<PollerCall>): Registry {
    if calls == [] then EMPTY else Apply(Replay(calls[..|calls| - 1]), calls[|calls| - 1])
  }

  // ---------- Readiness ----------

  datatype Ready = Ready(input: bool, output: bool, error: bool, hangup: bool, peerHangup: bool)

  const NOT_READY := Ready(false, false, false, false, false)

  datatype Revents = Revents(readable: bool, writable: bool, error: bool, hangup: bool)

  function TransRevents(e: Ready): Revents {
    Revents(e.input, e.output, e.error, e.hangup || e.peerHangup)
  }

  /** A channel that Poll hands to the loop, with the fd it was found under. */
  datatype Active = Active(fd: Fd, channel: ChannelId, revents: Revents)

  predicate IsReady(ready: map<Fd, Ready>, fd: Fd) {
    fd in ready && ready[fd] != NOT_READY
  }

  /** Poll must report the channel of each registered fd that is ready, once, and nothing else. */
  ghost predicate Reports(entries: map<Fd, Entry>, ready: map<Fd, Ready>, active: seq<Active>) {
    && (forall i :: 0 <= i < |active| ==>
          && active[i].fd in entries && IsReady(ready, active[i].fd)
          && active[i].channel == entries[active[i].fd].channel
          && var was, got := ready[active[i].fd], active[i].revents;
             && got.readable == was.input && got.writable == was.output && got.error == was.error
             && got.hangup == (was.hangup || was.peerHangup))
    && (forall i, j :: 0 <= i < j < |active| ==> active[i].fd != active[j].fd)
    && (forall fd :: fd in entries && IsReady(ready, fd) ==> Reported(active, fd))
  }

  ghost predicate Reported(active: seq<Active>, fd: Fd) {
    exists i :: 0 <= i < |active| && active[i].fd == fd
  }

  /** The two collection loops, seen from the fds they have gone through. */
  ghost predicate ReportsOf(entries: map<Fd, Entry>, ready: map<Fd, Ready>, fds: set<Fd>, active: seq<Active>) {
    Reports(map fd | fd in entries && fd in fds :: entries[fd], ready, active)
  }

  lemma ReportOne(entries: map<Fd, Entry>, ready: map<Fd, Ready>, fds: set<Fd>, active: seq<Active>, fd: Fd)
    requires ReportsOf(entries, ready, fds, active) && fd !in fds
    ensures !(fd in entries && IsReady(ready, fd)) ==> ReportsOf(entries, ready, fds + {fd}, active)
    ensures fd in entries && IsReady(ready, fd) ==>
              var one := Active(fd, entries[fd].channel, TransRevents(ready[fd]));
              ReportsOf(entries, ready, fds + {fd}, active + [one])
  {
    if fd in entries && IsReady(ready, fd) {
      var more := active + [Active(fd, entries[fd].channel, TransRevents(ready[fd]))];
      assert more[|active|].fd == fd;
      forall f | f in entries && f in fds && IsReady(ready, f)
        ensures Reported(more, f)
      {
        var i :| 0 <= i < |active| && active[i].fd == f;
        assert more[i].fd == f;
      }
    }
  }

  // ---------- Windows ----------

  datatype PollFd = PollFd(fd: Fd, events: Interest)

  /** The index map and the two vectors are inverse to each other. */
  ghost predicate Indexed(pollfds: seq<PollFd>, channels: seq<ChannelId>, idx: map<Fd, nat>) {
    && |channels| == |pollfds|
    && (forall i :: 0 <= i < |pollfds| ==> pollfds[i].fd in idx && idx[pollfds[i].fd] == i)
    && (forall fd :: fd in idx ==> idx[fd] < |pollfds| && pollfds[idx[fd]].fd == fd)
  }

  ghost function EntriesOf(pollfds: seq<PollFd>, channels: seq<ChannelId>, idx: map<Fd, nat>): map<Fd, Entry>
    requires Indexed(pollfds, channels, idx)
  {
    map fd | fd in idx :: Entry(channels[idx[fd]], pollfds[idx[fd]].events)
  }

  lemma PushKeepsIndex(pollfds: seq<PollFd>, channels: seq<ChannelId>, idx: map<Fd, nat>, pfd: PollFd, id: ChannelId)
    requires Indexed(pollfds, channels, idx) && pfd.fd !in idx
    ensures var p, c, m := pollfds + [pfd], channels + [id], idx[pfd.fd := |pollfds|];
            Indexed(p, c, m) && EntriesOf(p, c, m) == EntriesOf(pollfds, channels, idx)[pfd.fd := Entry(id, pfd.events)]
  {
    var p, c, m := pollfds + [pfd], channels + [id], idx[pfd.fd := |pollfds|];
    assert Indexed(p, c, m);
    var was, now := EntriesOf(pollfds, channels, idx), EntriesOf(p, c, m);
    assert now.Keys == was.Keys + {pfd.fd};
    assert forall fd :: fd in was ==> now[fd] == was[fd];
  }

  lemma OverwriteKeepsIndex(pollfds: seq<PollFd>, channels: seq<ChannelId>, idx: map<Fd, nat>, pfd: PollFd)
    requires Indexed(pollfds, channels, idx) && pfd.fd in idx
    ensures var p := pollfds[idx[pfd.fd] := pfd];
            && Indexed(p, channels, idx)
            && EntriesOf(p, channels, idx)
               == var e := EntriesOf(pollfds, channels, idx); e[pfd.fd := e[pfd.fd].(interest := pfd.events)]
  {
    var p := pollfds[idx[pfd.fd] := pfd];
    var was, now := EntriesOf(pollfds, channels, idx), EntriesOf(p, channels, idx);
    assert now.Keys == was.Keys;
    assert forall fd :: fd in was && fd != pfd.fd ==> idx[fd] != idx[pfd.fd] && now[fd] == was[fd];
  }

  /** Moving the last entry into the hole and popping keeps the index and drops just that fd. */
  lemma SwapRemoveKeepsIndex(pollfds: seq<PollFd>, channels: seq<ChannelId>, idx: map<Fd, nat>, fd: Fd)
    requires Indexed(pollfds, channels, idx) && fd in idx
    ensures var i, last := idx[fd], |pollfds| - 1;
            var p := pollfds[i := pollfds[last]][..last];
            var c := channels[i := channels[last]][..last];
            var m := idx[pollfds[last].fd := i] - {fd};
            Indexed(p, c, m) && EntriesOf(p, c, m) == EntriesOf(pollfds, channels, idx) - {fd}
  {
    var i, last := idx[fd], |pollfds| - 1;
    var p := pollfds[i := pollfds[last]][..last];
    var c := channels[i := channels[last]][..last];
    var m := idx[pollfds[last].fd := i] - {fd};
    forall f | f in m
      ensures m[f] < last && p[m[f]].fd == f && p[m[f]] == pollfds[idx[f]] && c[m[f]] == channels[idx[f]]
    {
    }
    assert Indexed(p, c, m);
    var was, now := EntriesOf(pollfds, channels, idx), EntriesOf(p, c, m);
    assert now.Keys == was.Keys - {fd};
  }

  class WSPollPoller {
    var pollfds: seq<PollFd>
    var channels: seq<ChannelId>
    var fdToIdx: map<Fd, nat>
    var added: set<ChannelId>

    ghost predicate Valid()
      reads this
    {
      Indexed(pollfds, channels, fdToIdx)
    }

    ghost function View(): Registry
      requires Valid()
      reads this
    {
      Registry(EntriesOf(pollfds, channels, fdToIdx), added)
    }

    constructor ()
      ensures Valid() && View() == EMPTY
    {
      pollfds, channels, fdToIdx, added := [], [], map[], {};
    }

    method UpdateChannel(channel: Channel)
      requires Valid()
      modifies this
      ensures Valid() && View() == Updated(old(View()), channel)
    {
      var fd := channel.fd;
      if channel.interest == NO_EVENTS {
        if fd in fdToIdx {
          RemoveChannel(channel);
        }
        return;
      }
      var pfd := PollFd(fd, channel.interest);
      if fd !in fdToIdx {
        PushKeepsIndex(pollfds, channels, fdToIdx, pfd, channel.id);
        pollfds := pollfds + [pfd];
        channels := channels + [channel.id];
        fdToIdx := fdToIdx[fd := |pollfds| - 1];
        added := added + {channel.id};
      } else {
        OverwriteKeepsIndex(pollfds, channels, fdToIdx, pfd);
        pollfds := pollfds[fdToIdx[fd] := pfd];
      }
    }

    /** Swaps the entry with the last one and pops. */
    method RemoveChannel(channel: Channel)
      requires Valid()
      modifies this
      ensures Valid() && View() == Removed(old(View()), channel)
    {
      var fd := channel.fd;
      if fd !in fdToIdx {
        return;
      }
      var idx := fdToIdx[fd];
      var last := |pollfds| - 1;
      SwapRemoveKeepsIndex(pollfds, channels, fdToIdx, fd);
      ghost var p, c := pollfds[idx := pollfds[last]][..last], channels[idx := channels[last]][..last];
      ghost var m := fdToIdx[pollfds[last].fd := idx] - {fd};
      if idx != last {
        pollfds := pollfds[idx := pollfds[last]][last := pollfds[idx]];
        channels := channels[idx := channels[last]][last := channels[idx]];
        var lastFd := pollfds[idx].fd;
        fdToIdx := fdToIdx[lastFd := idx];
      }
      pollfds := pollfds[..last];
      channels := channels[..last];
      fdToIdx := fdToIdx - {fd};
      added := added - {channel.id};
      assert pollfds == p && channels == c && fdToIdx == m;
    }

    /** The collection loop of Poll, after WSAPoll has set the revents to `ready`. */
    method Collect(ready: map<Fd, Ready>) returns (active: seq<Active>)
      requires Valid()
      ensures Reports(View().entries, ready, active)
    {
      active := [];
      ghost var entries := View().entries;
      ghost var seen: set<Fd> := {};
      for i := 0 to |pollfds|
        invariant forall fd :: fd in seen <==> fd in fdToIdx && fdToIdx[fd] < i
        invariant ReportsOf(entries, ready, seen, active)
      {
        var fd := pollfds[i].fd;
        ReportOne(entries, ready, seen, active, fd);
        if fd in ready && ready[fd] != NOT_READY {
          active := active + [Active(fd, channels[i], TransRevents(ready[fd]))];
        }
        seen := seen + {fd};
      }
      assert forall fd :: fd in entries ==> fd in seen;
      assert (map fd | fd in entries && fd in seen :: entries[fd]) == entries;
    }
  }

  // ---------- Linux ----------

  class EpollPoller {
    var fdToChannel: map<Fd, ChannelId>
    var kernel: map<Fd, Interest>  // the interest list behind m_epoll_fd
    var added: set<ChannelId>

    ghost predicate Valid()
      reads this
    {
      fdToChannel.Keys == kernel.Keys
    }

    ghost function View(): Registry
      requires Valid()
      reads this
    {
      Registry(map fd | fd in fdToChannel :: Entry(fdToChannel[fd], kernel[fd]), added)
    }

    constructor ()
      ensures Valid() && View() == EMPTY
    {
      fdToChannel, kernel, added := map[], map[], {};
    }

    method UpdateChannel(channel: Channel)
      requires Valid()
      modifies this
      ensures Valid() && View() == Updated(old(View()), channel)
    {
      var fd := channel.fd;
      if channel.interest == NO_EVENTS {
        if fd in fdToChannel {
          RemoveChannel(channel);
        }
        return;
      }
      if fd in fdToChannel {
        kernel := kernel[fd := channel.interest];
      } else {
        fdToChannel := fdToChannel[fd := channel.id];
        kernel := kernel[fd := channel.interest];
        added := added + {channel.id};
      }
    }

    method RemoveChannel(channel: Channel)
      requires Valid()
      modifies this
      ensures Valid() && View() == Removed(old(View()), channel)
    {
      var fd := channel.fd;
      if fd !in fdToChannel {
        return;
      }
      kernel := kernel - {fd};
      fdToChannel := fdToChannel - {fd};
      added := added - {channel.id};
    }

    /** The dispatch loop of Poll over the array that epoll_wait has filled: some of the ready fds, each
        once. All of them if the array had room. Unknown fds are skipped. */
    method Collect(events: seq<Fd>, ready: map<Fd, Ready>) returns (active: seq<Active>)
      requires Valid()
      requires forall i :: 0 <= i < |events| ==> IsReady(ready, events[i])
      requires forall i, j :: 0 <= i < j < |events| ==> events[i] != events[j]
      ensures Reports(View().entries, map fd | fd in ready && fd in events :: ready[fd], active)
      ensures (forall fd :: IsReady(ready, fd) ==> fd in events) ==> Reports(View().entries, ready, active)
    {
      active := [];
      ghost var entries := View().entries;
      ghost var found := map fd | fd in ready && fd in events :: ready[fd];
      ghost var seen: set<Fd> := {};
      for i := 0 to |events|
        invariant forall fd :: fd in seen <==> fd in events[..i]
        invariant ReportsOf(entries, found, seen, active)
      {
        var fd := events[i];
        assert fd in events && fd !in events[..i];
        ReportOne(entries, found, seen, active, fd);
        if fd in fdToChannel {
          active := active + [Active(fd, fdToChannel[fd], TransRevents(ready[fd]))];
        }
        seen := seen + {fd};
      }
      assert events[..|events|] == events;
      SeenAll(entries, found, seen, active);
    }
  }

  /** Fds that are not ready need not be gone through. */
  lemma SeenAll(entries: map<Fd, Entry>, ready: map<Fd, Ready>, fds: set<Fd>, active: seq<Active>)
    requires ReportsOf(entries, ready, fds, active) && forall fd :: IsReady(ready, fd) ==> fd in fds
    ensures Reports(entries, ready, active)
  {
  }

  // ---------- What the registry is after any calls ----------

  /** The channel no longer wants anything. */
  predicate Withdraws(call: PollerCall) {
    call.Remove? || (!call.channel.interest.reading && !call.channel.interest.writing)
  }

  /** The calls on one fd, in order. */
  function CallsOn(calls: seq<PollerCall>, fd: Fd): seq<PollerCall> {
    if calls == [] then []
    else
      var last := calls[|calls| - 1];
      CallsOn(calls[..|calls| - 1], fd) + if last.channel.fd == fd then [last] else []
  }

  /** The first of them since the last withdrawal, or at all. */
  function Opener(calls: seq<PollerCall>): PollerCall
    requires calls != []
  {
    var n := |calls| - 1;
    if n == 0 || Withdraws(calls[n - 1]) then calls[n] else Opener(calls[..n])
  }

  /** An fd has an entry iff the last call on it is not a withdrawal. Its interest is that of this last
      call, and its channel the one that made the first call since the last withdrawal. */
  ghost predicate Reflects(r: Registry, calls: seq<PollerCall>, fd: Fd) {
    ReflectsOn(r, CallsOn(calls, fd), fd)
  }

  ghost predicate ReflectsOn(r: Registry, on: seq<PollerCall>, fd: Fd) {
    && (fd in r.entries <==> on != [] && !Withdraws(on[|on| - 1]))
    && (fd in r.entries ==>
          && r.entries[fd].interest == on[|on| - 1].channel.interest
          && r.entries[fd].channel == Opener(on).channel.id)
  }

  lemma OpenerMore(on: seq<PollerCall>, call: PollerCall)
    ensures Opener(on + [call]) ==
            if on == [] || Withdraws(on[|on| - 1]) then call else Opener(on)
  {
    assert (on + [call])[..|on|] == on;
  }

  lemma CallsOnMore(calls: seq<PollerCall>, fd: Fd)
    requires calls != []
    ensures var last := calls[|calls| - 1];
            CallsOn(calls, fd) == if last.channel.fd == fd then CallsOn(calls[..|calls| - 1], fd) + [last]
                                  else CallsOn(calls[..|calls| - 1], fd)
  {
  }

  lemma {:induction false} ReplayReflects(calls: seq<PollerCall>, fd: Fd)
    ensures Reflects(Replay(calls), calls, fd)
  {
    if calls != [] {
      var before, call := calls[..|calls| - 1], calls[|calls| - 1];
      ReplayReflects(before, fd);
      CallsOnMore(calls, fd);
      ReflectsMore(Replay(before), CallsOn(before, fd), call, fd);
    }
  }

  lemma ReflectsMore(r: Registry, on: seq<PollerCall>, call: PollerCall, fd: Fd)
    requires ReflectsOn(r, on, fd)
    ensures ReflectsOn(Apply(r, call), if call.channel.fd == fd then on + [call] else on, fd)
  {
    OpenerMore(on, call);
    hide Opener;
    assert (on + [call])[|on|] == call;
  }

  // ---------- Both agree ----------

  /** The same calls leave the swap-remove vectors and the plain map with one and the same registry. */
  method Lockstep(calls: seq<PollerCall>) returns (w: WSPollPoller, e: EpollPoller)
    ensures w.Valid() && e.Valid()
    ensures w.View() == e.View() == Replay(calls)
    ensures forall fd :: Reflects(w.View(), calls, fd)
  {
    w := new WSPollPoller();
    e := new EpollPoller();
    for i := 0 to |calls|
      invariant fresh(w) && fresh(e) && w.Valid() && e.Valid()
      invariant w.View() == e.View() == Replay(calls[..i])
    {
      assert calls[..i + 1][..i] == calls[..i];
      match calls[i]
      case Update(c) =>
        w.UpdateChannel(c);
        e.UpdateChannel(c);
      case Remove(c) =>
        w.RemoveChannel(c);
        e.RemoveChannel(c);
    }
    assert calls[..|calls|] == calls;
    forall fd
      ensures Reflects(Replay(calls), calls, fd)
    {
      ReplayReflects(calls, fd);
    }
  }

  /** A channel keeps the fd it was made with. */
  ghost predicate FixedFds(calls: seq<PollerCall>) {
    forall i, j :: 0 <= i < |calls| && 0 <= j < |calls| && calls[i].channel.id == calls[j].channel.id ==>
      calls[i].channel.fd == calls[j].channel.fd
  }

  ghost predicate Owns(r: Registry, id: ChannelId) {
    exists fd :: fd in r.entries && r.entries[fd].channel == id
  }

  /** IsAdded says exactly which channels have an entry. */
  ghost predicate AddedIsOwning(r: Registry) {
    forall id :: id in r.added <==> Owns(r, id)
  }

  /** The call takes away an entry that belongs to another channel. */
  predicate TakesForeignEntry(r: Registry, call: PollerCall) {
    var c := call.channel;
    Withdraws(call) && c.fd in r.entries && r.entries[c.fd].channel != c.id
  }

  /** Throughout the calls, before and after each of them. */
  ghost predicate AlwaysAddedIsOwning(calls: seq<PollerCall>) {
    forall k :: 0 <= k <= |calls| ==> AddedIsOwning(Replay(calls[..k]))
  }

  ghost predicate NeverTakesForeignEntry(calls: seq<PollerCall>) {
    forall k :: 0 <= k < |calls| ==> !TakesForeignEntry(Replay(calls[..k]), calls[k])
  }

  /** Every entry was made by a channel with that fd. */
  ghost predicate EntriesFrom(r: Registry, calls: seq<PollerCall>) {
    forall fd :: fd in r.entries ==>
      exists k :: 0 <= k < |calls| && calls[k].channel.fd == fd && calls[k].channel.id == r.entries[fd].channel
  }

  lemma ReplayOneMore(calls: seq<PollerCall>, k: nat)
    requires k < |calls|
    ensures Replay(calls[..k + 1]) == Apply(Replay(calls[..k]), calls[k])
  {
    assert calls[..k + 1][..k] == calls[..k];
  }

  lemma {:induction false} ReplayEntriesFrom(calls: seq<PollerCall>, k: nat)
    requires k <= |calls|
    ensures EntriesFrom(Replay(calls[..k]), calls)
  {
    if k > 0 {
      ReplayEntriesFrom(calls, k - 1);
      ReplayOneMore(calls, k - 1);
    }
  }

  /** One call: IsAdded stays right exactly unless the call takes another channel's entry. */
  lemma OwningStep(r: Registry, calls: seq<PollerCall>, k: nat)
    requires FixedFds(calls) && k < |calls| && EntriesFrom(r, calls) && AddedIsOwning(r)
    ensures AddedIsOwning(Apply(r, calls[k])) <==> !TakesForeignEntry(r, calls[k])
  {
    var c, u := calls[k].channel, Apply(r, calls[k]);
    if TakesForeignEntry(r, calls[k]) {
      var owner := r.entries[c.fd].channel;
      assert Owns(r, owner) && owner in u.added;
      assert !Owns(u, owner) by {
        assert forall fd :: fd in r.entries && r.entries[fd].channel == owner ==> fd == c.fd;
      }
    } else {
      forall id
        ensures id in u.added <==> Owns(u, id)
      {
        assert id in r.added <==> Owns(r, id);
        if Owns(r, id) {
          var fd :| fd in r.entries && r.entries[fd].channel == id;
          assert fd in u.entries ==> u.entries[fd].channel == id;
        }
        assert c.fd in u.entries && c.fd !in r.entries ==> Owns(u, c.id);
      }
    }
  }

  /** Throughout any calls, also when fds are used again by later channels, IsAdded is membership
      exactly if no channel withdraws an fd whose entry belongs to another one. */
  lemma {:induction false} AddedIffRegistered(calls: seq<PollerCall>)
    requires FixedFds(calls)
    ensures AlwaysAddedIsOwning(calls) <==> NeverTakesForeignEntry(calls)
  {
    if NeverTakesForeignEntry(calls) {
      forall k | 0 <= k <= |calls|
        ensures AddedIsOwning(Replay(calls[..k]))
      {
        OwningUpTo(calls, k);
      }
    } else {
      var k :| 0 <= k < |calls| && TakesForeignEntry(Replay(calls[..k]), calls[k]);
      if AddedIsOwning(Replay(calls[..k])) {
        ReplayEntriesFrom(calls, k);
        OwningStep(Replay(calls[..k]), calls, k);
        ReplayOneMore(calls, k);
        assert !AddedIsOwning(Replay(calls[..k + 1]));
      }
    }
  }

  lemma {:induction false} OwningUpTo(calls: seq<PollerCall>, k: nat)
    requires FixedFds(calls) && NeverTakesForeignEntry(calls) && k <= |calls|
    ensures AddedIsOwning(Replay(calls[..k]))
  {
    if k > 0 {
      OwningUpTo(calls, k - 1);
      ReplayEntriesFrom(calls, k - 1);
      ReplayOneMore(calls, k - 1);
      OwningStep(Replay(calls[..k - 1]), calls, k - 1);
    }
  }

  /** While that holds, IsAdded tells a channel whether the entry under its fd is its own. */
  lemma AddedMeansOwnEntry(calls: seq<PollerCall>, k: nat)
    requires FixedFds(calls) && AlwaysAddedIsOwning(calls) && k < |calls|
    ensures var r, c := Replay(calls[..k]), calls[k].channel;
            c.id in r.added <==> c.fd in r.entries && r.entries[c.fd].channel == c.id
  {
    var r := Replay(calls[..k]);
    ReplayEntriesFrom(calls, k);
    assert AddedIsOwning(r);
    assert calls[k].channel.id in r.added <==> Owns(r, calls[k].channel.id);
  }

  /** The failing input: two channels on one fd, and the second withdraws. */
  lemma SharedFdBreaksIsAdded(fd: Fd, a: ChannelId, b: ChannelId, i: Interest)
    requires a != b && i != NO_EVENTS
    ensures var calls := [Update(Channel(a, fd, i)), Remove(Channel(b, fd, i))];
            FixedFds(calls) && a in Replay(calls).added && fd !in Replay(calls).entries
  {
    var c0, c1 := Update(Channel(a, fd, i)), Remove(Channel(b, fd, i));
    assert [c0, c1][..1] == [c0] && [c0][..0] == [];
    assert Replay([c0]) == Apply(Replay([]), c0);
  }
}
