/** What the service tells its status listeners. A notice goes to every
    listener registered at the moment it is sent; the order in which the
    listeners of one notice are called is not modelled. */
module Notifications {
  import opened Data

  /** An opaque handle for a registered status listener. */
  type ListenerId = nat

  datatype Message =
    | AlarmChanged(status: AlarmStatus)
    | SensorStatusChanged
    | CatSeen(cat: bool)

  /** One fan-out: the recipients, the message, and the alarm status the
      repository held while the listeners were being called. */
  datatype Notice = Notice(to: set<ListenerId>, msg: Message, stored: AlarmStatus)

  /** The notices that announce the writes `ws`, made through the alarm setter
      (which stores before it notifies). */
  function AlarmNotices(to: set<ListenerId>, ws: seq<AlarmStatus>): (ns: seq<Notice>)
    ensures |ns| == |ws|
    ensures forall i :: 0 <= i < |ws| ==> ns[i] == Notice(to, AlarmChanged(ws[i]), ws[i])
  {
    if ws == [] then [] else [Notice(to, AlarmChanged(ws[0]), ws[0])] + AlarmNotices(to, ws[1..])
  }

  lemma AlarmNoticesAppend(to: set<ListenerId>, a: seq<AlarmStatus>, b: seq<AlarmStatus>)
    ensures AlarmNotices(to, a + b) == AlarmNotices(to, a) + AlarmNotices(to, b)
  {
  }

  /** Sequence facts used from the service's methods, where proving them
      inline would be done in the much larger heap context. */
  lemma ConcatAssoc(a: seq<Notice>, b: seq<Notice>, c: seq<Notice>)
    ensures (a + b) + c == a + (b + c)
  {
  }

  lemma SuffixOfConcat(a: seq<Notice>, b: seq<Notice>)
    ensures (a + b)[|a|..] == b
  {
  }

  /** Every alarm notice reports a status that was already stored. */
  ghost predicate PersistedBeforeNotified(log: seq<Notice>)
  {
    forall i :: 0 <= i < |log| && log[i].msg.AlarmChanged? ==> log[i].stored == log[i].msg.status
  }

  /** The messages listener `l` received, in order. */
  function Received(log: seq<Notice>, l: ListenerId): seq<Message>
  {
    if log == [] then []
    else (if l in log[0].to then [log[0].msg] else []) + Received(log[1..], l)
  }

  function Count(ms: seq<Message>, m: Message): nat
  {
    if ms == [] then 0 else (if ms[0] == m then 1 else 0) + Count(ms[1..], m)
  }

  lemma {:induction false} ReceivedAppend(a: seq<Notice>, b: seq<Notice>, l: ListenerId)
    ensures Received(a + b, l) == Received(a, l) + Received(b, l)
  {
    if a != [] {
      assert (a + b)[1..] == a[1..] + b;
      ReceivedAppend(a[1..], b, l);
    } else {
      assert a + b == b;
    }
  }

  lemma {:induction false} CountAppend(a: seq<Message>, b: seq<Message>, m: Message)
    ensures Count(a + b, m) == Count(a, m) + Count(b, m)
  {
    if a != [] {
      assert (a + b)[1..] == a[1..] + b;
      CountAppend(a[1..], b, m);
    } else {
      assert a + b == b;
    }
  }

  /** Alarm notices carry no sensor-status refresh. */
  lemma {:induction false} AlarmNoticesNoRefresh(to: set<ListenerId>, ws: seq<AlarmStatus>, l: ListenerId)
    ensures Count(Received(AlarmNotices(to, ws), l), SensorStatusChanged) == 0
    decreases |ws|
  {
    if ws != [] {
      var n := Notice(to, AlarmChanged(ws[0]), ws[0]);
      assert AlarmNotices(to, ws) == [n] + AlarmNotices(to, ws[1..]);
      ReceivedAppend([n], AlarmNotices(to, ws[1..]), l);
      AlarmNoticesNoRefresh(to, ws[1..], l);
      CountAppend(Received([n], l), Received(AlarmNotices(to, ws[1..]), l), SensorStatusChanged);
      assert Received([n], l) == (if l in to then [n.msg] else []) + Received([], l);
    }
  }

  /** A run of alarm notices followed by one refresh gives each registered
      listener exactly one refresh and an unregistered one none. */
  lemma RefreshOncePerListener(to: set<ListenerId>, ws: seq<AlarmStatus>, stored: AlarmStatus)
    ensures forall l :: Count(Received(AlarmNotices(to, ws) + [Notice(to, SensorStatusChanged, stored)], l), SensorStatusChanged)
                        == if l in to then 1 else 0
  {
    var last := Notice(to, SensorStatusChanged, stored);
    forall l ensures Count(Received(AlarmNotices(to, ws) + [last], l), SensorStatusChanged) == if l in to then 1 else 0 {
      ReceivedAppend(AlarmNotices(to, ws), [last], l);
      AlarmNoticesNoRefresh(to, ws, l);
      assert Received([last], l) == (if l in to then [SensorStatusChanged] else []) + Received([], l);
      CountAppend(Received(AlarmNotices(to, ws), l), Received([last], l), SensorStatusChanged);
      if l in to {
        assert Count([SensorStatusChanged], SensorStatusChanged) == 1 + Count([], SensorStatusChanged);
      }
    }
  }

  /** The announced writes as a listener hears them: every registered listener
      hears every write, in order, each already stored when heard; a listener
      that is not registered hears nothing. */
  lemma {:induction false} AlarmNoticesHeard(to: set<ListenerId>, ws: seq<AlarmStatus>, l: ListenerId)
    ensures PersistedBeforeNotified(AlarmNotices(to, ws))
    ensures Received(AlarmNotices(to, ws), l) == if l in to then seq(|ws|, i requires 0 <= i < |ws| => AlarmChanged(ws[i])) else []
    decreases |ws|
  {
    if ws != [] {
      var n := Notice(to, AlarmChanged(ws[0]), ws[0]);
      var rest := ws[1..];
      assert AlarmNotices(to, ws) == [n] + AlarmNotices(to, rest);
      ReceivedAppend([n], AlarmNotices(to, rest), l);
      assert Received([n], l) == (if l in to then [n.msg] else []) + Received([], l);
      AlarmNoticesHeard(to, rest, l);
      if l in to {
        var all := seq(|ws|, i requires 0 <= i < |ws| => AlarmChanged(ws[i]));
        var tail := seq(|rest|, i requires 0 <= i < |rest| => AlarmChanged(rest[i]));
        assert all == [AlarmChanged(ws[0])] + tail;
      }
    }
  }
}
