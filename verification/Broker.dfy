/** The in-memory publish/subscribe broker: bounded queues against everything ever published. */
module Broker {
  import opened Common

  const CHANNELS: set<string> := {"prices", "signals", "metrics", "trades"}
  const MAX_QUEUE: nat := 1000

  datatype Msg = Msg(channel: string, data: string, at: real)

  /**
   All a client was ever sent since it registered, the positions of what it has read, and how
   many messages were pushed out unread.
   */
  datatype History = History(sent: seq<Msg>, taken: seq<nat>, dropped: nat)

  const NEWCOMER := History([], [], 0)

  function Enqueued(queue: seq<Msg>, m: Msg): seq<Msg> {
    (if |queue| < MAX_QUEUE then queue else queue[1..]) + [m]
  }

  function Sent(queue: seq<Msg>, h: History, m: Msg): History {
    h.(sent := h.sent + [m], dropped := h.dropped + if |queue| < MAX_QUEUE then 0 else 1)
  }

  function Took(queue: seq<Msg>, h: History): History
    requires |queue| <= |h.sent|
  {
    h.(taken := h.taken + [|h.sent| - |queue|])
  }

  /** What the client has read, in the order it read it. */
  function Read(h: History): seq<Msg>
    requires forall i | 0 <= i < |h.taken| :: h.taken[i] < |h.sent|
  {
    seq(|h.taken|, i requires 0 <= i < |h.taken| => h.sent[h.taken[i]])
  }

  /**
   The queue is the newest end of what was sent; what was read came before it, in order and once
   each; and read, queued and dropped account for everything sent.
   */
  ghost predicate Faithful(queue: seq<Msg>, h: History) {
    && |queue| <= MAX_QUEUE && |queue| <= |h.sent| && queue == h.sent[|h.sent| - |queue|..]
    && (forall i | 0 <= i < |h.taken| :: h.taken[i] < |h.sent| - |queue|)
    && (forall i, j | 0 <= i < j < |h.taken| :: h.taken[i] < h.taken[j])
    && |h.taken| + |queue| + h.dropped == |h.sent|
  }

  lemma SentFaithful(queue: seq<Msg>, h: History, m: Msg)
    requires Faithful(queue, h)
    ensures Faithful(Enqueued(queue, m), Sent(queue, h, m))
    ensures Read(Sent(queue, h, m)) == Read(h)
  {
  }

  lemma TookFaithful(queue: seq<Msg>, h: History)
    requires Faithful(queue, h) && |queue| > 0
    ensures Faithful(queue[1..], Took(queue, h))
    ensures Read(Took(queue, h)) == Read(h) + [queue[0]]
  {
  }

  /** A client nothing was dropped for has seen, or will see, every message in order. */
  lemma LosslessExactlyWhen(queue: seq<Msg>, h: History)
    requires Faithful(queue, h)
    ensures |Read(h) + queue| == |h.sent| <==> h.dropped == 0
    ensures h.dropped == 0 ==> Read(h) + queue == h.sent
  {
    if h.dropped == 0 {
      var n := |h.taken|;
      forall i | 0 <= i < n ensures h.taken[i] == i {
        Spread(h.taken, i);
      }
      assert Read(h) == h.sent[..n];
      assert h.sent == h.sent[..n] + h.sent[n..];
    }
  }

  /** An increasing list leaves room for its members on both sides. */
  lemma {:induction false} Spread(taken: seq<nat>, i: nat)
    requires i < |taken| && forall a, b | 0 <= a < b < |taken| :: taken[a] < taken[b]
    ensures taken[i] >= i
    ensures taken[|taken| - 1] - taken[i] >= |taken| - 1 - i
  {
    if i > 0 {
      Spread(taken[..i], i - 1);
    }
    if i < |taken| - 1 {
      Spread(taken[1..], i);
      RoomAfter(taken, i);
    }
  }

  lemma {:induction false} RoomAfter(taken: seq<nat>, i: nat)
    requires i < |taken| && forall a, b | 0 <= a < b < |taken| :: taken[a] < taken[b]
    ensures taken[|taken| - 1] - taken[i] >= |taken| - 1 - i
  {
    if i < |taken| - 1 {
      RoomAfter(taken[..|taken| - 1], i);
    }
  }

  /** The last message published on a channel. */
  function LastOn(log: seq<Msg>, channel: string): Option<Msg> {
    if |log| == 0 then None
    else if log[|log| - 1].channel == channel then Some(log[|log| - 1])
    else LastOn(log[..|log| - 1], channel)
  }

  lemma LastOnAppend(log: seq<Msg>, m: Msg, channel: string)
    ensures LastOn(log + [m], channel) == if m.channel == channel then Some(m) else LastOn(log, channel)
  {
  }

  function Subscribers(channels: map<string, set<string>>, channel: string): set<string> {
    set c | c in channels && channel in channels[c]
  }

  function Known(channels: seq<string>): (r: seq<string>)
    ensures forall ch :: ch in r <==> ch in channels && ch in CHANNELS
  {
    if |channels| == 0 then []
    else (if channels[0] in CHANNELS then [channels[0]] else []) + Known(channels[1..])
  }

  /** The queues after one message went to the clients in `hit` and nobody else. */
  ghost predicate FannedOut(
    q0: map<string, seq<Msg>>, h0: map<string, History>, q: map<string, seq<Msg>>, h: map<string, History>,
    hit: set<string>, m: Msg)
  {
    && q.Keys == q0.Keys == h.Keys == h0.Keys
    && forall c | c in q ::
         if c in hit then q[c] == Enqueued(q0[c], m) && h[c] == Sent(q0[c], h0[c], m)
         else q[c] == q0[c] && h[c] == h0[c]
  }

  lemma FannedOutNext(
    q0: map<string, seq<Msg>>, h0: map<string, History>, q: map<string, seq<Msg>>, h: map<string, History>,
    hit: set<string>, m: Msg, c: string)
    requires FannedOut(q0, h0, q, h, hit, m) && c in q && c !in hit
    ensures FannedOut(q0, h0, q[c := Enqueued(q[c], m)], h[c := Sent(q[c], h[c], m)], hit + {c}, m)
  {
  }

  ghost predicate AllFaithful(q: map<string, seq<Msg>>, h: map<string, History>) {
    q.Keys == h.Keys && forall c | c in q :: Faithful(q[c], h[c])
  }

  lemma FannedOutFaithful(
    q0: map<string, seq<Msg>>, h0: map<string, History>, q: map<string, seq<Msg>>, h: map<string, History>,
    hit: set<string>, m: Msg)
    requires AllFaithful(q0, h0) && FannedOut(q0, h0, q, h, hit, m)
    ensures AllFaithful(q, h)
  {
    forall c | c in q ensures Faithful(q[c], h[c]) {
      if c in hit {
        SentFaithful(q0[c], h0[c], m);
      }
    }
  }

  lemma OneFaithful(q: map<string, seq<Msg>>, h: map<string, History>, c: string, queue: seq<Msg>, history: History)
    requires AllFaithful(q, h) && Faithful(queue, history)
    ensures AllFaithful(q[c := queue], h[c := history])
  {
  }

  lemma NewcomerFaithful(q: map<string, seq<Msg>>, h: map<string, History>, c: string)
    requires AllFaithful(q, h)
    ensures AllFaithful(q[c := []], h[c := NEWCOMER])
  {
    OneFaithful(q, h, c, [], NEWCOMER);
  }

  /** The history after the first k queued messages have been read. */
  function TookFirst(queue: seq<Msg>, h: History, k: nat): (r: History)
    requires k <= |queue| <= |h.sent|
    ensures r.sent == h.sent && r.dropped == h.dropped
  {
    if k == 0 then h else Took(queue[k - 1..], TookFirst(queue, h, k - 1))
  }

  /** Reading the queue off leaves a faithful history that has read exactly the queue, in order. */
  lemma {:induction false} TookFirstFaithful(queue: seq<Msg>, h: History, k: nat)
    requires Faithful(queue, h) && k <= |queue|
    ensures Faithful(queue[k..], TookFirst(queue, h, k))
    ensures Read(TookFirst(queue, h, k)) == Read(h) + queue[..k]
  {
    if k > 0 {
      TookFirstFaithful(queue, h, k - 1);
      TookFaithful(queue[k - 1..], TookFirst(queue, h, k - 1));
      assert queue[k - 1..][1..] == queue[k..];
      assert queue[..k] == queue[..k - 1] + [queue[k - 1]];
    }
  }

  class WSBroker {
    var channels: map<string, set<string>>
    var queues: map<string, seq<Msg>>
    var snapshot: map<string, Msg>
    ghost var histories: map<string, History>
    ghost var log: seq<Msg>

    ghost predicate Valid()
      reads this
    {
      && channels.Keys == queues.Keys && AllFaithful(queues, histories)
      && (forall ch :: LastOn(log, ch) == if ch in snapshot then Some(snapshot[ch]) else None)
    }

    constructor ()
      ensures Valid() && channels == map[] && log == []
    {
      channels, queues, snapshot := map[], map[], map[];
      histories, log := map[], [];
    }

    /** A client that registers again starts over. */
    method AddClient(c: string)
      requires Valid()
      modifies this`channels, this`queues, this`histories
      ensures Valid()
      ensures channels == old(channels)[c := CHANNELS] && queues == old(queues)[c := []]
      ensures histories == old(histories)[c := NEWCOMER]
    {
      NewcomerFaithful(queues, histories, c);
      channels := channels[c := CHANNELS];
      queues := queues[c := []];
      histories := histories[c := NEWCOMER];
    }

    method RemoveClient(c: string)
      requires Valid()
      modifies this`channels, this`queues, this`histories
      ensures Valid()
      ensures channels == old(channels) - {c} && queues == old(queues) - {c} && histories == old(histories) - {c}
    {
      channels, queues := channels - {c}, queues - {c};
      histories := histories - {c};
    }

    method Subscribe(c: string, wanted: seq<string>) returns (valid: seq<string>)
      requires Valid()
      modifies this`channels
      ensures Valid() && valid == if c in old(channels) then Known(wanted) else []
      ensures channels == if c in old(channels)
        then old(channels)[c := old(channels)[c] + set ch | ch in wanted && ch in CHANNELS] else old(channels)
    {
      if c !in channels {
        return [];
      }
      valid := Known(wanted);
      var known := set ch | ch in valid;
      assert known == set ch | ch in wanted && ch in CHANNELS;
      channels := channels[c := channels[c] + known];
    }

    method Unsubscribe(c: string, unwanted: seq<string>) returns (valid: seq<string>)
      requires Valid()
      modifies this`channels
      ensures Valid() && valid == if c in old(channels) then Known(unwanted) else []
      ensures channels == if c in old(channels)
        then old(channels)[c := old(channels)[c] - set ch | ch in unwanted && ch in CHANNELS] else old(channels)
    {
      if c !in channels {
        return [];
      }
      valid := Known(unwanted);
      var known := set ch | ch in valid;
      assert known == set ch | ch in unwanted && ch in CHANNELS;
      channels := channels[c := channels[c] - known];
    }

    /** Appends to one client's queue, pushing the oldest message out when it is full. */
    method Deliver(c: string, m: Msg)
      requires c in queues && c in histories
      modifies this`queues, this`histories
      ensures queues == old(queues)[c := Enqueued(old(queues)[c], m)]
      ensures histories == old(histories)[c := Sent(old(queues)[c], old(histories)[c], m)]
    {
      histories := histories[c := Sent(queues[c], histories[c], m)];
      var queue := queues[c];
      if |queue| >= MAX_QUEUE {
        queue := queue[1..];
      }
      queues := queues[c := queue + [m]];
    }

    method FanOut(m: Msg) returns (delivered: nat)
      requires channels.Keys == queues.Keys == histories.Keys
      modifies this`queues, this`histories
      ensures FannedOut(old(queues), old(histories), queues, histories, Subscribers(channels, m.channel), m)
      ensures delivered == |Subscribers(channels, m.channel)|
    {
      delivered := 0;
      var todo := channels.Keys;
      ghost var reached: set<string> := {};
      ghost var wanted := Subscribers(channels, m.channel);
      while todo != {}
        invariant todo <= channels.Keys && delivered == |reached| && reached == wanted - todo
        invariant FannedOut(old(queues), old(histories), queues, histories, reached, m)
        decreases |todo|
      {
        var c :| c in todo;
        if m.channel in channels[c] {
          FannedOutNext(old(queues), old(histories), queues, histories, reached, m, c);
          Deliver(c, m);
          delivered := delivered + 1;
          reached := reached + {c};
        }
        todo := todo - {c};
      }
    }

    /** Reaches every subscriber, full queue or not, and reports how many there are. */
    method Publish(channel: string, data: string, now: real) returns (delivered: nat)
      requires Valid()
      modifies this`queues, this`snapshot, this`histories, this`log
      ensures Valid()
      ensures channel !in CHANNELS ==> delivered == 0 && unchanged(this)
      ensures channel in CHANNELS ==>
        var m := Msg(channel, data, now);
        && delivered == |Subscribers(channels, channel)| && log == old(log) + [m]
        && FannedOut(old(queues), old(histories), queues, histories, Subscribers(channels, channel), m)
      ensures channel in CHANNELS ==> queues.Keys == old(queues).Keys && forall c | c in queues ::
        var was := old(queues)[c];
        queues[c] == if c !in channels || channel !in channels[c] then was
                     else if |was| < 1000 then was + [Msg(channel, data, now)]
                     else was[1..] + [Msg(channel, data, now)]
    {
      if channel !in CHANNELS {
        return 0;
      }
      var m := Msg(channel, data, now);
      forall ch ensures LastOn(log + [m], ch) == if ch == channel then Some(m) else LastOn(log, ch) {
        LastOnAppend(log, m, ch);
      }
      snapshot := snapshot[channel := m];
      log := log + [m];
      delivered := FanOut(m);
      FannedOutFaithful(old(queues), old(histories), queues, histories, Subscribers(channels, channel), m);
    }

    /** Takes the oldest message off one queue. */
    method Take(c: string) returns (m: Msg)
      requires c in queues && c in histories && |queues[c]| > 0 && |queues[c]| <= |histories[c].sent|
      modifies this`queues, this`histories
      ensures m == old(queues)[c][0]
      ensures queues == old(queues)[c := old(queues)[c][1..]]
      ensures histories == old(histories)[c := Took(old(queues)[c], old(histories)[c])]
    {
      m := queues[c][0];
      histories := histories[c := Took(queues[c], histories[c])];
      queues := queues[c := queues[c][1..]];
    }

    /** The next message, or none when the wait ends with the queue still empty. */
    method GetMessage(c: string) returns (m: Option<Msg>)
      requires Valid()
      modifies this`queues, this`histories
      ensures Valid()
      ensures m.Some? <==> c in old(queues) && old(queues)[c] != []
      ensures m.None? ==> unchanged(this)
      ensures m.Some? ==>
        && m.value == old(queues)[c][0] && queues == old(queues)[c := old(queues)[c][1..]]
        && histories == old(histories)[c := Took(old(queues)[c], old(histories)[c])]
        && Read(histories[c]) == Read(old(histories)[c]) + [m.value]
    {
      if c !in queues || queues[c] == [] {
        return None;
      }
      TookFaithful(queues[c], histories[c]);
      var first := Take(c);
      m := Some(first);
    }

    /** Everything pending, oldest first; the read record grows by exactly that. */
    method Drain(c: string) returns (messages: seq<Msg>)
      requires Valid()
      modifies this`queues, this`histories
      ensures Valid()
      ensures messages == if c in old(queues) then old(queues)[c] else []
      ensures c !in old(queues) ==> unchanged(this)
      ensures c in old(queues) ==>
        && queues == old(queues)[c := []]
        && histories == old(histories)[c := TookFirst(messages, old(histories)[c], |messages|)]
        && Read(histories[c]) == Read(old(histories)[c]) + messages
    {
      messages := [];
      if c !in queues {
        return;
      }
      var queue := queues[c];
      ghost var h := histories[c];
      while queue != []
        invariant |messages| <= |queues[c]| <= |histories[c].sent|
        invariant messages == queues[c][..|messages|] && queue == queues[c][|messages|..]
        invariant h == TookFirst(queues[c], histories[c], |messages|)
        decreases |queue|
      {
        h := Took(queue, h);
        messages := messages + [queue[0]];
        queue := queue[1..];
      }
      TookFirstFaithful(queues[c], histories[c], |messages|);
      OneFaithful(queues, histories, c, queue, h);
      queues := queues[c := queue];
      histories := histories[c := h];
    }

    /** One message for each channel anything was published on: the last one. */
    method GetSnapshot() returns (messages: seq<Msg>)
      requires Valid()
      ensures forall m :: m in messages <==> LastOn(log, m.channel) == Some(m)
      ensures forall i, j | 0 <= i < j < |messages| :: messages[i].channel != messages[j].channel
    {
      messages := [];
      var todo := snapshot.Keys;
      while todo != {}
        invariant todo <= snapshot.Keys
        invariant forall m | m in messages :: m.channel in snapshot && m.channel !in todo && snapshot[m.channel] == m
        invariant forall ch | ch in snapshot && ch !in todo :: snapshot[ch] in messages
        invariant forall i, j | 0 <= i < j < |messages| :: messages[i].channel != messages[j].channel
        decreases |todo|
      {
        var ch :| ch in todo;
        LastOnChannel(log, ch);
        messages := messages + [snapshot[ch]];
        todo := todo - {ch};
      }
      forall m ensures m in messages <==> LastOn(log, m.channel) == Some(m) {
        assert LastOn(log, m.channel) == if m.channel in snapshot then Some(snapshot[m.channel]) else None;
      }
    }
  }

  lemma {:induction false} LastOnChannel(log: seq<Msg>, channel: string)
    ensures LastOn(log, channel).Some? ==> LastOn(log, channel).value.channel == channel
  {
    if |log| > 0 {
      LastOnChannel(log[..|log| - 1], channel);
    }
  }
}
