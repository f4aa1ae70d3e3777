/** The in-process event bus: one channel per instance, created by its first subscriber and dropped
    when a publication finds nobody listening. Sending and dropping are separate steps, and a new
    subscriber can come in between. */
module Bus {
  import opened Wrappers

  type Market = nat
  type ReceiverId = nat

  /** `channel` is the sender the receiver hangs on; `since` counts the publications before it. */
  datatype Receiver = Receiver(market: Market, channel: nat, since: nat, got: seq<nat>, closed: bool)

  /** A publication that found no receiver and is about to drop its channel. */
  datatype Dropping = Dropping(market: Market, channel: nat)

  datatype State = State(
    channels: map<Market, nat>,
    receivers: map<ReceiverId, Receiver>,
    published: seq<Market>,
    dropping: Option<Dropping>,
    unused: nat)

  /** The positions from `since` on that were published for `market`. */
  function Published(published: seq<Market>, market: Market, since: nat): seq<nat> {
    if |published| <= since then []
    else
      var n := |published| - 1;
      Published(published[..n], market, since) + (if published[n] == market then [n] else [])
  }

  predicate Listens(r: Receiver, channel: nat) {
    !r.closed && r.channel == channel
  }

  /** Every open receiver hangs on the channel that publications of its instance use, and has got
      each of them since it subscribed, once and in order. */
  ghost predicate Delivered(s: State) {
    && (forall r :: r in s.receivers && !s.receivers[r].closed ==>
          var x := s.receivers[r];
          && x.market in s.channels && s.channels[x.market] == x.channel
          && x.since <= |s.published| && x.got == Published(s.published, x.market, x.since))
    && (forall i :: i in s.channels ==> s.channels[i] < s.unused)
    && (forall i, j :: i in s.channels && j in s.channels && i != j ==> s.channels[i] != s.channels[j])
    && (s.dropping.Some? ==>
          s.dropping.value.market in s.channels && s.channels[s.dropping.value.market] == s.dropping.value.channel)
  }

  class EventBus {
    var channels: map<Market, nat>
    var receivers: map<ReceiverId, Receiver>
    var published: seq<Market>
    var dropping: Option<Dropping>
    var next: nat

    ghost function Now(): State
      reads this
    {
      State(channels, receivers, published, dropping, next)
    }

    constructor ()
      ensures Delivered(Now()) && receivers == map[] && published == []
    {
      channels, receivers, published, dropping, next := map[], map[], [], None, 0;
    }

    /** Takes the instance's channel, or makes one. */
    method Subscribe(market: Market, r: ReceiverId)
      requires Delivered(Now()) && r !in receivers
      modifies this
      ensures Delivered(Now()) && published == old(published)
      ensures receivers.Keys == old(receivers).Keys + {r}
      ensures !receivers[r].closed && receivers[r].market == market && receivers[r].since == |published| && receivers[r].got == []
      ensures forall q :: q in old(receivers) ==> receivers[q] == old(receivers)[q]
    {
      if market !in channels {
        channels := channels[market := next];
        next := next + 1;
      }
      receivers := receivers[r := Receiver(market, channels[market], |published|, [], false)];
    }

    /** The receiver goes away. */
    method Leave(r: ReceiverId)
      requires Delivered(Now())
      modifies this
      ensures Delivered(Now()) && receivers == old(receivers) - {r} && published == old(published)
    {
      receivers := receivers - {r};
    }

    /** Sends to whoever listens on the instance's channel; when nobody does, the channel is to be
        dropped. There is one publisher, so no other publication is under way. */
    method Send(market: Market)
      requires Delivered(Now()) && dropping.None?
      modifies this
      ensures Delivered(Now()) && published == old(published) + [market]
      ensures receivers.Keys == old(receivers).Keys
      ensures forall r :: r in receivers ==> receivers[r].closed == old(receivers)[r].closed && receivers[r].market == old(receivers)[r].market
      ensures forall r :: r in receivers && !receivers[r].closed ==>
        receivers[r].got == old(receivers)[r].got + if receivers[r].market == market then [|old(published)|] else []
    {
      hide Published;
      PublishedGrows(Now(), market);
      if market in channels {
        var channel := channels[market];
        var listening := exists r :: r in receivers && Listens(receivers[r], channel);
        if listening {
          receivers := map r | r in receivers ::
            if Listens(receivers[r], channel) then receivers[r].(got := receivers[r].got + [|published|]) else receivers[r];
        } else {
          dropping := Some(Dropping(market, channel));
        }
      }
      published := published + [market];
    }

    /** Drops the channel; receivers that joined it meanwhile see it closed and end their streams. */
    method Drop()
      requires Delivered(Now()) && dropping.Some?
      modifies this
      ensures Delivered(Now()) && dropping.None? && published == old(published)
      ensures receivers.Keys == old(receivers).Keys
      ensures forall r :: r in receivers ==>
        receivers[r] == old(receivers)[r].(closed := old(receivers)[r].closed || old(receivers)[r].channel == old(dropping).value.channel)
    {
      var d := dropping.value;
      channels := channels - {d.market};
      receivers := map r | r in receivers :: receivers[r].(closed := receivers[r].closed || receivers[r].channel == d.channel);
      dropping := None;
    }
  }

  /** One more publication is one more position for its own instance and none for the others. */
  lemma PublishedGrows(s: State, market: Market)
    ensures forall m: Market, since: nat {:trigger Published(s.published + [market], m, since)} :: since <= |s.published| ==>
      Published(s.published + [market], m, since)
      == Published(s.published, m, since) + if m == market then [|s.published|] else []
  {
    assert (s.published + [market])[..|s.published|] == s.published;
  }

  /** What a receiver has got is exactly the publications of its instance since it subscribed. */
  lemma {:induction false} PublishedExactly(published: seq<Market>, market: Market, since: nat)
    ensures forall k :: k in Published(published, market, since) <==> since <= k < |published| && published[k] == market
    ensures Ascends(Published(published, market, since))
  {
    hide Ascends, Published;
    PublishedLast(published, market, since);
    if since < |published| {
      var n := |published| - 1;
      PublishedExactly(published[..n], market, since);
      AscendsFurther(Published(published[..n], market, since), n);
    } else {
      NothingAscends();
    }
  }

  lemma PublishedLast(published: seq<Market>, market: Market, since: nat)
    ensures |published| <= since ==> Published(published, market, since) == []
    ensures since < |published| ==>
      var n := |published| - 1;
      Published(published, market, since)
      == if published[n] == market then Published(published[..n], market, since) + [n]
         else Published(published[..n], market, since)
  {}

  ghost predicate Ascends(ks: seq<nat>) {
    forall i, j :: 0 <= i < j < |ks| ==> ks[i] < ks[j]
  }

  lemma NothingAscends()
    ensures Ascends([])
  {}

  lemma AscendsFurther(ks: seq<nat>, n: nat)
    requires Ascends(ks) && forall k :: k in ks ==> k < n
    ensures Ascends(ks + [n])
  {
    assert forall i :: 0 <= i < |ks| ==> ks[i] in ks;
  }
}
