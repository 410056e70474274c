/** What one queued item looks like to the foreign side, and the loops that deliver a queue. */
module EventDelivery {
  import opened Common

  const U64_MAX: nat := 0xFFFF_FFFF_FFFF_FFFF

  datatype ConnectionEvent =
    | Established(tag: string, addr: string, transport: string)
    | Lost(tag: string, addr: string, transport: string, cause: string)
    | AttemptFailed(tag: string, addr: string, attempt: nat, cause: string, retryInNanos: nat)
    | GaveUp(tag: string, addr: string, cause: string)

  /** One entry of the event queue. */
  datatype Inner = Cert(pem: string) | Conn(ev: ConnectionEvent)

  datatype TunnelEvent =
    | Started
    | Stopped
    | CertIssued(pem: string)
    | ConnectionEstablished(tag: string, addr: string, transport: string)
    | ConnectionLost(tag: string, addr: string, transport: string, cause: string)
    | ConnectionAttemptFailed(tag: string, addr: string, attempt: nat, cause: string, retryInMs: nat)
    | ConnectionGaveUp(tag: string, addr: string, cause: string)
    | Failed(cause: string)

  predicate IsEstablished(item: Inner) {
    item.Conn? && item.ev.Established?
  }

  predicate IsTerminal(e: TunnelEvent) {
    e.Stopped? || e.Failed?
  }

  function ToTunnelEvent(item: Inner): (e: TunnelEvent)
    ensures !e.Started? && !IsTerminal(e) && (e.ConnectionEstablished? <==> IsEstablished(item))
  {
    match item
    case Cert(pem) => CertIssued(pem)
    case Conn(Established(tag, addr, transport)) => ConnectionEstablished(tag, addr, transport)
    case Conn(Lost(tag, addr, transport, cause)) => ConnectionLost(tag, addr, transport, cause)
    case Conn(AttemptFailed(tag, addr, attempt, cause, nanos)) =>
      ConnectionAttemptFailed(tag, addr, attempt, cause, Min(nanos / 1_000_000, U64_MAX))
    case Conn(GaveUp(tag, addr, cause)) => ConnectionGaveUp(tag, addr, cause)
  }

  /** The events one item produces. */
  function One(announced: bool, item: Inner): seq<TunnelEvent> {
    if IsEstablished(item) && !announced then [Started, ToTunnelEvent(item)] else [ToTunnelEvent(item)]
  }

  /** Whether `Started` is out once `items` have been delivered. */
  predicate Announced(announced: bool, items: seq<Inner>) {
    announced || exists i :: 0 <= i < |items| && IsEstablished(items[i])
  }

  /** The events a queue produces. */
  function Rendered(announced: bool, items: seq<Inner>): seq<TunnelEvent> {
    if items == [] then []
    else Rendered(announced, items[..|items| - 1]) + One(Announced(announced, items[..|items| - 1]), items[|items| - 1])
  }

  lemma RenderedSnoc(announced: bool, items: seq<Inner>, item: Inner)
    ensures Rendered(announced, items + [item]) == Rendered(announced, items) + One(Announced(announced, items), item)
    ensures Announced(announced, items + [item]) <==> Announced(announced, items) || IsEstablished(item)
  {
    assert (items + [item])[..|items|] == items;
    assert (items + [item])[|items|] == item;
    forall i | 0 <= i < |items|
      ensures (items + [item])[i] == items[i]
    {
    }
  }

  lemma DeliveredSnoc(out: seq<TunnelEvent>, announced: bool, items: seq<Inner>, item: Inner)
    ensures out + Rendered(announced, items + [item]) == out + Rendered(announced, items) + One(Announced(announced, items), item)
    ensures Announced(announced, items + [item]) <==> Announced(announced, items) || IsEstablished(item)
  {
    RenderedSnoc(announced, items, item);
  }

  lemma Uncons(done: seq<Inner>, queue: seq<Inner>)
    requires queue != []
    ensures done + queue == done + [queue[0]] + queue[1..]
  {
  }

  /** The receiver, the `announced` flag and what the handler has been given. */
  class EventPump {
    var queue: seq<Inner>
    var announced: bool
    var delivered: seq<TunnelEvent>

    method Deliver(item: Inner)
      modifies this
      ensures delivered == old(delivered) + One(old(announced), item)
      ensures announced == (old(announced) || IsEstablished(item)) && queue == old(queue)
    {
      if IsEstablished(item) && !announced {
        delivered := delivered + [Started];
        announced := true;
      }
      delivered := delivered + [ToTunnelEvent(item)];
    }

    method Drain()
      modifies this
      ensures queue == []
      ensures delivered == old(delivered) + Rendered(old(announced), old(queue))
      ensures announced == Announced(old(announced), old(queue))
    {
      ghost var done: seq<Inner> := [];
      while queue != []
        invariant old(queue) == done + queue
        invariant delivered == old(delivered) + Rendered(old(announced), done)
        invariant announced == Announced(old(announced), done)
        decreases |queue|
      {
        var item := queue[0];
        DeliveredSnoc(old(delivered), old(announced), done, item);
        Uncons(done, queue);
        done, queue := done + [item], queue[1..];
        Deliver(item);
      }
      assert done + queue == done;
    }
  }

  // ----- where `Started` falls

  /** At most one `Started`, and only directly before the first `ConnectionEstablished`. */
  predicate StartedRight(announced: bool, events: seq<TunnelEvent>) {
    && (forall i :: 0 <= i < |events| && events[i].Started? ==>
          !announced && i + 1 < |events| && events[i + 1].ConnectionEstablished?
          && forall j :: 0 <= j < i ==> !events[j].ConnectionEstablished? && !events[j].Started?)
    && (!announced ==> forall j :: 0 <= j < |events| && events[j].ConnectionEstablished? ==>
          exists i :: 0 <= i < j && events[i].Started?)
  }

  predicate HasEstablished(events: seq<TunnelEvent>) {
    exists i :: 0 <= i < |events| && events[i].ConnectionEstablished?
  }

  lemma {:induction false} RenderedStartsOnce(announced: bool, items: seq<Inner>)
    ensures StartedRight(announced, Rendered(announced, items))
    ensures Announced(announced, items) <==> announced || HasEstablished(Rendered(announced, items))
    ensures forall i :: 0 <= i < |Rendered(announced, items)| ==> !IsTerminal(Rendered(announced, items)[i])
  {
    if items != [] {
      var before, item := items[..|items| - 1], items[|items| - 1];
      assert before + [item] == items;
      RenderedStartsOnce(announced, before);
      RenderedSnoc(announced, before, item);
      StartedSnoc(announced, Rendered(announced, before), item);
    }
  }

  lemma StartedSnoc(announced: bool, events: seq<TunnelEvent>, item: Inner)
    requires StartedRight(announced, events)
    ensures var more := One(announced || HasEstablished(events), item);
            && StartedRight(announced, events + more)
            && (HasEstablished(events + more) <==> HasEstablished(events) || IsEstablished(item))
  {
    var more := One(announced || HasEstablished(events), item);
    var all := events + more;
    forall i | 0 <= i < |events|
      ensures all[i] == events[i]
    {
    }
    forall j | 0 <= j < |events| && events[j].Started?
      ensures HasEstablished(events)
    {
      assert events[j + 1].ConnectionEstablished?;
    }
    if HasEstablished(events) {
      var i :| 0 <= i < |events| && events[i].ConnectionEstablished?;
      assert all[i].ConnectionEstablished?;
    }
    if IsEstablished(item) {
      assert all[|all| - 1].ConnectionEstablished?;
    }
    forall i | 0 <= i < |all| && all[i].Started?
      ensures !announced && i + 1 < |all| && all[i + 1].ConnectionEstablished?
      ensures forall j :: 0 <= j < i ==> !all[j].ConnectionEstablished? && !all[j].Started?
    {
      if i < |events| {
        assert events[i].Started? && all[i + 1] == events[i + 1];
      } else {
        assert i == |events| && !HasEstablished(events);
        assert forall j :: 0 <= j < i ==> all[j] == events[j];
      }
    }
    if !announced {
      forall j | 0 <= j < |all| && all[j].ConnectionEstablished?
        ensures exists i :: 0 <= i < j && all[i].Started?
      {
        if HasEstablished(events) {
          var e: nat :| e < |events| && events[e].ConnectionEstablished? && (j < |events| ==> e == j);
          var i :| 0 <= i < e && events[i].Started?;
          assert all[i].Started?;
        } else {
          assert all[|events|].Started?;
        }
      }
    }
  }

  // ----- what the foreign side can read back

  /** The item an event stands for; `None` for the three that stand for none. */
  function ReadBack(e: TunnelEvent): Option<Inner> {
    match e
    case CertIssued(pem) => Some(Cert(pem))
    case ConnectionEstablished(tag, addr, transport) => Some(Conn(Established(tag, addr, transport)))
    case ConnectionLost(tag, addr, transport, cause) => Some(Conn(Lost(tag, addr, transport, cause)))
    case ConnectionAttemptFailed(tag, addr, attempt, cause, ms) =>
      Some(Conn(AttemptFailed(tag, addr, attempt, cause, ms * 1_000_000)))
    case ConnectionGaveUp(tag, addr, cause) => Some(Conn(GaveUp(tag, addr, cause)))
    case _ => None
  }

  predicate IsAttemptFailed(item: Inner) {
    item.Conn? && item.ev.AttemptFailed?
  }

  /** `read` is `item`, but for a wait cut to whole milliseconds and to 64 bits of them. */
  predicate Matches(item: Inner, read: Inner) {
    if IsAttemptFailed(item) && IsAttemptFailed(read) then
      var wait, ms := item.ev.retryInNanos, read.ev.retryInNanos;
      && read.ev == item.ev.(retryInNanos := ms)
      && (if wait / 1_000_000 <= 18_446_744_073_709_551_615 then ms <= wait < ms + 1_000_000
          else ms == 18_446_744_073_709_551_615 * 1_000_000)
    else read == item
  }

  /** Every item is read back from its event, with all it carries. */
  lemma EventTellsItsItem(item: Inner)
    ensures ReadBack(ToTunnelEvent(item)).Some? && Matches(item, ReadBack(ToTunnelEvent(item)).value)
  {
  }

  /** The items a stream of events stands for. */
  function ItemsOf(events: seq<TunnelEvent>): seq<Inner> {
    if events == [] then []
    else
      var e := events[|events| - 1];
      ItemsOf(events[..|events| - 1]) + if ReadBack(e).Some? then [ReadBack(e).value] else []
  }

  predicate AllMatch(items: seq<Inner>, read: seq<Inner>) {
    |read| == |items| && forall i :: 0 <= i < |items| ==> Matches(items[i], read[i])
  }

  lemma ItemsOfSnoc(events: seq<TunnelEvent>, e: TunnelEvent)
    ensures ItemsOf(events + [e]) == ItemsOf(events) + if ReadBack(e).Some? then [ReadBack(e).value] else []
  {
    assert (events + [e])[..|events|] == events;
  }

  lemma ItemsOfOne(events: seq<TunnelEvent>, announced: bool, item: Inner)
    ensures ItemsOf(events + One(announced, item)) == ItemsOf(events) + [ReadBack(ToTunnelEvent(item)).value]
  {
    EventTellsItsItem(item);
    if IsEstablished(item) && !announced {
      assert events + One(announced, item) == events + [Started] + [ToTunnelEvent(item)];
      ItemsOfSnoc(events, Started);
      ItemsOfSnoc(events + [Started], ToTunnelEvent(item));
      assert ItemsOf(events) + [] == ItemsOf(events);
    } else {
      ItemsOfSnoc(events, ToTunnelEvent(item));
    }
  }

  lemma AllMatchSnoc(items: seq<Inner>, read: seq<Inner>, item: Inner, last: Inner)
    requires AllMatch(items, read) && Matches(item, last)
    ensures AllMatch(items + [item], read + [last])
  {
  }

  /** A rendered queue, read back, is the queue. */
  lemma {:induction false} RenderedReadsBack(announced: bool, items: seq<Inner>)
    ensures AllMatch(items, ItemsOf(Rendered(announced, items)))
  {
    if items != [] {
      var before, item := items[..|items| - 1], items[|items| - 1];
      RenderedReadsBack(announced, before);
      assert items == before + [item];
      ItemsOfOne(Rendered(announced, before), Announced(announced, before), item);
      EventTellsItsItem(item);
      AllMatchSnoc(before, ItemsOf(Rendered(announced, before)), item, ReadBack(ToTunnelEvent(item)).value);
    }
  }
}
