/** The way of a quote from the connection to `recv`: the raw channel, the adapter task and the
    quotes channel of one stream. */
module Delivery {
  import opened Base

  /** Contents of quotes and of other payloads are opaque. */
  datatype Payload = SwapQuotes(quotes: nat) | Other(content: nat)

  datatype Data = Data(id: Id, payload: Payload)

  /** Capacity of both channels of a stream. */
  const CAPACITY: nat := 32

  /** Where the adapter task stands: receiving, holding quotes to send, turned away by a closed
      quotes channel, about to unregister the id it loaded, or finished. */
  datatype Adapter = Receiving | Sending(quotes: nat) | Rejected | Leaving(id: Id) | Gone

  /** `dispatched` and `received` are history: what the connection put into the raw channel and
      what `recv` returned. */
  datatype Pipe = Pipe(
    raw: seq<Data>,
    adapter: Adapter,
    quotes: seq<nat>,
    open: bool,
    dispatched: seq<Data>,
    received: seq<nat>)

  function NewPipe(): Pipe {
    Pipe([], Receiving, [], true, [], [])
  }

  /** The quotes among the data of a stream. */
  function QuotesOf(ds: seq<Data>): seq<nat> {
    if ds == [] then []
    else QuotesOf(ds[..|ds| - 1])
         + match ds[|ds| - 1].payload case SwapQuotes(q) => [q] case Other(_) => []
  }

  function InHand(a: Adapter): seq<nat> {
    match a case Sending(q) => [q] case _ => []
  }

  /** Sending to the raw channel waits for room, and fails once the adapter has finished. */
  predicate CanDispatch(p: Pipe) {
    p.adapter.Gone? || |p.raw| < CAPACITY
  }

  function Dispatch(p: Pipe, d: Data): Pipe
    requires CanDispatch(p)
  {
    if p.adapter.Gone? then p else p.(raw := p.raw + [d], dispatched := p.dispatched + [d])
  }

  /** The steps of the adapter that concern its two channels alone. */
  predicate CanPump(p: Pipe) {
    match p.adapter
    case Receiving => p.raw != []
    case Sending(_) => !p.open || |p.quotes| < CAPACITY
    case _ => false
  }

  function Pump(p: Pipe): Pipe
    requires CanPump(p)
  {
    match p.adapter
    case Receiving =>
      p.(raw := p.raw[1..],
         adapter := match p.raw[0].payload case SwapQuotes(q) => Sending(q) case Other(_) => Receiving)
    case Sending(q) =>
      if p.open then p.(quotes := p.quotes + [q], adapter := Receiving)
      else p.(adapter := Rejected)
  }

  function Recv(p: Pipe): Pipe
    requires p.open && p.quotes != []
  {
    p.(quotes := p.quotes[1..], received := p.received + [p.quotes[0]])
  }

  /** The handle is dropped, and with it the receiving end of the quotes channel. */
  function CloseReceiver(p: Pipe): Pipe {
    p.(open := false, quotes := [])
  }

  /** While the handle lives, everything dispatched is received, on its way, or not quotes; what
      was received is always a prefix of what was dispatched. */
  ghost predicate PipeInv(p: Pipe) {
    && p.received <= QuotesOf(p.dispatched)
    && (p.open ==> p.received + p.quotes + InHand(p.adapter) + QuotesOf(p.raw) == QuotesOf(p.dispatched))
    && (p.adapter.Rejected? || p.adapter.Leaving? ==> !p.open)
    && (p.open && p.adapter.Gone? ==> p.raw == [])
  }

  lemma {:induction false} QuotesOfAppend(xs: seq<Data>, ys: seq<Data>)
    ensures QuotesOf(xs + ys) == QuotesOf(xs) + QuotesOf(ys)
    decreases |ys|
  {
    if ys == [] {
      assert xs + ys == xs;
    } else {
      var rest := ys[..|ys| - 1];
      QuotesOfAppend(xs, rest);
      assert (xs + ys)[..|xs + ys| - 1] == xs + rest;
    }
  }

  lemma DispatchKeepsPipe(p: Pipe, d: Data)
    requires PipeInv(p) && CanDispatch(p)
    ensures PipeInv(Dispatch(p, d))
  {
    QuotesOfAppend(p.dispatched, [d]);
    QuotesOfAppend(p.raw, [d]);
    var taken := p.received + p.quotes + InHand(p.adapter);
    assert taken + QuotesOf(p.raw) + QuotesOf([d]) == taken + (QuotesOf(p.raw) + QuotesOf([d]));
  }

  lemma QuotesOfOne(d: Data)
    ensures QuotesOf([d]) == match d.payload case SwapQuotes(q) => [q] case Other(_) => []
  {
    assert [d][..0] == [];
  }

  /** What the adapter takes from the raw channel it holds, if it is a quote. */
  lemma TakeMovesQuotes(p: Pipe)
    requires p.adapter.Receiving? && p.raw != []
    ensures InHand(Pump(p).adapter) + QuotesOf(p.raw[1..]) == QuotesOf(p.raw)
  {
    QuotesOfOne(p.raw[0]);
    QuotesOfAppend([p.raw[0]], p.raw[1..]);
    assert p.raw == [p.raw[0]] + p.raw[1..];
  }

  lemma TakeKeepsPipe(p: Pipe)
    requires PipeInv(p) && p.adapter.Receiving? && p.raw != []
    ensures PipeInv(Pump(p))
  {
    hide QuotesOf;
    TakeMovesQuotes(p);
    var before, hand, rest := p.received + p.quotes, InHand(Pump(p).adapter), QuotesOf(p.raw[1..]);
    assert before + hand + rest == before + [] + (hand + rest);
  }

  lemma PumpKeepsPipe(p: Pipe)
    requires PipeInv(p) && CanPump(p)
    ensures PipeInv(Pump(p))
  {
    if p.adapter.Receiving? {
      TakeKeepsPipe(p);
    } else {
      var q := p.adapter.quotes;
      assert p.received + p.quotes + [q] == p.received + (p.quotes + [q]) + [];
    }
  }

  lemma RecvKeepsPipe(p: Pipe)
    requires PipeInv(p) && p.open && p.quotes != []
    ensures PipeInv(Recv(p))
  {
    assert p.quotes == [p.quotes[0]] + p.quotes[1..];
    assert (p.received + [p.quotes[0]]) + p.quotes[1..] == p.received + p.quotes;
  }

  lemma DropKeepsPipe(p: Pipe)
    requires PipeInv(p)
    ensures PipeInv(CloseReceiver(p))
  {
  }

  /** The adapter ends after being turned away, or when its input has ended. */
  lemma AdapterEndKeepsPipe(p: Pipe, a: Adapter)
    requires PipeInv(p) && (p.adapter.Rejected? || (p.adapter.Receiving? && p.raw == []))
    requires (a.Leaving? && p.adapter.Rejected?) || a.Gone?
    ensures PipeInv(p.(adapter := a))
  {
  }
}
