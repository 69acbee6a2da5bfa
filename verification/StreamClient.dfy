/**
  The receiving end of a server stream (dispatcher.go): duplicates are dropped,
  gaps fail the stream, and what is buffered is charged to an allowance that all
  streams of the process share.
 */
module StreamClient {
  import opened Basics
  import opened ProtoWire
  import H = Headers

  datatype Delivery = Delivery(headers: H.Table, body: Bytes)

  datatype StreamError = OutOfSequence(got: int, expected: int) | Backpressure | Failed(why: nat) | Released

  datatype Limits = Limits(chunks: nat, bytes: nat, total: nat)

  datatype Client = Client(lastSeq: int, chunks: seq<Bytes>, bytes: int, err: Option<StreamError>, ended: bool)

  const FRESH := Client(-1, [], 0, None, false)

  // ---- the steps ---------------------------------------------------------

  /** dropBufferLocked, with the error that made it necessary. */
  function Dropped(c: Client, e: StreamError): Client {
    c.(err := Some(e), ended := true, chunks := [], bytes := 0)
  }

  function EndIf(c: Client, final: bool): Client {
    if final then c.(ended := true) else c
  }

  function Buffered(c: Client, body: Bytes): Client {
    c.(chunks := c.chunks + [body], bytes := c.bytes + |body|)
  }

  predicate Fits(c: Client, lim: Limits, n: nat, total: int) {
    |c.chunks| + 1 <= lim.chunks && c.bytes + n <= lim.bytes && total <= lim.total
  }

  datatype Order = Repeated | Lost(got: int, expected: int) | InOrder(c: Client)

  /** Where a frame stands against the ones already seen. */
  function OrderOf(c: Client, headers: H.Table): Order {
    match H.StreamSeq(headers)
    case None => InOrder(c)
    case Some(n) =>
      if n < c.lastSeq + 1 then Repeated
      else if n > c.lastSeq + 1 then Lost(n, c.lastSeq + 1)
      else InOrder(c.(lastSeq := n))
  }

  /** The stream and the shared counter after a delivery, when nothing interferes. */
  function AfterPush(c: Client, lim: Limits, counter: int, dl: Delivery): (Client, int) {
    var final := H.StreamFinal(dl.headers);
    if c.ended then (c, counter)
    else
      match OrderOf(c, dl.headers)
      case Repeated => (EndIf(c, final), counter)
      case Lost(got, expected) => (Dropped(c, OutOfSequence(got, expected)), counter - c.bytes)
      case InOrder(c1) =>
        var n := |dl.body|;
        if n == 0 then (EndIf(c1, final), counter)
        else if Fits(c1, lim, n, counter + n) then (EndIf(Buffered(c1, dl.body), final), counter + n)
        else (Dropped(c1, Backpressure), counter - c1.bytes)
  }

  function AfterFail(c: Client, counter: int, e: StreamError): (Client, int) {
    if c.ended then (c, counter) else (Dropped(c, e), counter - c.bytes)
  }

  function AfterRelease(c: Client, counter: int): (Client, int) {
    (Dropped(c, if c.err.Some? then c.err.value else Released), counter - c.bytes)
  }

  /** What next hands the caller. */
  datatype Item = Chunk(body: Bytes) | EndedBy(e: StreamError) | CleanEnd | NothingYet

  function NextItem(c: Client): Item {
    if c.err.Some? then EndedBy(c.err.value)
    else if c.chunks != [] then Chunk(c.chunks[0])
    else if c.ended then CleanEnd
    else NothingYet
  }

  function AfterNext(c: Client, counter: int): (Client, int) {
    if c.err.None? && c.chunks != [] then
      (c.(chunks := c.chunks[1..], bytes := c.bytes - |c.chunks[0]|), counter - |c.chunks[0]|)
    else (c, counter)
  }

  /** The bytes in a list of chunks. */
  function Lens(chunks: seq<Bytes>): nat {
    if chunks == [] then 0 else |chunks[0]| + Lens(chunks[1..])
  }

  lemma {:induction false} LensSnoc(chunks: seq<Bytes>, body: Bytes)
    ensures Lens(chunks + [body]) == Lens(chunks) + |body|
  {
    if chunks == [] {
      assert [body][1..] == [];
    } else {
      assert (chunks + [body])[1..] == chunks[1..] + [body];
      LensSnoc(chunks[1..], body);
    }
  }

  class Dispatcher {
    var bufferedBytes: int
    var streams: map<string, ClientStream>

    constructor ()
      ensures bufferedBytes == 0 && streams == map[]
    {
      bufferedBytes, streams := 0, map[];
    }
  }

  class ClientStream {
    const d: Dispatcher
    const id: string
    const limits: Limits
    var lastSeq: int
    var chunks: seq<Bytes>
    var bytes: int
    var err: Option<StreamError>
    var ended: bool

    ghost function View(): Client
      reads this
    {
      Client(lastSeq, chunks, bytes, err, ended)
    }

    constructor (d: Dispatcher, id: string, limits: Limits)
      ensures View() == FRESH && this.d == d && this.id == id && this.limits == limits
    {
      this.d, this.id, this.limits := d, id, limits;
      lastSeq, chunks, bytes, err, ended := -1, [], 0, None, false;
    }

    method DropBuffer()
      modifies this, d
      ensures d.bufferedBytes == old(d.bufferedBytes - bytes) && d.streams == old(d.streams)
      ensures View() == old(View()).(bytes := 0, chunks := [])
    {
      d.bufferedBytes := d.bufferedBytes - bytes;
      bytes, chunks := 0, [];
    }

    method Push(dl: Delivery)
      modifies this, d
      ensures (View(), d.bufferedBytes) == AfterPush(old(View()), limits, old(d.bufferedBytes), dl)
      ensures d.streams == old(d.streams)
    {
      var final := H.StreamFinal(dl.headers);
      var n := H.StreamSeq(dl.headers);
      if ended {
        return;
      }
      if n.Some? {
        var expected := lastSeq + 1;
        if n.value < expected {
          ended := ended || final;
          return;
        }
        if n.value > expected {
          err, ended := Some(OutOfSequence(n.value, expected)), true;
          DropBuffer();
          return;
        }
        lastSeq := n.value;
      }
      var len := |dl.body|;
      if len > 0 {
        d.bufferedBytes := d.bufferedBytes + len;
        var total := d.bufferedBytes;
        if |chunks| + 1 > limits.chunks || bytes + len > limits.bytes || total > limits.total {
          d.bufferedBytes := d.bufferedBytes - len;
          err, ended := Some(Backpressure), true;
          DropBuffer();
          return;
        }
        chunks := chunks + [dl.body];
        bytes := bytes + len;
      }
      if final {
        ended := true;
      }
    }

    method Fail(e: StreamError)
      modifies this, d
      ensures (View(), d.bufferedBytes) == AfterFail(old(View()), old(d.bufferedBytes), e)
      ensures d.streams == old(d.streams)
    {
      if !ended {
        err, ended := Some(e), true;
        DropBuffer();
      }
    }

    method Next() returns (item: Item)
      modifies this, d
      ensures item == NextItem(old(View()))
      ensures (View(), d.bufferedBytes) == AfterNext(old(View()), old(d.bufferedBytes))
      ensures d.streams == old(d.streams)
    {
      if err.Some? {
        return EndedBy(err.value);
      }
      if |chunks| > 0 {
        var chunk := chunks[0];
        chunks := chunks[1..];
        bytes := bytes - |chunk|;
        d.bufferedBytes := d.bufferedBytes - |chunk|;
        return Chunk(chunk);
      }
      return if ended then CleanEnd else NothingYet;
    }

    /** The entry goes only if it is still this stream's. */
    method Release()
      modifies this, d
      ensures (View(), d.bufferedBytes) == AfterRelease(old(View()), old(d.bufferedBytes))
      ensures d.streams ==
              if id in old(d.streams) && old(d.streams)[id] == this then old(d.streams) - {id} else old(d.streams)
    {
      if id in d.streams && d.streams[id] == this {
        d.streams := d.streams - {id};
      }
      ended := true;
      if err.None? {
        err := Some(Released);
      }
      DropBuffer();
    }
  }
}
