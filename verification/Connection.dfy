/** state_ of a TcpConnection. */
module ConnectionState {
  datatype ConnState = Connecting | Connected | Disconnecting | Disconnected
}

/** One TcpConnection on its loop thread, as steps: the user's calls, the parts of
    one event dispatch, and the functors the connection queues on its own loop.
    Outcomes of system calls are chosen by the kernel and come with the step. */
module Connection {
  import opened ByteBuffer
  import opened ConnectionState
  import opened Registration

  /** A sendFile request: `offset` and `remaining` are the arguments of the next
      sendFileInLoop, `start` and `count` those of the request. */
  datatype Transfer = Transfer(file: seq<byte>, start: nat, count: nat, offset: nat, remaining: nat)

  /** What the socket was asked, in order, with the bytes the kernel took. */
  datatype Segment = Sent(bytes: seq<byte>) | FromFile(id: nat, bytes: seq<byte>) | Fin

  /** The part of handleEvent still to come, with the reported mask. */
  datatype Stage = Idle | AtClose(m: Revents) | AtError(m: Revents) | AtRead(m: Revents) | AtWrite(m: Revents)

  /** Which callbacks are set, and the high-water mark. */
  datatype Config = Config(onComplete: bool, onHighWater: bool, mark: nat)

  datatype Conn = Conn(
    cfg: Config,
    state: ConnState,
    events: Interest,
    input: seq<byte>,
    output: seq<byte>,
    queue: seq<nat>,            // pending sendFileInLoop functors, by request
    stage: Stage,
    removed: bool,              // connectDestroyed has run
    // history
    book: seq<Transfer>,        // every sendFile request
    wire: seq<Segment>,
    accepted: seq<byte>,        // every send not dropped
    sends: nat,
    completes: nat,             // write-complete functors queued
    marks: seq<nat>,            // backlogs reported at the high-water mark
    ups: nat,
    downs: nat,
    closes: nat)                // calls of closeCallback_

  function Initial(cfg: Config): Conn {
    Conn(cfg, Connecting, NO_INTEREST, [], [], [], Idle, false,
         [], [], [], 0, 0, [], 0, 0, 0)
  }

  // ---------- The member functions ----------

  function Completed(c: Conn): Conn {
    if c.cfg.onComplete then c.(completes := c.completes + 1) else c
  }

  /** The tail of sendInLoop: what was not written waits for EPOLLOUT. */
  function Buffered(c: Conn, rest: seq<byte>): Conn {
    if rest == [] then c
    else
      var total := |c.output| + |rest|;
      var fires := c.cfg.onHighWater && |c.output| < c.cfg.mark <= total;
      c.(marks := if fires then c.marks + [total] else c.marks,
         output := c.output + rest,
         events := c.events.(writing := true))
  }

  predicate Fatal(e: Errno) {
    e == EPIPE || e == ECONNRESET
  }

  /** The direct write of sendInLoop, made when nothing is waiting. */
  function Written(c: Conn, data: seq<byte>, w: WriteResult): Conn
    requires w.Wrote? ==> w.n <= |data|
  {
    match w
    case Wrote(n) =>
      var d := c.(wire := c.wire + [Sent(data[..n])], accepted := c.accepted + data);
      if n == |data| then Completed(d) else d
    case WriteError(e) =>
      var d := c.(wire := c.wire + [Sent([])]);
      if Fatal(e) then d else d.(accepted := c.accepted + data)
  }

  /** What it leaves to be buffered. */
  function Rest(data: seq<byte>, w: WriteResult): seq<byte>
    requires w.Wrote? ==> w.n <= |data|
  {
    match w
    case Wrote(n) => data[n..]
    case WriteError(e) => if Fatal(e) then [] else data
  }

  function SentDirectly(c: Conn, data: seq<byte>, w: WriteResult): Conn
    requires w.Wrote? ==> w.n <= |data|
  {
    Buffered(Written(c, data, w), Rest(data, w))
  }

  function SendInLoop(c: Conn, data: seq<byte>, w: WriteResult): Conn
    requires w.Wrote? ==> w.n <= |data|
  {
    if c.state == Disconnected then c
    else
      var d := c.(sends := c.sends + 1);
      if !c.events.writing && c.output == [] then SentDirectly(d, data, w)
      else Buffered(d.(accepted := c.accepted + data), data)
  }

  function Send(c: Conn, data: seq<byte>, w: WriteResult): Conn
    requires w.Wrote? ==> w.n <= |data|
  {
    if c.state == Connected then SendInLoop(c, data, w) else c
  }

  function ShutdownInLoop(c: Conn): Conn {
    if !c.events.writing then c.(wire := c.wire + [Fin]) else c
  }

  function Shutdown(c: Conn): Conn {
    if c.state == Connected then ShutdownInLoop(c.(state := Disconnecting)) else c
  }

  function ConnectEstablished(c: Conn): Conn {
    c.(state := Connected, events := c.events.(reading := true), ups := c.ups + 1)
  }

  function ConnectDestroyed(c: Conn): Conn {
    var d := if c.state == Connected
             then c.(state := Disconnected, events := NO_INTEREST, downs := c.downs + 1)
             else c;
    d.(removed := true)
  }

  function HandleClose(c: Conn): Conn {
    c.(state := Disconnected, events := NO_INTEREST, downs := c.downs + 1, closes := c.closes + 1)
  }

  /** The message callback, if it is due, follows as steps of its own. */
  function HandleRead(c: Conn, r: ReadResult): Conn {
    match r
    case ReadError(_) => c
    case Data(bytes) =>
      if bytes == [] then HandleClose(c)
      else c.(input := c.input + bytes)
  }

  function HandleWrite(c: Conn, w: WriteResult): Conn
    requires w.Wrote? ==> w.n <= |c.output|
  {
    if !c.events.writing then c
    else if w.WriteError? || w.n == 0 then c.(wire := c.wire + [Sent([])])
    else
      var d := c.(wire := c.wire + [Sent(c.output[..w.n])], output := c.output[w.n..]);
      if d.output != [] then d
      else
        var e := Completed(d.(events := d.events.(writing := false)));
        if e.state == Disconnecting then ShutdownInLoop(e) else e
  }

  /** How much sendfile can take: not past the end of the file. */
  function Available(t: Transfer): nat {
    var left := if t.offset <= |t.file| then |t.file| - t.offset else 0;
    if t.remaining <= left then t.remaining else left
  }

  function Requeue(c: Conn, id: nat, fault: bool): Conn
    requires id < |c.book|
  {
    if !fault && c.book[id].remaining > 0 then c.(queue := c.queue + [id]) else c
  }

  function Chunk(t: Transfer, n: nat): seq<byte>
    requires n <= Available(t)
  {
    if n == 0 then [] else t.file[t.offset..t.offset + n]
  }

  /** sendfile took n bytes and moved the offset past them. */
  function Advanced(t: Transfer, n: nat): Transfer
    requires n <= Available(t)
  {
    t.(offset := t.offset + n, remaining := t.remaining - n)
  }

  function Emitted(c: Conn, id: nat, n: nat): Conn
    requires id < |c.book| && n <= Available(c.book[id])
  {
    c.(wire := c.wire + [FromFile(id, Chunk(c.book[id], n))],
       book := c.book[id := Advanced(c.book[id], n)])
  }

  function SendFileInLoop(c: Conn, id: nat, w: WriteResult): Conn
    requires id < |c.book|
    requires w.Wrote? ==> w.n <= Available(c.book[id])
  {
    if c.state == Disconnecting then c
    else if !c.events.writing && c.output == [] then
      match w
      case Wrote(n) =>
        var d := Emitted(c, id, n);
        Requeue(if d.book[id].remaining == 0 then Completed(d) else d, id, false)
      case WriteError(e) =>
        Requeue(c.(wire := c.wire + [FromFile(id, [])]), id, Fatal(e))
    else Requeue(c, id, false)
  }

  function NewTransfer(file: seq<byte>, offset: nat, count: nat): Transfer {
    Transfer(file, offset, count, offset, count)
  }

  /** A request is entered in the book under the next free number. */
  function Booked(c: Conn, t: Transfer): Conn {
    c.(book := c.book + [t])
  }

  function SendFile(c: Conn, t: Transfer, w: WriteResult): Conn
    requires w.Wrote? ==> w.n <= Available(t)
  {
    if c.state == Connected then SendFileInLoop(Booked(c, t), |c.book|, w) else c
  }

  // ---------- Steps ----------

  datatype Label =
    | Establish
    | DoSend(data: seq<byte>, w: WriteResult)
    | DoShutdown
    | DoSendFile(file: seq<byte>, offset: nat, count: nat, w: WriteResult)
    | Consume(n: nat)             // the user retrieves n bytes of the input
    | RunTransfer(w: WriteResult) // the oldest queued sendFileInLoop runs
    | Report(m: Revents)          // epoll_wait reports the channel
    | DoClose                     // the four parts of handleEventWithGuard
    | DoError
    | DoRead(r: ReadResult)
    | DoWrite(w: WriteResult)
    | Destroy

  predicate Fits(w: WriteResult, limit: nat) {
    w.Wrote? ==> w.n <= limit
  }

  /** A mask the kernel may report for this interest.  A hang-up with urgent but
      no ordinary data is not reported: see DispatchClosesOnceIff. */
  predicate MaskAllowed(events: Interest, m: Revents) {
    && (m.in_ || m.pri ==> events.reading)
    && (m.out ==> events.writing)
    && !(m.hup && m.pri && !m.in_)
  }

  predicate Enabled(c: Conn, l: Label) {
    match l
    case Establish => c.state == Connecting && !c.removed
    case DoSend(data, w) => Fits(w, |data|)
    case DoShutdown => true
    case DoSendFile(file, offset, count, w) => Fits(w, Available(NewTransfer(file, offset, count)))
    case Consume(n) => n <= |c.input|
    case RunTransfer(w) =>
      && c.stage == Idle && c.queue != [] && c.queue[0] < |c.book|
      && Fits(w, Available(c.book[c.queue[0]]))
    case Report(m) => c.stage == Idle && !c.removed && c.events != NO_INTEREST && MaskAllowed(c.events, m)
    case DoClose => c.stage.AtClose?
    case DoError => c.stage.AtError?
    case DoRead(_) => c.stage.AtRead?
    case DoWrite(w) => c.stage.AtWrite? && Fits(w, |c.output|)
    case Destroy => c.stage == Idle && c.state != Connecting && !c.removed
  }

  function Step(c: Conn, l: Label): Conn
    requires Enabled(c, l)
  {
    match l
    case Establish => ConnectEstablished(c)
    case DoSend(data, w) => Send(c, data, w)
    case DoShutdown => Shutdown(c)
    case DoSendFile(file, offset, count, w) => SendFile(c, NewTransfer(file, offset, count), w)
    case Consume(n) => c.(input := c.input[n..])
    case RunTransfer(w) => SendFileInLoop(c.(queue := c.queue[1..]), c.queue[0], w)
    case Report(m) => c.(stage := AtClose(m))
    case DoClose =>
      var d := c.(stage := AtError(c.stage.m));
      if c.stage.m.hup && !c.stage.m.in_ then HandleClose(d) else d
    case DoError => c.(stage := AtRead(c.stage.m))
    case DoRead(r) =>
      var d := c.(stage := AtWrite(c.stage.m));
      if c.stage.m.in_ || c.stage.m.pri then HandleRead(d, r) else d
    case DoWrite(w) =>
      var d := c.(stage := Idle);
      if c.stage.m.out then HandleWrite(d, w) else d
    case Destroy => ConnectDestroyed(c)
  }

  predicate Legal(c: Conn, run: seq<Label>)
    decreases |run|
  {
    run == [] || (Enabled(c, run[0]) && Legal(Step(c, run[0]), run[1..]))
  }

  function After(c: Conn, run: seq<Label>): Conn
    requires Legal(c, run)
    decreases |run|
  {
    if run == [] then c else After(Step(c, run[0]), run[1..])
  }

  // ---------- Reading the wire ----------

  /** The bytes of sends, in the order the kernel took them. */
  function StreamBytes(wire: seq<Segment>): seq<byte> {
    if wire == [] then []
    else
      var last := wire[|wire| - 1];
      StreamBytes(wire[..|wire| - 1]) + (if last.Sent? then last.bytes else [])
  }

  /** The bytes of one sendFile request, in the order the kernel took them. */
  function FileBytes(wire: seq<Segment>, id: nat): seq<byte> {
    if wire == [] then []
    else
      var last := wire[|wire| - 1];
      FileBytes(wire[..|wire| - 1], id) + (if last.FromFile? && last.id == id then last.bytes else [])
  }

  lemma WireGrows(wire: seq<Segment>, s: Segment)
    ensures StreamBytes(wire + [s]) == StreamBytes(wire) + (if s.Sent? then s.bytes else [])
    ensures forall id :: FileBytes(wire + [s], id) ==
               FileBytes(wire, id) + (if s.FromFile? && s.id == id then s.bytes else [])
  {
    assert (wire + [s])[..|wire|] == wire;
  }
}
