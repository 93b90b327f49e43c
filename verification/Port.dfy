/** The serial port record shared by the kernel's IRQ3 handler and the terminal processes
    (typedef.h port_data_t; isr.c TX, RX, IRQ3ISR). Characters are ints; 0 is the C NUL. */
module Port {
  import opened Params

  /** What outportb wrote to the data register, tagged with the buffer it came from. */
  datatype Sent = Echo(ch: int) | Text(ch: int)

  datatype Port = Port(
    tx: seq<int>, rx: seq<int>, echo: seq<int>,
    txSem: int, rxSem: int,
    echoOn: bool, txReady: bool,
    wire: seq<Sent>)

  /** Interrupt cause read from the identification register. */
  datatype Cause = TxReady | RxReady | OtherCause

  /** EnQ: an element offered to a full queue is dropped. */
  function Push<T>(q: seq<T>, x: T): (r: seq<T>)
    ensures |r| <= |q| + 1
  {
    if |q| < Q_LEN then q + [x] else q
  }

  /** TX without its SemPost: one character, echo first, goes to the wire. A NUL is consumed
      but not written, and leaves the port marked idle. */
  function TxPort(p: Port): Port {
    if |p.echo| > 0 then
      var ch := p.echo[0];
      Emit(p.(echo := p.echo[1..]), Echo(ch))
    else if |p.tx| > 0 then
      var ch := p.tx[0];
      Emit(p.(tx := p.tx[1..]), Text(ch))
    else
      p.(txReady := true)
  }

  function Emit(p: Port, c: Sent): Port {
    if c.ch != 0 then p.(wire := p.wire + [c], txReady := false) else p.(txReady := true)
  }

  /** TX posts TX_semaphore exactly when it takes a character from TX_buffer. */
  predicate TxPosts(p: Port) {
    |p.echo| == 0 && |p.tx| > 0
  }

  /** RX without its SemPost: the character is masked to seven bits, queued, and echoed. */
  function RxPort(p: Port, data: int): Port {
    var ch := data % 128;
    var q := p.(rx := Push(p.rx, ch));
    if ch == CR then q.(echo := Push(Push(q.echo, CR), LF))
    else if q.echoOn then q.(echo := Push(q.echo, ch))
    else q
  }
}
