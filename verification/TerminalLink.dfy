/** The terminal protocol is the kernel's: on the port and its two semaphores, each kernel service
    the protocol uses acts as the protocol machine says. */
module TerminalLink {
  import opened Params
  import opened Port
  import opened KernelState
  import opened Serial

  /** s shows the kernel's port and the two semaphores the shell got for it. */
  predicate Shows(k: State, s: Serial) {
    k.port == s.port
    && 0 <= k.port.txSem < |k.sem| && 0 <= k.port.rxSem < |k.sem| && k.port.txSem != k.port.rxSem
    && k.sem[k.port.txSem] == s.txSem && k.sem[k.port.rxSem] == s.rxSem
  }

  lemma TxShows(k: State, s: Serial)
    requires Shows(k, s)
    ensures Shows(Tx(k), TxStep(s))
  {
  }

  lemma RxShows(k: State, s: Serial, data: int)
    requires Shows(k, s)
    ensures Shows(Rx(k, data), RxStep(s, data))
  {
  }

  /** IRQ3ISR in the kernel is the protocol's interrupt step. */
  lemma Irq3Shows(k: State, s: Serial, cause: Cause, data: int)
    requires Shows(k, s)
    ensures Shows(Irq3Call(k, cause, data), Irq(s, cause, data))
  {
    hide Tx, Rx, TxStep, RxStep;
    match cause {
      case TxReady =>
        TxShows(k, s);
        TxShows(Tx(k), TxStep(s));
      case RxReady =>
        RxShows(k, s, data);
        TxShows(Rx(k, data), RxStep(s, data));
      case OtherCause =>
        TxShows(k, s);
    }
  }

  /** A wait by the output process on TX_semaphore, or by the input process on RX_semaphore. */
  lemma WaitShows(k: State, s: Serial)
    requires Shows(k, s)
    ensures k.running == STDOUT ==> Shows(SemWaitCall(k, k.port.txSem), s.(txSem := WaitOn(s.txSem, STDOUT)))
    ensures k.running == STDIN ==> Shows(SemWaitCall(k, k.port.rxSem), s.(rxSem := WaitOn(s.rxSem, STDIN)))
  {
  }

  /** Any other process's wait, post or new semaphore leaves the picture alone. */
  lemma OthersShow(k: State, s: Serial, id: int)
    requires Shows(k, s) && id != k.port.txSem && id != k.port.rxSem
    ensures Shows(SemWaitCall(k, id), s) && Shows(SemPostCall(k, id), s)
    ensures k.port.txSem !in k.semFree && k.port.rxSem !in k.semFree ==> Shows(SemGetCall(k), s)
  {
  }
}
