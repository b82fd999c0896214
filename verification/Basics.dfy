/** Types shared by every module of the project. */
module Basics {

  datatype Option<+T> = None | Some(value: T)

  /** What one thread holds: at most one buffer. */
  datatype Held = Nothing | Buffer(buf: nat)

  function Hand(h: Held): seq<nat> { if h.Buffer? then [h.buf] else [] }

  function Bit(b: bool): nat { if b then 1 else 0 }

  /** The number of usable slots of a ring: MAX_QUEUE_ELEMENTS is 10, but only
      one node plus MAX_QUEUE_ELEMENTS - 2 more are ever linked. */
  const RING_SLOTS: nat := 9

  /** What `queue` does to a ring's contents: append, or nothing at all when full. */
  function Enqueued<T>(q: seq<T>, x: T): seq<T> {
    if |q| < RING_SLOTS then q + [x] else q
  }

  /** The states of section 3.1.1.2 of the OpenMAX IL 1.1.2 specification. */
  datatype OmxState = Invalid | Loaded | Idle | Executing | Pause | WaitForResources

  /** The transient states that any branch looks at; every other value is NoTransient. */
  datatype Transient = NoTransient | LoadedToIdle | ExecutingToIdle | IdleToLoaded

  /** The error codes of the modelled functions. */
  datatype OmxError =
    | ErrorNone
    | ErrorInsufficientResources | ErrorUndefined | ErrorComponentNotFound
    | ErrorBadParameter | ErrorInvalidState | ErrorSameState
    | ErrorIncorrectStateTransition | ErrorIncorrectStateOperation
    | ErrorBadPortIndex | ErrorPortsNotCompatible
    | ErrorUnsupportedIndex | ErrorNoMore
}
