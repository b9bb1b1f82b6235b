/** Report admission (internal/aggregate/aggregator.go, the first half of applyLocked): what one
    reporter's memory says about an incoming envelope. Used by the canonical graph, which applies
    admitted reports, and by the exporter protocol, which reasons about late and repeated envelopes. */
module Admission {
  import opened Names

  const REPORT_ID_WINDOW: nat := 32

  datatype Kind = Hello | InventoryUpdate | TrafficSample | Heartbeat | Withdrawal | RelayUpdate

  /** What the server remembers of a reporter's past envelopes. */
  datatype Memory = Memory(lastSequence: int, lastAcceptedAt: Time, reportIds: set<Text>)

  const NO_MEMORY := Memory(0, NEVER, {})

  datatype Verdict =
    | Duplicate
    | Stale
    | NotOwner
    | Admit(resync: bool)

  /** Only a reporter that owns every named observer may update or refresh; saying hello, withdrawing
      and relay updates need no ownership. */
  predicate NeedsOwnership(kind: Kind) {
    kind != Hello && kind != Withdrawal && kind != RelayUpdate
  }

  function Judge(memory: Memory, kind: Kind, sequence: int, id: Text, ownsAll: bool): Verdict {
    if id in memory.reportIds then Duplicate
    else if sequence <= memory.lastSequence then Stale
    else if NeedsOwnership(kind) && !ownsAll then NotOwner
    else Admit(memory.lastSequence > 0 && sequence != memory.lastSequence + 1)
  }

  function Remember(memory: Memory, sequence: int, id: Text, at: Time): Memory {
    var ids := memory.reportIds + {id};
    Memory(sequence, at, if |ids| > REPORT_ID_WINDOW then {id} else ids)
  }
}
