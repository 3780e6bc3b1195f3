/** Append-only partition logs. */
module Kafka {
  import opened Events

  datatype Place = Place(partition: nat, offset: nat)

  /** A record. `sequence` is not in the message: it remembers the outbox row it came from. */
  datatype Record = Record(sequence: nat, payload: Payload)

  function LogOf(log: map<nat, seq<Record>>, partition: nat): seq<Record> {
    if partition in log then log[partition] else []
  }

  predicate Holds(log: map<nat, seq<Record>>, place: Place) {
    place.offset < |LogOf(log, place.partition)|
  }

  function At(log: map<nat, seq<Record>>, place: Place): Record
    requires Holds(log, place)
  {
    LogOf(log, place.partition)[place.offset]
  }

  function Stored(log: map<nat, seq<Record>>, partition: nat, r: Record): map<nat, seq<Record>> {
    log[partition := LogOf(log, partition) + [r]]
  }

  /** Records are only ever added at the end. */
  ghost predicate LogGrows(log: map<nat, seq<Record>>, later: map<nat, seq<Record>>) {
    forall place :: Holds(log, place) ==> Holds(later, place) && At(later, place) == At(log, place)
  }
}
