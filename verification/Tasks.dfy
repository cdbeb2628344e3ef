/** Celery's contract with every task: late acknowledgement and bounded retries. */
module Tasks {
  import opened Basics
  import opened Encodings

  const MAX_RETRIES := 3

  /** A broker message: its kind of task, its payload, and how often it was retried. */
  datatype TaskMessage<K> = Message(kind: K, id: Uuid, org: Uuid, retries: nat)

  /** The message a retry sends. */
  function Again<K>(m: TaskMessage<K>): TaskMessage<K> {
    m.(retries := m.retries + 1)
  }

  /** The attempt was the last one. */
  predicate GivenUp<K>(m: TaskMessage<K>, end: End) {
    end == Raised && m.retries >= MAX_RETRIES
  }

  /** The unacknowledged messages after an attempt: acknowledged late, retried a bounded
      number of times, and kept if the worker was lost. */
  function SettledQueue<K(==)>(queue: multiset<TaskMessage<K>>, m: TaskMessage<K>, end: End, ack: Call):
    multiset<TaskMessage<K>>
  {
    var rest := if ack == Works then queue - multiset{m} else queue;
    match end
    case Lost => queue
    case Returned => rest
    case Raised => if m.retries < MAX_RETRIES then rest + multiset{Again(m)} else rest
  }
}
