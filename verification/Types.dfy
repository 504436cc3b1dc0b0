/** A fact about sequences that the solver has to be told. */
module Sequences {
  lemma Regroup<T>(a: seq<T>, b: seq<T>, c: seq<T>)
    ensures (a + b) + c == a + (b + c)
  {
  }
}

/** Vocabulary shared by every component: messages, partitions, failure reasons and
    handler results. */
module Types {

  datatype Option<+T> = None | Some(value: T)

  type Bytes = seq<bv8>

  datatype TopicPartition = TopicPartition(topic: string, partition: int)

  /** An offset of a partition. */
  type Place = (TopicPartition, int)

  /** The owned message envelope, without the timestamp and the headers (used for tracing only). */
  datatype Message = Message(topic: string, partition: int, offset: int, key: Option<Bytes>, payload: Option<Bytes>)
  {
    function Home(): TopicPartition {
      TopicPartition(topic, partition)
    }
  }

  datatype RetryableKind = NetworkTimeout | BrokerUnavailable | TransientPartitionError
  datatype TerminalKind = PoisonMessage | DeserializationFailed | HandlerPanic
  datatype NonRetryableKind = Validation | BusinessLogic | Configuration

  datatype FailureCategory = RetryableCategory | TerminalCategory | NonRetryableCategory

  datatype FailureReason =
    | Retryable(retryable: RetryableKind)
    | Terminal(terminal: TerminalKind)
    | NonRetryable(nonRetryable: NonRetryableKind)
  {
    function Category(): FailureCategory {
      match this
      case Retryable(_) => RetryableCategory
      case Terminal(_) => TerminalCategory
      case NonRetryable(_) => NonRetryableCategory
    }
  }

  /** What one invocation of a single-message handler came to. */
  datatype ExecutionResult =
    | Succeeded
    | Error(error: FailureReason)
    | Rejected(rejection: FailureReason)
    | TimedOut(timeoutMs: nat)
  {
    /** The reason under which a failed result is reported: a timeout counts as a handler panic. */
    function Reason(): FailureReason
      requires !Succeeded?
    {
      match this
      case Error(r) => r
      case Rejected(r) => r
      case TimedOut(_) => Terminal(HandlerPanic)
    }
  }

  /** What one invocation of a batch handler came to. */
  datatype BatchResult = AllSuccess | AllFailure(reason: FailureReason)
}
