/** The durable envelope and the reply to an upload
    (UploadCommandDataEntry and UploadCommandDataResponse). */
module Envelope {
  import opened Text

  datatype Option<+T> = None | Some(value: T)

  datatype Kind = Unspecified | Progress | Event | Result

  datatype Stream = Unknown | Stdout | Stderr | System | Assistant

  /** The event types the turn loop itself looks at; every other one is Other. */
  datatype EventType =
    | Lifecycle
    | TextDelta(stream: Stream, text: string)
    | CompactionStarted
    | CompactionFinished(inferred: bool)
    | UsageUpdate(used: Option<int>)
    | RawAcp(agentMessage: bool)
    | Warning
    | Other(name: string)

  datatype Body =
    | ProgressBody(stream: Stream, content: string)
    | EventBody(event: EventType)
    | ResultBody(exitCode: int, lastSeqNo: int, message: string)

  datatype Entry = Entry(command: string, kind: Kind, seqNo: int, body: Body)

  /** What the log holds at one index: a readable envelope, or bytes that do
      not parse (a poison record). */
  datatype Payload = Good(entry: Entry) | Torn(bytes: nat)

  /** A log record as the uploader sees it; no entry means poison. */
  datatype Record = Record(index: nat, entry: Option<Entry>)

  /** The length of an entry's marshalled form. */
  type Sizer = Entry -> nat

  function PayloadSize(size: Sizer, p: Payload): nat {
    match p
    case Good(e) => size(e)
    case Torn(n) => n
  }

  function RecordOf(index: nat, p: Payload): (r: Record)
    ensures r.index == index && (r.entry.None? <==> p.Torn?)
  {
    match p
    case Good(e) => Record(index, Some(e))
    case Torn(_) => Record(index, None)
  }

  function GoodAll(es: seq<Entry>): (ps: seq<Payload>)
    ensures |ps| == |es| && forall i :: 0 <= i < |es| ==> ps[i] == Good(es[i])
  {
    seq(|es|, i requires 0 <= i < |es| => Good(es[i]))
  }

  // ---------- replies ----------

  datatype Ack = Ack(command: string, lastProgress: int, lastEvent: int, resultAcked: bool)

  datatype Rejection = Rejection(command: string, kind: Kind, seqNo: int, reason: string)

  datatype Response = Response(acks: seq<Ack>, rejected: seq<Rejection>)

  function KindNumber(k: Kind): int {
    match k
    case Unspecified => 0
    case Progress => 1
    case Event => 2
    case Result => 3
  }

  function RejectionKey(command: string, kind: Kind, seqNo: int): string {
    BarKey(command, KindNumber(kind), seqNo)
  }

  lemma RejectionKeyInjective(c: string, k: Kind, s: int, c': string, k': Kind, s': int)
    ensures RejectionKey(c, k, s) == RejectionKey(c', k', s') <==> c == c' && k == k' && s == s'
  {
    if RejectionKey(c, k, s) == RejectionKey(c', k', s') {
      BarKeyInjective(c, KindNumber(k), s, c', KindNumber(k'), s');
    }
  }
}
