/** The import pipeline: workers that claim and read files, a bounded queue with two condition variables,
    one writer, and the main thread that joins them.  Each critical section is one step. */
module Import {
  import opened Wrappers

  /** Batch `index` of file `file`. */
  datatype Item = Item(file: nat, index: nat)

  /** Where a worker stands in `FileSource::ProduceLoop` and the read loop it calls.  A thread in a wait set
      is `PushWaiting`; once notified it is `PushReady` again and tests its condition anew. */
  datatype At =
    | Check | Claim | Open | ReadCheck | Read | Validate | Validated | PushReady | PushWaiting | AfterRead
    | SetError | Aborting | Done

  /** `file` and `next` are the file claimed and the batch to be read next. */
  datatype Producer = Producer(at: At, file: nat, next: nat)

  datatype WriterAt = PopReady | PopWaiting | Write | WriteFailed | WriterAborting | WriterDone

  /** The writer holds at most one batch. */
  datatype Writer = Writer(at: WriterAt, hand: seq<Item>)

  datatype Main =
    | Joining(i: nat)
    | Deciding
    | PushingEos
    | MainAborting
    | JoiningWriter
    | Finished

  /** `files[f]` is the number of batches file `f` holds; `error` is ErrorState, failed if set. */
  datatype State = State(
    files: seq<nat>,
    cap: nat,
    nextFile: nat,
    error: Option<string>,
    q: seq<Item>,
    eos: bool,
    aborted: bool,
    producers: seq<Producer>,
    writer: Writer,
    main: Main,
    written: seq<Item>)
  {
    predicate Failed() {
      error.Some?
    }
  }

  function Init(files: seq<nat>, capacity: nat, workers: nat): State {
    State(files, if capacity != 0 then capacity else 1, 0, None, [], false, false,
          seq(if workers < 1 then 1 else workers, _ => Producer(Check, 0, 0)), Writer(PopReady, []), Joining(0), [])
  }

  // ---- ErrorState and the queue ----

  /** The first error wins. */
  function SetErr(s: State, message: string): State {
    if s.Failed() then s else s.(error := Some(message))
  }

  function Notified(p: Producer): Producer {
    if p.at.PushWaiting? then p.(at := PushReady) else p
  }

  function NotifyNotFull(s: State): State {
    s.(producers := seq(|s.producers|, p requires 0 <= p < |s.producers| => Notified(s.producers[p])))
  }

  /** Only the writer ever waits for this, so notifying one is notifying all. */
  function NotifyNotEmpty(s: State): State {
    if s.writer.at.PopWaiting? then s.(writer := s.writer.(at := PopReady)) else s
  }

  function PushEos(s: State): State {
    NotifyNotEmpty(s.(eos := true))
  }

  function Abort(s: State): State {
    NotifyNotFull(NotifyNotEmpty(s.(eos := true, aborted := true)))
  }

  // ---- Workers ----

  function Goto(s: State, p: nat, at: At): State
    requires p < |s.producers|
  {
    s.(producers := s.producers[p := s.producers[p].(at := at)])
  }

  function ClaimFile(s: State, p: nat): State
    requires p < |s.producers|
  {
    var t := s.(nextFile := s.nextFile + 1);
    if s.nextFile >= |s.files| then Goto(t, p, Done)
    else t.(producers := s.producers[p := Producer(Open, s.nextFile, 0)])
  }

  /** The critical section of `Push`. */
  function TryPush(s: State, p: nat): State
    requires p < |s.producers|
  {
    var producer := s.producers[p];
    var on := s.(producers := s.producers[p := producer.(at := ReadCheck, next := producer.next + 1)]);
    if s.aborted then on
    else if |s.q| < s.cap then NotifyNotEmpty(on.(q := s.q + [Item(producer.file, producer.next)]))
    else Goto(s, p, PushWaiting)
  }

  /** The next step of worker `p`; `ok` is the outcome of the foreign call in it, `message` the error if it
      fails.  A read gives the next batch of the file, its end, or an error. */
  function Produce(s: State, p: nat, ok: bool, message: string): Option<State>
    requires p < |s.producers|
  {
    var producer := s.producers[p];
    match producer.at
    case Check => Some(Goto(s, p, if s.Failed() then Done else Claim))
    case Claim => Some(ClaimFile(s, p))
    case Open => Some(Goto(s, p, if ok then ReadCheck else SetError))
    case ReadCheck => Some(Goto(s, p, if s.Failed() then AfterRead else Read))
    case Read =>
      if !ok then Some(Goto(s, p, SetError))
      else if producer.file < |s.files| && producer.next < s.files[producer.file] then Some(Goto(s, p, Validate))
      else Some(Goto(s, p, AfterRead))
    case Validate => Some(Goto(if ok then s else SetErr(s, message), p, Validated))
    case Validated => Some(Goto(s, p, if s.Failed() then Aborting else PushReady))
    case PushReady => Some(TryPush(s, p))
    case PushWaiting => None
    case AfterRead => Some(Goto(s, p, if s.Failed() then Done else Check))
    case SetError => Some(Goto(SetErr(s, message), p, Aborting))
    case Aborting => Some(Goto(Abort(s), p, Done))
    case Done => None
  }

  // ---- Writer and main thread ----

  /** The critical section of `Pop`: what was queued is handed out even after an abort. */
  function TryPop(s: State): State {
    if s.q != [] then NotifyNotFull(s.(writer := Writer(Write, [s.q[0]]), q := s.q[1..]))
    else if s.eos || s.aborted then s.(writer := Writer(WriterDone, []))
    else s.(writer := Writer(PopWaiting, []))
  }

  function WriterStep(s: State, ok: bool, message: string): Option<State> {
    match s.writer.at
    case PopReady => Some(TryPop(s))
    case PopWaiting => None
    case Write =>
      if ok then Some(s.(written := s.written + s.writer.hand, writer := Writer(PopReady, [])))
      else Some(s.(writer := s.writer.(at := WriteFailed)))
    case WriteFailed => Some(SetErr(s, message).(writer := Writer(WriterAborting, [])))
    case WriterAborting => Some(Abort(s).(writer := Writer(WriterDone, [])))
    case WriterDone => None
  }

  function MainStep(s: State): Option<State> {
    match s.main
    case Joining(i) =>
      if i >= |s.producers| then Some(s.(main := Deciding))
      else if s.producers[i].at.Done? then Some(s.(main := Joining(i + 1)))
      else None
    case Deciding => Some(s.(main := if s.Failed() then MainAborting else PushingEos))
    case PushingEos => Some(PushEos(s).(main := JoiningWriter))
    case MainAborting => Some(Abort(s).(main := JoiningWriter))
    case JoiningWriter => if s.writer.at.WriterDone? then Some(s.(main := Finished)) else None
    case Finished => None
  }

  // ---- Runs ----

  datatype Event =
    | Work(p: nat, ok: bool, message: string)
    | Writing(ok: bool, message: string)
    | Going
    | SpuriousPush(p: nat)
    | SpuriousPop

  function Apply(s: State, e: Event): Option<State> {
    match e
    case Work(p, ok, message) => if p < |s.producers| then Produce(s, p, ok, message) else None
    case Writing(ok, message) => WriterStep(s, ok, message)
    case Going => MainStep(s)
    case SpuriousPush(p) =>
      if p < |s.producers| && s.producers[p].at.PushWaiting? then Some(Goto(s, p, PushReady)) else None
    case SpuriousPop =>
      if s.writer.at.PopWaiting? then Some(s.(writer := Writer(PopReady, []))) else None
  }

  function Run(s: State, events: seq<Event>): Option<State>
    decreases |events|
  {
    if events == [] then Some(s)
    else
      var t :- Apply(s, events[0]);
      Run(t, events[1..])
  }
}
