/** `TableRegistry`: loading, acquiring and hot-reloading tables, as the steps of concurrent threads. */
module Registry {
  import opened Wrappers

  type Thread = nat

  /** `kReloadSuffix` */
  const SUFFIX: string := "~reload"

  /** `IsReservedReloadStagingDirName` */
  predicate IsReserved(name: string) {
    |name| >= |SUFFIX| && name[|name| - |SUFFIX|..] == SUFFIX
  }

  function StagingName(table: string): string {
    table + SUFFIX
  }

  /** `path.filename()` */
  function Leaf(path: string): (leaf: string)
    ensures '/' !in leaf
    ensures '/' !in path ==> leaf == path
  {
    if path == "" then ""
    else if '/' in path then Leaf(path[1..])
    else path
  }

  /** The names LoadTable does not turn away. */
  predicate IsLoadable(name: string) {
    name != "" && name[0] != '.' && !IsReserved(name)
  }

  /** The two DB keys of a table: the one in use and the other. */
  function LiveKey(name: string, stagingIsLive: bool): string {
    if stagingIsLive then StagingName(name) else name
  }

  function OtherKey(name: string, stagingIsLive: bool): string {
    LiveKey(name, !stagingIsLive)
  }

  /** A TableSlot is named by the generation of the index it serves. */
  datatype Head = Head(slot: Option<nat>, stagingIsLive: bool)

  /** A TableHandle: the table it was acquired for and the slot it shares. */
  datatype Handle = Handle(name: string, slot: nat)

  /** Where a thread stands in LoadTable or ReloadTable. */
  datatype Phase =
    | LoadLock | LoadCheck | LoadOpen | LoadCanonical | LoadBuild | LoadClose | LoadRegister
    | ReloadCheck | ReloadFind | ReloadLock | ReloadRead | ReloadPrepare | ReloadCloseNext | ReloadOpen | ReloadBuild
    | ReloadUndo | ReloadSwap | ReloadStop | ReloadDrain | ReloadClosePrev

  /** How a foreign call ends: as it should, with an error code or a null pointer, or with an exception. */
  datatype Outcome = Works | Fails | Throws

  /** A thread's position and its locals: `live` is `live_on_staging`, `slot` the one just built, `asked`
      the path or name it was called with. */
  datatype Pc = Pc(at: Phase, name: string, live: bool, slot: nat, oldSlot: Option<nat>, asked: string)

  function Begin(at: Phase, name: string): Pc {
    Pc(at, name, false, 0, None, name)
  }

  /** LoadTable goes by the file name of the path it is given. */
  function BeginLoadOf(path: string): Pc {
    Begin(LoadLock, Leaf(path)).(asked := path)
  }

  /** `db`: open indexes by key.  Every index opened gets a new generation; `nextGen` is the next one.
      `kafka`: the running consumers by the index they write, with the table of the slot that owns them.
      `left`, a record only: the keys an exception left open, and which no one has closed or registered since. */
  datatype State = State(
    db: map<string, nat>,
    nextGen: nat,
    heads: map<string, Head>,
    loadLock: Option<Thread>,
    serial: map<string, Thread>,
    pcs: map<Thread, Pc>,
    handles: map<nat, Handle>,
    kafka: map<nat, string>,
    left: set<string>)

  const INIT := State(map[], 0, map[], None, map[], map[], map[], map[], {})

  // ---- The database ----

  /** Opening a key that is registered already changes nothing. */
  function OpenIndex(s: State, key: string): State {
    if key in s.db then s else s.(db := s.db[key := s.nextGen], nextGen := s.nextGen + 1)
  }

  function CloseIndex(s: State, key: string): State {
    s.(db := s.db - {key}, left := s.left - {key})
  }

  /** An exception passes by the call that would have closed `key`, or comes out of it. */
  function LeaveOpen(s: State, key: string): State {
    s.(left := s.left + {key})
  }

  /** `CloseIndex` as the last thing a call does. */
  function CloseOrLeave(s: State, key: string, o: Outcome): State {
    if o.Works? then CloseIndex(s, key) else LeaveOpen(s, key)
  }

  // ---- Steps ----

  function Place(s: State, t: Thread, pc: Pc): State {
    s.(pcs := s.pcs[t := pc])
  }

  function Goto(s: State, t: Thread, at: Phase): State
    requires t in s.pcs
  {
    Place(s, t, s.pcs[t].(at := at))
  }

  /** The thread returns or throws. */
  function Exit(s: State, t: Thread): State {
    s.(pcs := s.pcs - {t})
  }

  function EndLoad(s: State, t: Thread): State {
    Exit(s, t).(loadLock := None)
  }

  function EndReload(s: State, t: Thread, name: string): State {
    Exit(s, t).(serial := s.serial - {name})
  }

  function StopKafka(s: State, slot: nat): State {
    s.(kafka := s.kafka - {slot})
  }

  /** The slot BuildSlotAfterOpen returns, and whether the table's configuration starts a consumer. */
  function Build(s: State, name: string, slot: nat, consumer: bool): State {
    if consumer then s.(kafka := s.kafka[slot := name]) else s
  }

  /** The key is in use from now on, if it was not before. */
  function Registered(s: State, name: string, slot: nat): State {
    s.(heads := s.heads[name := Head(Some(slot), false)], left := s.left - {name})
  }

  /** `use_count() == 1` for the slot a reload is about to retire. */
  predicate OnlyReference(s: State, slot: nat) {
    && (forall h :: h in s.handles ==> s.handles[h].slot != slot)
    && (forall n :: n in s.heads ==> s.heads[n].slot != Some(slot))
  }

  /** The next step of thread `t`, or `None` while it waits.  `o` is the outcome of the foreign call in
      the step, `consumer` whether a Kafka consumer is configured. */
  function Next(s: State, t: Thread, o: Outcome, consumer: bool): Option<State>
    requires t in s.pcs
  {
    var pc := s.pcs[t];
    var name := pc.name;
    var nextKey, prevKey := OtherKey(name, pc.live), LiveKey(name, pc.live);
    match pc.at
    case LoadLock =>
      if s.loadLock.Some? then None
      else Some(Goto(s, t, LoadCheck).(loadLock := Some(t)))
    case LoadCheck =>
      if !IsLoadable(name) || name in s.heads then Some(EndLoad(s, t))
      else Some(Goto(s, t, LoadOpen))
    case LoadOpen =>
      if o.Works? then Some(Goto(OpenIndex(s, name), t, LoadCanonical)) else Some(EndLoad(s, t))
    case LoadCanonical =>
      Some(Goto(s, t, if o.Works? then LoadBuild else LoadClose))
    case LoadBuild =>
      if o.Works? && name in s.db then
        Some(Place(Build(s, name, s.db[name], consumer), t, pc.(at := LoadRegister, slot := s.db[name])))
      else if o.Throws? then Some(EndLoad(LeaveOpen(s, name), t))
      else Some(Goto(s, t, LoadClose))
    case LoadClose =>
      Some(EndLoad(CloseOrLeave(s, name, o), t))
    case LoadRegister =>
      if name in s.heads then Some(EndLoad(CloseOrLeave(StopKafka(s, pc.slot), name, o), t))
      else Some(EndLoad(Registered(s, name, pc.slot), t))
    case ReloadCheck =>
      if name in s.heads then Some(Goto(s, t, ReloadFind))
      else if IsReserved(name) || !o.Works? then Some(Exit(s, t))
      else Some(Place(s, t, BeginLoadOf(name)))
    case ReloadFind =>
      if name in s.heads then Some(Goto(s, t, ReloadLock)) else Some(Exit(s, t))
    case ReloadLock =>
      if name in s.serial then None
      else Some(Goto(s, t, ReloadRead).(serial := s.serial[name := t]))
    case ReloadRead =>
      if name !in s.heads || s.heads[name].slot.None? then Some(EndReload(s, t, name))
      else Some(Place(s, t, pc.(at := ReloadPrepare, live := s.heads[name].stagingIsLive)))
    case ReloadPrepare =>
      if o.Works? then Some(Goto(s, t, ReloadCloseNext)) else Some(EndReload(s, t, name))
    case ReloadCloseNext =>
      if o.Works? then Some(Goto(CloseIndex(s, nextKey), t, ReloadOpen)) else Some(EndReload(s, t, name))
    case ReloadOpen =>
      if o.Works? then Some(Goto(OpenIndex(s, nextKey), t, ReloadBuild)) else Some(EndReload(s, t, name))
    case ReloadBuild =>
      if o.Works? && nextKey in s.db then
        Some(Place(Build(s, name, s.db[nextKey], consumer), t, pc.(at := ReloadSwap, slot := s.db[nextKey])))
      else if o.Throws? then Some(EndReload(LeaveOpen(s, nextKey), t, name))
      else Some(Goto(s, t, ReloadUndo))
    case ReloadUndo =>
      Some(EndReload(CloseOrLeave(s, nextKey, o), t, name))
    case ReloadSwap =>
      if name !in s.heads then None
      else
        Some(Place(s, t, pc.(at := ReloadStop, oldSlot := s.heads[name].slot))
             .(heads := s.heads[name := Head(Some(pc.slot), !pc.live)]))
    case ReloadStop =>
      Some(Goto(if pc.oldSlot.Some? then StopKafka(s, pc.oldSlot.value) else s, t, ReloadDrain))
    case ReloadDrain =>
      if pc.oldSlot.Some? && OnlyReference(s, pc.oldSlot.value) then Some(Goto(s, t, ReloadClosePrev)) else None
    case ReloadClosePrev =>
      Some(EndReload(CloseOrLeave(s, prevKey, o), t, name))
  }

  /** `Acquire` */
  function Acquire(s: State, name: string): Option<Handle> {
    if name !in s.heads then None
    else if s.heads[name].slot.None? then None
    else Some(Handle(name, s.heads[name].slot.value))
  }

  datatype Event =
    | BeginLoad(t: Thread, path: string)
    | BeginReload(t: Thread, name: string)
    | Step(t: Thread, o: Outcome, consumer: bool)
    | AcquireAs(h: nat, name: string)
    | Copy(h: nat, from: nat)
    | Release(h: nat)

  predicate Enabled(s: State, e: Event) {
    match e
    case BeginLoad(t, path) => t !in s.pcs
    case BeginReload(t, name) => t !in s.pcs
    case Step(t, o, consumer) => t in s.pcs && Next(s, t, o, consumer).Some?
    case AcquireAs(h, name) => h !in s.handles
    case Copy(h, from) => h !in s.handles && from in s.handles
    case Release(h) => h in s.handles
  }

  function Apply(s: State, e: Event): State
    requires Enabled(s, e)
  {
    match e
    case BeginLoad(t, path) => Place(s, t, BeginLoadOf(path))
    case BeginReload(t, name) => Place(s, t, Begin(ReloadCheck, name))
    case Step(t, o, consumer) => Next(s, t, o, consumer).value
    case AcquireAs(h, name) =>
      var handle := Acquire(s, name);
      if handle.Some? then s.(handles := s.handles[h := handle.value]) else s
    case Copy(h, from) => s.(handles := s.handles[h := s.handles[from]])
    case Release(h) => s.(handles := s.handles - {h})
  }

  /** The state after a run, or `None` if an event is not possible where it stands. */
  function Run(s: State, events: seq<Event>): Option<State>
    decreases |events|
  {
    if events == [] then Some(s)
    else if Enabled(s, events[0]) then Run(Apply(s, events[0]), events[1..])
    else None
  }

  // ---- What is in use ----

  predicate IsLive(s: State, slot: nat) {
    exists n :: n in s.heads && s.heads[n].slot == Some(slot)
  }

  predicate IsPinned(s: State, slot: nat) {
    exists h :: h in s.handles && s.handles[h].slot == slot
  }

  /** The index serves a table, a request or a Kafka consumer. */
  predicate InUse(s: State, slot: nat) {
    IsLive(s, slot) || IsPinned(s, slot) || slot in s.kafka
  }

  /** The key a thread's next step closes; the consumer of a slot dropped at LoadRegister is stopped first. */
  function Closes(s: State, t: Thread): Option<string>
    requires t in s.pcs
  {
    var pc := s.pcs[t];
    match pc.at
    case LoadClose => Some(pc.name)
    case LoadRegister => if pc.name in s.heads then Some(pc.name) else None
    case ReloadCloseNext => Some(OtherKey(pc.name, pc.live))
    case ReloadUndo => Some(OtherKey(pc.name, pc.live))
    case ReloadClosePrev => Some(LiveKey(pc.name, pc.live))
    case _ => None
  }
}
