/** The steps that open, close, publish or retire an index. */
module RegistryOpens {
  import opened Wrappers
  import opened Registry
  import opened RegistryInv
  import opened RegistrySteps

  // ---- LoadTable ----

  /** Nothing of a table that is being loaded is known to anyone else. */
  lemma LoadAlone(s: State, t: Thread)
    requires Inv(s) && t in s.pcs && (s.pcs[t].at.LoadOpen? || LoadOpened(s.pcs[t]))
    ensures var n := s.pcs[t].name;
            && ThreadOk(s, t) && Owner(s, t, n) && s.loadLock == Some(t) && IsLoadable(n) && n !in s.heads && n !in s.serial
            && TableOf(n) == n
            && (forall k :: k in s.db && TableOf(k) == n ==> k == n && s.db[k] < s.nextGen && (LoadOpened(s.pcs[t]) || k in s.left))
            && (forall k :: k in s.left && TableOf(k) == n ==> k == n && n in s.db)
            && (forall h :: h in s.handles ==> s.handles[h].name != n)
            && (forall g :: g in s.kafka && s.kafka[g] == n ==> s.pcs[t].at.LoadRegister? && s.pcs[t].slot == g)
  {
    hide Inv;
    var n := s.pcs[t].name;
    ThreadFact(s, t);
    NotReloaded(s, n);
    StagingIsReserved(n);
    forall k | k in s.db && TableOf(k) == n
      ensures k == n && s.db[k] < s.nextGen && (LoadOpened(s.pcs[t]) || k in s.left)
    {
      KeyFact(s, k);
      if k in s.left { LeftFact(s, k); }
    }
    forall k | k in s.left && TableOf(k) == n
      ensures k == n && n in s.db
    {
      LeftFact(s, k);
    }
    forall h | h in s.handles
      ensures s.handles[h].name != n
    {
      PinFact(s, h);
    }
    forall g | g in s.kafka && s.kafka[g] == n
      ensures s.pcs[t].at.LoadRegister? && s.pcs[t].slot == g
    {
      ConsumerFact(s, g);
    }
  }

  lemma LoadLeft(z: State, n: string)
    requires n !in z.heads && forall k :: k in z.left && TableOf(k) == n ==> k == n && n in z.db
    ensures LeftLocal(z, n)
  {
    hide TableOf;
  }

  lemma NotReloaded(s: State, n: string)
    requires Inv(s) && n !in s.heads
    ensures n !in s.serial
  {
    hide Inv;
    LockFact(s, n);
    if n in s.serial { ThreadFact(s, s.serial[n]); }
  }

  lemma LoadOpens(s: State, t: Thread)
    requires Inv(s) && t in s.pcs && s.pcs[t].at.LoadOpen?
    ensures Inv(Goto(OpenIndex(s, s.pcs[t].name), t, LoadCanonical))
  {
    hide Inv, IsLoadable, IsReserved, LiveKey, TableOf, Beyond, PinsLocal, ConsumersLocal, KeysLocal;
    LoadAlone(s, t);
    var n := s.pcs[t].name;
    var z := Goto(OpenIndex(s, n), t, LoadCanonical);
    ChangesBeyond(s, z, t, n, n, 0);
    PinsStay(s, z, t, n);
    ConsumersStay(s, z, t, n);
    LoadedKeys(s, t);
    LoadLeft(z, n);
    StepLocal(s, z, t, n);
  }

  lemma LoadedKeys(s: State, t: Thread)
    requires Inv(s) && t in s.pcs && s.pcs[t].at.LoadOpen?
    ensures KeysLocal(s, Goto(OpenIndex(s, s.pcs[t].name), t, LoadCanonical), s.pcs[t].name)
  {
    hide Inv, IsLoadable, IsReserved, LiveKey, TableOf;
    LoadAlone(s, t);
  }

  lemma LoadBuilds(s: State, t: Thread, consumer: bool)
    requires Inv(s) && t in s.pcs && s.pcs[t].at.LoadBuild? && s.pcs[t].name in s.db
    ensures var pc := s.pcs[t];
            Inv(Place(Build(s, pc.name, s.db[pc.name], consumer), t, pc.(at := LoadRegister, slot := s.db[pc.name])))
  {
    hide Inv, IsLoadable, IsReserved, LiveKey, TableOf, Beyond, KeysLocal, PinsLocal;
    LoadAlone(s, t);
    var pc := s.pcs[t];
    var z := Place(Build(s, pc.name, s.db[pc.name], consumer), t, pc.(at := LoadRegister, slot := s.db[pc.name]));
    ChangesBeyond(s, z, t, pc.name, pc.name, s.db[pc.name]);
    KeysStay(s, z, t, pc.name);
    PinsStay(s, z, t, pc.name);
    LoadLeft(z, pc.name);
    StepLocal(s, z, t, pc.name);
  }

  /** An exception passes LoadTable by, and the key stays open. */
  lemma LoadThrows(s: State, t: Thread)
    requires Inv(s) && t in s.pcs && (s.pcs[t].at.LoadBuild? || s.pcs[t].at.LoadClose?)
    ensures Inv(EndLoad(LeaveOpen(s, s.pcs[t].name), t))
  {
    hide Inv, IsLoadable, IsReserved, LiveKey, TableOf, Beyond, PinsLocal, ConsumersLocal;
    LoadAlone(s, t);
    var n := s.pcs[t].name;
    var z := EndLoad(LeaveOpen(s, n), t);
    ChangesBeyond(s, z, t, n, n, 0);
    PinsStay(s, z, t, n);
    ConsumersStay(s, z, t, n);
    LoadLeft(z, n);
    StepLocal(s, z, t, n);
  }

  lemma LoadCloses(s: State, t: Thread)
    requires Inv(s) && t in s.pcs && s.pcs[t].at.LoadClose?
    ensures Inv(EndLoad(CloseIndex(s, s.pcs[t].name), t))
  {
    hide Inv, IsLoadable, IsReserved, LiveKey, TableOf;
    LoadAlone(s, t);
    LoadLeft(EndLoad(CloseIndex(s, s.pcs[t].name), t), s.pcs[t].name);
    StepLocal(s, EndLoad(CloseIndex(s, s.pcs[t].name), t), t, s.pcs[t].name);
  }

  /** The table could not have been registered meanwhile, so the slot just built is the one registered. */
  lemma LoadRegisters(s: State, t: Thread)
    requires Inv(s) && t in s.pcs && s.pcs[t].at.LoadRegister?
    ensures s.pcs[t].name !in s.heads
    ensures Inv(EndLoad(Registered(s, s.pcs[t].name, s.pcs[t].slot), t))
  {
    hide Inv, IsLoadable, IsReserved, TableOf, StagingName, Beyond, HeadOk, KeyOk;
    LoadAlone(s, t);
    var n := s.pcs[t].name;
    var z := EndLoad(Registered(s, n, s.pcs[t].slot), t);
    ChangesBeyond(s, z, t, n, n, 0);
    NewHead(s, z, t);
    KeyFact(s, n);
    NewHeadKey(s, z, t);
    NothingLeft(z, n);
    StepLocal(s, z, t, n);
  }

  lemma NothingLeft(z: State, n: string)
    requires forall k :: k in z.left ==> TableOf(k) != n
    ensures LeftLocal(z, n)
  {
    hide TableOf;
  }

  lemma NewHeadKey(s: State, z: State, t: Thread)
    requires t in s.pcs && ThreadOk(s, t) && s.pcs[t].at.LoadRegister? && KeyOk(s, s.pcs[t].name) && IsLoadable(s.pcs[t].name)
    requires z == EndLoad(Registered(s, s.pcs[t].name, s.pcs[t].slot), t)
    ensures KeyOk(z, s.pcs[t].name)
  {
    StagingIsReserved(s.pcs[t].name);
  }

  lemma NewHead(s: State, z: State, t: Thread)
    requires Inv(s) && t in s.pcs && s.pcs[t].at.LoadRegister?
    requires z == EndLoad(Registered(s, s.pcs[t].name, s.pcs[t].slot), t)
    ensures HeadOk(z, s.pcs[t].name)
  {
    hide Inv, IsReserved, TableOf, StagingName;
    LoadAlone(s, t);
    StagingIsReserved(s.pcs[t].name);
  }

  // ---- ReloadTable ----

  /** What is known of a table that is being reloaded. */
  lemma ReloadAlone(s: State, t: Thread)
    requires Inv(s) && t in s.pcs && HoldsSerial(s.pcs[t])
    ensures var n := s.pcs[t].name;
            && ThreadOk(s, t) && Owner(s, t, n) && HeadOk(s, n) && n in s.heads && n in s.serial && s.serial[n] == t
            && s.loadLock != Some(t)
            && var flag := s.heads[n].stagingIsLive;
            && TableOf(LiveKey(n, flag)) == n && TableOf(OtherKey(n, flag)) == n && LiveKey(n, flag) != OtherKey(n, flag)
            && (forall k :: k in s.db && TableOf(k) == n ==> s.db[k] < s.nextGen && (k == LiveKey(n, flag) || k == OtherKey(n, flag)))
  {
    hide Inv, IsReserved, LiveKey, TableOf;
    Mine(s, t);
    var n := s.pcs[t].name;
    KeysOf(n, s.heads[n].stagingIsLive);
    forall k | k in s.db && TableOf(k) == n
      ensures s.db[k] < s.nextGen && (k == LiveKey(n, s.heads[n].stagingIsLive) || k == OtherKey(n, s.heads[n].stagingIsLive))
    {
      KeyFact(s, k);
      KeyIsOneOf(k, s.heads[n].stagingIsLive);
    }
  }

  /** What a reload's thread and its table know of the keys left open. */
  lemma ReloadLeft(s: State, t: Thread)
    requires Inv(s) && t in s.pcs && HoldsSerial(s.pcs[t])
    ensures var n := s.pcs[t].name;
            && n in s.heads
            && (forall k :: k in s.left && TableOf(k) == n ==>
                  k in s.db && k == OtherKey(n, s.heads[n].stagingIsLive) && !Cleared(s.pcs[t]))
  {
    hide Inv, IsReserved, LiveKey, TableOf;
    Mine(s, t);
    forall k | k in s.left && TableOf(k) == s.pcs[t].name
      ensures k in s.db && k == OtherKey(s.pcs[t].name, s.heads[s.pcs[t].name].stagingIsLive) && !Cleared(s.pcs[t])
    {
      LeftFact(s, k);
    }
  }

  /** Dropping a registration that an exception left open under the next key. */
  lemma ReloadClears(s: State, t: Thread)
    requires Inv(s) && t in s.pcs && s.pcs[t].at.ReloadCloseNext?
    ensures Inv(Goto(CloseIndex(s, OtherKey(s.pcs[t].name, s.pcs[t].live)), t, ReloadOpen))
  {
    hide Inv, IsLoadable, IsReserved, LiveKey, TableOf, PinsLocal, ConsumersLocal, Beyond, KeysLocal;
    ReloadAlone(s, t);
    ReloadLeft(s, t);
    var pc := s.pcs[t];
    var key := OtherKey(pc.name, pc.live);
    var z := Goto(CloseIndex(s, key), t, ReloadOpen);
    ChangesBeyond(s, z, t, pc.name, key, 0);
    PinsStay(s, z, t, pc.name);
    ConsumersStay(s, z, t, pc.name);
    LiveKeyLeft(s, z, t);
    NothingLeft(z, pc.name);
    StepLocal(s, z, t, pc.name);
  }

  lemma LiveKeyLeft(s: State, z: State, t: Thread)
    requires Inv(s) && t in s.pcs && s.pcs[t].at.ReloadCloseNext?
    requires z == Goto(CloseIndex(s, OtherKey(s.pcs[t].name, s.pcs[t].live)), t, ReloadOpen)
    ensures KeysLocal(s, z, s.pcs[t].name)
  {
    hide Inv, IsLoadable, IsReserved, LiveKey, TableOf;
    ReloadAlone(s, t);
  }

  /** An exception passes ReloadTable by, and the key that is not in use stays open. */
  lemma ReloadThrows(s: State, t: Thread)
    requires Inv(s) && t in s.pcs && (s.pcs[t].at.ReloadBuild? || s.pcs[t].at.ReloadUndo? || s.pcs[t].at.ReloadClosePrev?)
    ensures var pc := s.pcs[t];
            var key := if pc.at.ReloadClosePrev? then LiveKey(pc.name, pc.live) else OtherKey(pc.name, pc.live);
            Inv(EndReload(LeaveOpen(s, key), t, pc.name))
  {
    hide Inv, IsLoadable, IsReserved, LiveKey, TableOf, PinsLocal, ConsumersLocal, Beyond, KeysLocal;
    ReloadAlone(s, t);
    ReloadLeft(s, t);
    var pc := s.pcs[t];
    var key := OtherKey(pc.name, s.heads[pc.name].stagingIsLive);
    var z := EndReload(LeaveOpen(s, key), t, pc.name);
    ChangesBeyond(s, z, t, pc.name, key, 0);
    PinsStay(s, z, t, pc.name);
    ConsumersStay(s, z, t, pc.name);
    KeysStay(s, z, t, pc.name);
    OneLeft(s, z, t);
    StepLocal(s, z, t, pc.name);
  }

  lemma OneLeft(s: State, z: State, t: Thread)
    requires Inv(s) && t in s.pcs && BothOpen(s.pcs[t])
    requires var n := s.pcs[t].name;
             n in s.heads && z == EndReload(LeaveOpen(s, OtherKey(n, s.heads[n].stagingIsLive)), t, n)
    ensures LeftLocal(z, s.pcs[t].name)
  {
    hide Inv, IsLoadable, IsReserved, LiveKey, TableOf;
    ReloadAlone(s, t);
    ReloadLeft(s, t);
  }

  lemma ReloadOpens(s: State, t: Thread)
    requires Inv(s) && t in s.pcs && s.pcs[t].at.ReloadOpen?
    ensures Inv(Goto(OpenIndex(s, OtherKey(s.pcs[t].name, s.pcs[t].live)), t, ReloadBuild))
  {
    hide Inv, IsLoadable, IsReserved, LiveKey, TableOf, PinsLocal, ConsumersLocal, Beyond, KeysLocal;
    ReloadAlone(s, t);
    var pc := s.pcs[t];
    var key := OtherKey(pc.name, pc.live);
    var z := Goto(OpenIndex(s, key), t, ReloadBuild);
    ChangesBeyond(s, z, t, pc.name, key, 0);
    PinsStay(s, z, t, pc.name);
    ConsumersStay(s, z, t, pc.name);
    KeyFacts(s);
    NothingStale(s, t);
    ChangedKey(s, z, pc.name, key, 0);
    NoneLeft(s, z, t);
    StepLocal(s, z, t, pc.name);
  }

  lemma ReloadBuilds(s: State, t: Thread, consumer: bool)
    requires Inv(s) && t in s.pcs && s.pcs[t].at.ReloadBuild? && OtherKey(s.pcs[t].name, s.pcs[t].live) in s.db
    ensures var pc := s.pcs[t];
            var slot := s.db[OtherKey(pc.name, pc.live)];
            Inv(Place(Build(s, pc.name, slot, consumer), t, pc.(at := ReloadSwap, slot := slot)))
  {
    hide Inv, IsLoadable, IsReserved, LiveKey, TableOf, PinsLocal, KeysLocal, Beyond, HeadOk;
    ReloadAlone(s, t);
    var pc := s.pcs[t];
    var slot := s.db[OtherKey(pc.name, pc.live)];
    var z := Place(Build(s, pc.name, slot, consumer), t, pc.(at := ReloadSwap, slot := slot));
    ChangesBeyond(s, z, t, pc.name, LiveKey(pc.name, pc.live), slot);
    PinsStay(s, z, t, pc.name);
    KeysStay(s, z, t, pc.name);
    HeadStays(s, z, t, pc.name);
    ReloadConsumers(s, z, t);
    NoneLeft(s, z, t);
    StepLocal(s, z, t, pc.name);
  }

  lemma NoneLeft(s: State, z: State, t: Thread)
    requires Inv(s) && t in s.pcs && Cleared(s.pcs[t]) && z.left == s.left
    ensures LeftLocal(z, s.pcs[t].name)
  {
    hide Inv, IsReserved, LiveKey, TableOf;
    ReloadLeft(s, t);
  }

  lemma ReloadConsumers(s: State, z: State, t: Thread)
    requires Inv(s) && t in s.pcs && s.pcs[t].at.ReloadBuild? && t in z.pcs && z.pcs[t].at.ReloadSwap?
    requires z.heads == s.heads && z.serial == s.serial && z.pcs[t].name == s.pcs[t].name
    requires z.kafka == s.kafka || z.kafka == s.kafka[z.pcs[t].slot := s.pcs[t].name]
    ensures ConsumersLocal(z, s.pcs[t].name)
  {
    hide Inv, IsLoadable, IsReserved, LiveKey, TableOf;
    ReloadAlone(s, t);
    forall g | g in z.kafka && z.kafka[g] == s.pcs[t].name
      ensures ConsumerOk(z, g)
    {
      if g != z.pcs[t].slot || z.kafka == s.kafka {
        ConsumerFact(s, g);
        NoLoader(s, s.pcs[t].name);
      }
    }
  }

  /** No thread loads a table that is registered. */
  lemma NoLoader(s: State, n: string)
    requires Inv(s) && n in s.heads
    ensures Loader(s).Some? && LoadOpened(Loader(s).value) ==> Loader(s).value.name != n
  {
    hide Inv;
    if Loader(s).Some? { ThreadFact(s, s.loadLock.value); }
  }

  /** Closing the key not in use: after a failed rebuild the next one, after the drain the previous one. */
  lemma ReloadCloses(s: State, t: Thread)
    requires Inv(s) && t in s.pcs && (s.pcs[t].at.ReloadUndo? || s.pcs[t].at.ReloadClosePrev?)
    ensures var pc := s.pcs[t];
            var key := if pc.at.ReloadUndo? then OtherKey(pc.name, pc.live) else LiveKey(pc.name, pc.live);
            Inv(EndReload(CloseIndex(s, key), t, pc.name))
  {
    hide Inv, IsLoadable, IsReserved, LiveKey, TableOf, PinsLocal, ConsumersLocal, Beyond, KeysLocal;
    ReloadAlone(s, t);
    var pc := s.pcs[t];
    var key := OtherKey(pc.name, s.heads[pc.name].stagingIsLive);
    var z := EndReload(CloseIndex(s, key), t, pc.name);
    ChangesBeyond(s, z, t, pc.name, key, 0);
    PinsStay(s, z, t, pc.name);
    ConsumersStay(s, z, t, pc.name);
    OneKeyLeft(s, z, t);
    ReloadLeft(s, t);
    NothingLeft(z, pc.name);
    StepLocal(s, z, t, pc.name);
  }

  lemma OneKeyLeft(s: State, z: State, t: Thread)
    requires Inv(s) && t in s.pcs && HoldsSerial(s.pcs[t])
    requires var n := s.pcs[t].name;
             n in s.heads && z == EndReload(CloseIndex(s, OtherKey(n, s.heads[n].stagingIsLive)), t, n)
    ensures KeysLocal(s, z, s.pcs[t].name)
  {
    hide Inv, IsLoadable, IsReserved, LiveKey, TableOf;
    ReloadAlone(s, t);
  }

  /** The swap: requests now get the new slot, and the old one is left to drain. */
  lemma ReloadSwaps(s: State, t: Thread)
    requires Inv(s) && t in s.pcs && s.pcs[t].at.ReloadSwap?
    ensures var pc := s.pcs[t];
            && pc.name in s.heads
            && Inv(Place(s, t, pc.(at := ReloadStop, oldSlot := s.heads[pc.name].slot))
                   .(heads := s.heads[pc.name := Head(Some(pc.slot), !pc.live)]))
  {
    hide Inv, IsLoadable, IsReserved, LiveKey, TableOf, PinsLocal, ConsumersLocal, Beyond, KeysLocal;
    ReloadAlone(s, t);
    var pc := s.pcs[t];
    var z := Place(s, t, pc.(at := ReloadStop, oldSlot := s.heads[pc.name].slot))
             .(heads := s.heads[pc.name := Head(Some(pc.slot), !pc.live)]);
    ChangesBeyond(s, z, t, pc.name, LiveKey(pc.name, pc.live), 0);
    SwapPins(s, z, t);
    KeysStay(s, z, t, pc.name);
    NoneLeft(s, z, t);
    StepLocal(s, z, t, pc.name);
  }

  lemma SwapPins(s: State, z: State, t: Thread)
    requires Inv(s) && t in s.pcs && s.pcs[t].at.ReloadSwap? && s.pcs[t].name in s.heads
    requires var pc := s.pcs[t];
             z == Place(s, t, pc.(at := ReloadStop, oldSlot := s.heads[pc.name].slot))
                  .(heads := s.heads[pc.name := Head(Some(pc.slot), !pc.live)])
    ensures PinsLocal(z, s.pcs[t].name) && ConsumersLocal(z, s.pcs[t].name)
  {
    hide Inv, IsLoadable, IsReserved, LiveKey, TableOf;
    ReloadAlone(s, t);
    NoLoader(s, s.pcs[t].name);
    forall h | h in z.handles && z.handles[h].name == s.pcs[t].name
      ensures PinOk(z, h)
    {
      PinFact(s, h);
    }
    forall g | g in z.kafka && z.kafka[g] == s.pcs[t].name
      ensures ConsumerOk(z, g)
    {
      ConsumerFact(s, g);
    }
  }

  lemma ReloadStops(s: State, t: Thread)
    requires Inv(s) && t in s.pcs && s.pcs[t].at.ReloadStop?
    ensures s.pcs[t].oldSlot.Some? && Inv(Goto(StopKafka(s, s.pcs[t].oldSlot.value), t, ReloadDrain))
  {
    hide Inv, IsLoadable, IsReserved, LiveKey, TableOf, PinsLocal, ConsumersLocal, Beyond, KeysLocal, HeadOk;
    ReloadAlone(s, t);
    var pc := s.pcs[t];
    var z := Goto(StopKafka(s, pc.oldSlot.value), t, ReloadDrain);
    ChangesBeyond(s, z, t, pc.name, LiveKey(pc.name, pc.live), pc.oldSlot.value);
    DrainPins(s, z, t, pc.oldSlot.value);
    KeysStay(s, z, t, pc.name);
    NoneLeft(s, z, t);
    HeadStays(s, z, t, pc.name);
    StepLocal(s, z, t, pc.name);
  }

  lemma DrainPins(s: State, z: State, t: Thread, oldSlot: nat)
    requires Inv(s) && t in s.pcs && s.pcs[t].at.ReloadStop? && s.pcs[t].oldSlot == Some(oldSlot)
    requires z == Goto(StopKafka(s, oldSlot), t, ReloadDrain)
    ensures PinsLocal(z, s.pcs[t].name) && ConsumersLocal(z, s.pcs[t].name)
  {
    hide Inv, IsLoadable, IsReserved, LiveKey, TableOf;
    ReloadAlone(s, t);
    NoLoader(s, s.pcs[t].name);
    forall h | h in z.handles && z.handles[h].name == s.pcs[t].name
      ensures PinOk(z, h)
    {
      PinFact(s, h);
    }
    forall g | g in z.kafka && z.kafka[g] == s.pcs[t].name
      ensures ConsumerOk(z, g)
    {
      ConsumerFact(s, g);
    }
  }

  /** With no handle left on the old slot nobody minds that it is forgotten. */
  lemma ReloadDrains(s: State, t: Thread)
    requires Inv(s) && t in s.pcs && s.pcs[t].at.ReloadDrain? && s.pcs[t].oldSlot.Some? && OnlyReference(s, s.pcs[t].oldSlot.value)
    ensures Inv(Goto(s, t, ReloadClosePrev))
  {
    hide Inv, IsLoadable, IsReserved, LiveKey, TableOf, PinsLocal, ConsumersLocal, Beyond, KeysLocal, HeadOk, OnlyReference;
    ReloadAlone(s, t);
    var pc := s.pcs[t];
    var z := Goto(s, t, ReloadClosePrev);
    ChangesBeyond(s, z, t, pc.name, LiveKey(pc.name, pc.live), 0);
    DrainedPins(s, t);
    NoneLeft(s, z, t);
    ConsumersStay(s, z, t, pc.name);
    KeysStay(s, z, t, pc.name);
    HeadStays(s, z, t, pc.name);
    StepLocal(s, z, t, pc.name);
  }

  lemma DrainedPins(s: State, t: Thread)
    requires Inv(s) && t in s.pcs && s.pcs[t].at.ReloadDrain? && s.pcs[t].oldSlot.Some? && OnlyReference(s, s.pcs[t].oldSlot.value)
    ensures PinsLocal(Goto(s, t, ReloadClosePrev), s.pcs[t].name)
  {
    hide Inv, IsLoadable, IsReserved, LiveKey, TableOf;
    ReloadAlone(s, t);
    var z := Goto(s, t, ReloadClosePrev);
    forall h | h in z.handles && z.handles[h].name == s.pcs[t].name
      ensures PinOk(z, h)
    {
      PinFact(s, h);
    }
  }

  // ---- Requests ----

  lemma SameThread(s: State, z: State, t: Thread)
    requires z == s.(handles := z.handles) && t in s.pcs && ThreadOk(s, t)
    ensures ThreadOk(z, t)
  {
  }

  lemma SameTable(s: State, z: State, n: string)
    requires z == s.(handles := z.handles)
    ensures n in s.heads && HeadOk(s, n) ==> HeadOk(z, n)
    ensures n in s.db && KeyOk(s, n) ==> KeyOk(z, n)
    ensures n in s.serial && LockOk(s, n) ==> LockOk(z, n)
  {
  }

  lemma SameLeft(s: State, z: State, k: string)
    requires z == s.(handles := z.handles) && k in s.left && LeftOk(s, k)
    ensures LeftOk(z, k)
  {
  }

  lemma SameConsumer(s: State, z: State, g: nat)
    requires z == s.(handles := z.handles) && g in s.kafka && ConsumerOk(s, g)
    ensures ConsumerOk(z, g)
  {
  }

  lemma SamePins(s: State, z: State)
    requires Inv(s) && z == s.(handles := z.handles)
    requires forall h :: h in z.handles ==> PinOk(z, h)
    ensures Inv(z)
  {
    hide ThreadOk, HeadOk, LockOk, KeyOk, ConsumerOk, PinOk, LeftOk;
    forall t | t in z.pcs ensures ThreadOk(z, t) { SameThread(s, z, t); }
    forall n | n in z.heads ensures HeadOk(z, n) { SameTable(s, z, n); }
    forall n | n in z.serial ensures LockOk(z, n) { SameTable(s, z, n); }
    forall k | k in z.db ensures KeyOk(z, k) { SameTable(s, z, k); }
    forall g | g in z.kafka ensures ConsumerOk(z, g) { SameConsumer(s, z, g); }
    forall k | k in z.left ensures LeftOk(z, k) { SameLeft(s, z, k); }
  }

  lemma RequestKeeps(s: State, e: Event)
    requires Inv(s) && Enabled(s, e) && (e.AcquireAs? || e.Copy? || e.Release?)
    ensures Inv(Apply(s, e))
  {
    hide Inv;
    var z := Apply(s, e);
    forall h | h in z.handles
      ensures PinOk(z, h)
    {
      if h in s.handles { PinFact(s, h); }
      if e.Copy? { PinFact(s, e.from); }
    }
    SamePins(s, z);
  }
}
