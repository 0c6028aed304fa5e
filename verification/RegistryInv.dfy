/** What every step of every thread keeps, in all interleavings. */
module RegistryInv {
  import opened Wrappers
  import opened Registry

  // ---- Keys ----

  /** The table a DB key belongs to. */
  function TableOf(key: string): string {
    if IsReserved(key) then key[..|key| - |SUFFIX|] else key
  }

  lemma StagingIsReserved(name: string)
    ensures IsReserved(StagingName(name)) && TableOf(StagingName(name)) == name
    ensures !IsReserved(name) ==> TableOf(name) == name && name != StagingName(name)
  {
    assert StagingName(name)[|name|..] == SUFFIX;
    assert StagingName(name)[..|name|] == name;
  }

  lemma KeysOf(name: string, flag: bool)
    requires !IsReserved(name)
    ensures TableOf(LiveKey(name, flag)) == TableOf(OtherKey(name, flag)) == name
    ensures LiveKey(name, flag) != OtherKey(name, flag)
  {
    StagingIsReserved(name);
  }

  /** A key of a table is one of its two. */
  lemma KeyIsOneOf(key: string, flag: bool)
    requires !IsReserved(TableOf(key))
    ensures key == LiveKey(TableOf(key), flag) || key == OtherKey(TableOf(key), flag)
  {
    if IsReserved(key) {
      assert key == key[..|key| - |SUFFIX|] + key[|key| - |SUFFIX|..];
    }
  }

  /** Tables with acceptable names never share a key. */
  lemma KeysDisjoint(a: string, b: string, p: bool, q: bool)
    requires IsLoadable(a) && IsLoadable(b) && a != b
    ensures LiveKey(a, p) != LiveKey(b, q)
  {
    KeysOf(a, p);
    KeysOf(b, q);
  }

  // ---- What a thread's position tells the others ----

  predicate HoldsLoad(pc: Pc) {
    pc.at.LoadCheck? || pc.at.LoadOpen? || LoadOpened(pc)
  }

  /** LoadTable has opened the index and not yet registered or closed it. */
  predicate LoadOpened(pc: Pc) {
    pc.at.LoadCanonical? || pc.at.LoadBuild? || pc.at.LoadClose? || pc.at.LoadRegister?
  }

  predicate HoldsSerial(pc: Pc) {
    pc.at.ReloadRead? || pc.at.ReloadPrepare? || pc.at.ReloadCloseNext? || pc.at.ReloadOpen? || BothOpen(pc)
  }

  /** ReloadTable has the next key open, or the previous one still. */
  predicate BothOpen(pc: Pc) {
    pc.at.ReloadBuild? || pc.at.ReloadUndo? || pc.at.ReloadSwap? || Swapped(pc)
  }

  predicate Swapped(pc: Pc) {
    pc.at.ReloadStop? || pc.at.ReloadDrain? || pc.at.ReloadClosePrev?
  }

  /** Where the thread that reloads table `n` stands. */
  function Reloader(s: State, n: string): Option<Pc> {
    if n in s.serial && s.serial[n] in s.pcs then Some(s.pcs[s.serial[n]]) else None
  }

  function Loader(s: State): Option<Pc> {
    if s.loadLock.Some? && s.loadLock.value in s.pcs then Some(s.pcs[s.loadLock.value]) else None
  }

  predicate Retires(pc: Pc, slot: nat) {
    (pc.at.ReloadStop? || pc.at.ReloadDrain?) && pc.oldSlot == Some(slot)
  }

  predicate Registers(pc: Pc, n: string, slot: nat) {
    pc.at.LoadRegister? && pc.name == n && pc.slot == slot
  }

  /** A consumer that runs for a slot not yet, or no longer, in place. */
  predicate KeepsConsumer(pc: Pc, slot: nat) {
    || (pc.at.ReloadSwap? && pc.slot == slot)
    || (pc.at.ReloadStop? && pc.oldSlot == Some(slot))
  }

  // ---- The invariant ----

  predicate ThreadOk(s: State, t: Thread)
    requires t in s.pcs
  {
    var pc := s.pcs[t];
    && (HoldsLoad(pc) <==> s.loadLock == Some(t))
    && (HoldsSerial(pc) ==> pc.name in s.serial && s.serial[pc.name] == t)
    && (pc.at.LoadOpen? || LoadOpened(pc) ==> IsLoadable(pc.name) && pc.name !in s.heads)
    && (LoadOpened(pc) ==> pc.name in s.db)
    && (pc.at.LoadRegister? ==> s.db[pc.name] == pc.slot)
    && (pc.at.ReloadFind? || pc.at.ReloadLock? || HoldsSerial(pc) ==> pc.name in s.heads)
    && (HoldsSerial(pc) && !pc.at.ReloadRead? ==> s.heads[pc.name].stagingIsLive == if Swapped(pc) then !pc.live else pc.live)
    && (pc.at.ReloadSwap? ==> OtherKey(pc.name, pc.live) in s.db && s.db[OtherKey(pc.name, pc.live)] == pc.slot)
    && (pc.at.ReloadBuild? || pc.at.ReloadSwap? ==>
          OtherKey(pc.name, pc.live) in s.db && LiveKey(pc.name, pc.live) in s.db
          && s.db[LiveKey(pc.name, pc.live)] < s.db[OtherKey(pc.name, pc.live)])
    && (pc.at.ReloadStop? || pc.at.ReloadDrain? ==>
          LiveKey(pc.name, pc.live) in s.db && pc.oldSlot == Some(s.db[LiveKey(pc.name, pc.live)]))
  }

  predicate LockOk(s: State, n: string)
    requires n in s.serial
  {
    s.serial[n] in s.pcs && HoldsSerial(s.pcs[s.serial[n]]) && s.pcs[s.serial[n]].name == n
  }

  predicate HeadOk(s: State, n: string)
    requires n in s.heads
  {
    var head := s.heads[n];
    && IsLoadable(n) && head.slot.Some?
    && LiveKey(n, head.stagingIsLive) in s.db && s.db[LiveKey(n, head.stagingIsLive)] == head.slot.value
    && (Reloader(s, n).Some? && BothOpen(Reloader(s, n).value) ==> OtherKey(n, head.stagingIsLive) in s.db)
    && (OtherKey(n, head.stagingIsLive) in s.db ==>
          (Reloader(s, n).Some? && BothOpen(Reloader(s, n).value)) || OtherKey(n, head.stagingIsLive) in s.left)
  }

  /** ReloadTable has closed whatever was left under the next key. */
  predicate Cleared(pc: Pc) {
    pc.at.ReloadOpen? || BothOpen(pc)
  }

  /** A key left open is no table's live key, and no reload is past closing it. */
  predicate LeftOk(s: State, k: string) {
    var n := TableOf(k);
    && k in s.db
    && if n in s.heads then
         k == OtherKey(n, s.heads[n].stagingIsLive) && !(Reloader(s, n).Some? && Cleared(Reloader(s, n).value))
       else
         k == n
  }

  predicate KeyOk(s: State, k: string)
    requires k in s.db
  {
    && s.db[k] < s.nextGen
    && (|| TableOf(k) in s.heads || k in s.left
        || (Loader(s).Some? && LoadOpened(Loader(s).value) && Loader(s).value.name == k))
  }

  predicate PinOk(s: State, h: nat)
    requires h in s.handles
  {
    var n, slot := s.handles[h].name, s.handles[h].slot;
    n in s.heads && (s.heads[n].slot == Some(slot) || (Reloader(s, n).Some? && Retires(Reloader(s, n).value, slot)))
  }

  predicate ConsumerOk(s: State, slot: nat)
    requires slot in s.kafka
  {
    var n := s.kafka[slot];
    || (n in s.heads && s.heads[n].slot == Some(slot))
    || (Reloader(s, n).Some? && KeepsConsumer(Reloader(s, n).value, slot))
    || (Loader(s).Some? && Registers(Loader(s).value, n, slot))
  }

  ghost predicate Inv(s: State) {
    && (forall t :: t in s.pcs ==> ThreadOk(s, t))
    && (s.loadLock.Some? ==> s.loadLock.value in s.pcs)
    && (forall n :: n in s.serial ==> LockOk(s, n))
    && (forall n :: n in s.heads ==> HeadOk(s, n))
    && (forall k :: k in s.db ==> KeyOk(s, k))
    && (forall j, k :: j in s.db && k in s.db && s.db[j] == s.db[k] ==> j == k)
    && (forall h :: h in s.handles ==> PinOk(s, h))
    && (forall g :: g in s.kafka ==> ConsumerOk(s, g))
    && (forall k :: k in s.left ==> LeftOk(s, k))
  }

  lemma ThreadFact(s: State, t: Thread)
    requires Inv(s) && t in s.pcs
    ensures ThreadOk(s, t)
  {
  }

  lemma LockFact(s: State, n: string)
    requires Inv(s)
    ensures n in s.serial ==> LockOk(s, n)
    ensures s.loadLock.Some? ==> s.loadLock.value in s.pcs
  {
  }

  lemma HeadFact(s: State, n: string)
    requires Inv(s) && n in s.heads
    ensures HeadOk(s, n)
  {
  }

  lemma KeyFact(s: State, k: string)
    requires Inv(s) && k in s.db
    ensures KeyOk(s, k)
  {
  }

  lemma PinFact(s: State, h: nat)
    requires Inv(s) && h in s.handles
    ensures PinOk(s, h)
  {
  }

  lemma ConsumerFact(s: State, g: nat)
    requires Inv(s) && g in s.kafka
    ensures ConsumerOk(s, g)
  {
  }

  lemma LeftFact(s: State, k: string)
    requires Inv(s) && k in s.left
    ensures LeftOk(s, k)
  {
  }

  /** No two keys hold the same index. */
  lemma KeyFacts(s: State)
    requires Inv(s)
    ensures forall j, k :: j in s.db && k in s.db && s.db[j] == s.db[k] ==> j == k
  {
  }

  // ---- A step only touches its own thread and its own table ----

  /** Outside thread `t` and table `n`, `s` and `z` agree. */
  ghost predicate Beyond(s: State, z: State, t: Thread, n: string) {
    && (forall u :: u != t ==> (u in z.pcs <==> u in s.pcs))
    && (forall u :: u != t && u in s.pcs ==> z.pcs[u] == s.pcs[u])
    && (z.loadLock == s.loadLock || ((s.loadLock == None || s.loadLock == Some(t)) && (z.loadLock == None || z.loadLock == Some(t))))
    && (forall m :: m != n ==> (m in z.serial <==> m in s.serial) && (m in z.heads <==> m in s.heads))
    && (forall m :: m in s.heads ==> m in z.heads)
    && (forall m :: m in s.serial && s.serial[m] != t ==> m in z.serial && z.serial[m] == s.serial[m])
    && (forall m :: m != n && m in s.serial ==> z.serial[m] == s.serial[m])
    && (forall m :: m != n && m in s.heads ==> z.heads[m] == s.heads[m])
    && (forall k :: TableOf(k) != n ==> (k in z.db <==> k in s.db))
    && (forall k :: TableOf(k) != n && k in s.db ==> z.db[k] == s.db[k])
    && (forall k :: TableOf(k) != n ==> (k in z.left <==> k in s.left))
    && z.handles == s.handles && z.nextGen >= s.nextGen
    && (forall g :: g in z.kafka && z.kafka[g] != n ==> g in s.kafka && s.kafka[g] == z.kafka[g])
  }

  /** Nothing but positions and locks changes. */
  predicate Quiet(s: State, z: State) {
    z.db == s.db && z.heads == s.heads && z.kafka == s.kafka && z.left == s.left
  }

  /** Thread `t` may change table `n`: no other thread holds the lock for that. */
  predicate Owner(s: State, t: Thread, n: string) {
    && t in s.pcs && s.pcs[t].name == n
    && if n in s.heads then n in s.serial && s.serial[n] == t else s.loadLock == Some(t)
  }

  predicate May(s: State, z: State, t: Thread, n: string) {
    Owner(s, t, n) || (Quiet(s, z) && (t in s.pcs ==> s.pcs[t].name == n))
  }

  // What is left to show of a step, about its own table and thread.

  ghost predicate KeysLocal(s: State, z: State, n: string) {
    && (forall k :: k in z.db && TableOf(k) == n ==> KeyOk(z, k) && ((k in s.db && s.db[k] == z.db[k]) || z.db[k] == s.nextGen))
    && (forall j, k :: j in z.db && k in z.db && TableOf(j) == TableOf(k) == n && z.db[j] == z.db[k] ==> j == k)
  }

  ghost predicate PinsLocal(z: State, n: string) {
    forall h :: h in z.handles && z.handles[h].name == n ==> PinOk(z, h)
  }

  ghost predicate ConsumersLocal(z: State, n: string) {
    forall g :: g in z.kafka && z.kafka[g] == n ==> ConsumerOk(z, g)
  }

  ghost predicate LeftLocal(z: State, n: string) {
    forall k :: k in z.left && TableOf(k) == n ==> LeftOk(z, k)
  }

  ghost predicate Local(s: State, z: State, t: Thread, n: string) {
    && (t in z.pcs ==> ThreadOk(z, t))
    && (z.loadLock == Some(t) ==> t in z.pcs)
    && (n in z.serial ==> LockOk(z, n))
    && (n in z.heads ==> HeadOk(z, n))
    && KeysLocal(s, z, n) && PinsLocal(z, n) && ConsumersLocal(z, n) && LeftLocal(z, n)
  }

  /** A thread that is not the owner does not work on table `n`, or is not far enough to mind. */
  lemma OtherThread(s: State, z: State, t: Thread, n: string, u: Thread)
    requires Inv(s) && Beyond(s, z, t, n) && May(s, z, t, n) && u != t && u in z.pcs
    ensures ThreadOk(z, u)
  {
    assert ThreadOk(s, u);
    var pc := s.pcs[u];
    if Owner(s, t, n) {
      if HoldsSerial(pc) {
        assert HeadOk(s, pc.name);
        OtherReload(s, z, t, n, u);
      } else if pc.at.LoadOpen? || LoadOpened(pc) {
        StagingIsReserved(pc.name);
      }
    }
  }

  lemma OtherReload(s: State, z: State, t: Thread, n: string, u: Thread)
    requires Beyond(s, z, t, n) && u != t && u in z.pcs && ThreadOk(s, u) && HoldsSerial(s.pcs[u])
    requires s.pcs[u].name != n && IsLoadable(s.pcs[u].name)
    ensures ThreadOk(z, u)
  {
    hide TableOf, IsReserved, LiveKey;
    var pc := s.pcs[u];
    StagingIsReserved(pc.name);
    if !pc.at.ReloadRead? { KeysOf(pc.name, pc.live); }
  }

  lemma OtherTable(s: State, z: State, t: Thread, n: string, m: string)
    requires Inv(s) && Beyond(s, z, t, n) && May(s, z, t, n) && m != n
    ensures m in z.serial ==> LockOk(z, m)
    ensures m in z.heads ==> HeadOk(z, m)
  {
    hide TableOf, IsReserved, LiveKey;
    if m in s.serial { assert LockOk(s, m); }
    if m in s.heads {
      assert HeadOk(s, m);
      KeysOf(m, s.heads[m].stagingIsLive);
    }
  }

  lemma OtherKeys(s: State, z: State, t: Thread, n: string, k: string)
    requires Inv(s) && Beyond(s, z, t, n) && May(s, z, t, n) && k in z.db && TableOf(k) != n
    ensures KeyOk(z, k)
  {
    assert KeyOk(s, k);
    if TableOf(k) !in s.heads && k !in s.left {
      var u := s.loadLock.value;
      assert ThreadOk(s, u);
      StagingIsReserved(k);
    }
  }

  lemma OtherLeft(s: State, z: State, t: Thread, n: string, k: string)
    requires Inv(s) && Beyond(s, z, t, n) && May(s, z, t, n) && k in z.left && TableOf(k) != n
    ensures LeftOk(z, k)
  {
    hide TableOf, IsReserved, LiveKey;
    var m := TableOf(k);
    LeftFact(s, k);
    if m in s.serial { assert LockOk(s, m); }
  }

  lemma OtherPin(s: State, z: State, t: Thread, n: string, h: nat)
    requires Inv(s) && Beyond(s, z, t, n) && May(s, z, t, n) && h in z.handles && z.handles[h].name != n
    ensures PinOk(z, h)
  {
    assert PinOk(s, h);
    if z.handles[h].name in s.serial { assert LockOk(s, z.handles[h].name); }
  }

  lemma OtherConsumer(s: State, z: State, t: Thread, n: string, g: nat)
    requires Inv(s) && Beyond(s, z, t, n) && May(s, z, t, n) && g in z.kafka && z.kafka[g] != n
    ensures ConsumerOk(z, g)
  {
    hide Inv, TableOf, Owner, Quiet;
    ConsumerFact(s, g);
    LockFact(s, z.kafka[g]);
    if s.loadLock.Some? { ThreadFact(s, s.loadLock.value); }
    NameOfMover(s, z, t, n);
  }

  lemma NameOfMover(s: State, z: State, t: Thread, n: string)
    requires May(s, z, t, n)
    ensures t in s.pcs ==> s.pcs[t].name == n
  {
  }

  lemma NoTwin(s: State, z: State, t: Thread, n: string, j: string, k: string)
    requires Inv(s) && Beyond(s, z, t, n) && Local(s, z, t, n)
    requires j in z.db && k in z.db && z.db[j] == z.db[k]
    ensures j == k
  {
    hide TableOf, HeadOk, ThreadOk, LockOk, PinOk, ConsumerOk, Loader, PinsLocal, ConsumersLocal;
    if j in s.db { assert KeyOk(s, j); }
    if k in s.db { assert KeyOk(s, k); }
    if TableOf(j) == n && TableOf(k) == n {
    } else if TableOf(j) == n {
      assert k in s.db && s.db[k] == z.db[k];
    } else if TableOf(k) == n {
      assert j in s.db && s.db[j] == z.db[j];
    }
  }

  lemma StepLocal(s: State, z: State, t: Thread, n: string)
    requires Inv(s) && Beyond(s, z, t, n) && May(s, z, t, n) && Local(s, z, t, n)
    ensures Inv(z)
  {
    hide TableOf, HeadOk, ThreadOk, LockOk, PinOk, ConsumerOk, KeyOk, LeftOk, May, Beyond, IsReserved;
    forall u | u in z.pcs ensures ThreadOk(z, u) {
      if u != t { OtherThread(s, z, t, n, u); }
    }
    forall m | m in z.serial ensures LockOk(z, m) {
      if m != n { OtherTable(s, z, t, n, m); }
    }
    forall m | m in z.heads ensures HeadOk(z, m) {
      if m != n { OtherTable(s, z, t, n, m); }
    }
    forall k | k in z.db ensures KeyOk(z, k) {
      if TableOf(k) != n { OtherKeys(s, z, t, n, k); }
    }
    forall j, k | j in z.db && k in z.db && z.db[j] == z.db[k] ensures j == k {
      NoTwin(s, z, t, n, j, k);
    }
    forall h | h in z.handles ensures PinOk(z, h) {
      if z.handles[h].name != n { OtherPin(s, z, t, n, h); }
    }
    forall g | g in z.kafka ensures ConsumerOk(z, g) {
      if z.kafka[g] != n { OtherConsumer(s, z, t, n, g); }
    }
    forall k | k in z.left ensures LeftOk(z, k) {
      if TableOf(k) != n { OtherLeft(s, z, t, n, k); }
    }
    LoaderThere(s, z, t, n);
  }

  lemma LoaderThere(s: State, z: State, t: Thread, n: string)
    requires Inv(s) && Beyond(s, z, t, n) && Local(s, z, t, n)
    ensures z.loadLock.Some? ==> z.loadLock.value in z.pcs
  {
  }

  // ---- When a step leaves part of its table alone ----

  /** Thread `t` neither retires a slot in `s` nor leaves the pins of `n` anything to worry about. */
  lemma PinsStay(s: State, z: State, t: Thread, n: string)
    requires Inv(s) && Beyond(s, z, t, n) && (t in s.pcs ==> !s.pcs[t].at.ReloadStop? && !s.pcs[t].at.ReloadDrain?)
    requires n in s.heads ==> z.heads[n] == s.heads[n]
    ensures PinsLocal(z, n)
  {
    forall h | h in z.handles && z.handles[h].name == n
      ensures PinOk(z, h)
    {
      assert PinOk(s, h);
    }
  }

  lemma ReloaderStays(s: State, z: State, t: Thread, n: string, m: string)
    requires Beyond(s, z, t, n) && m in s.serial && s.serial[m] in s.pcs && s.serial[m] != t
    ensures Reloader(z, m) == Reloader(s, m)
  {
  }

  lemma LoaderStays(s: State, z: State, t: Thread, n: string)
    requires Beyond(s, z, t, n) && s.loadLock.Some? && s.loadLock.value in s.pcs && s.loadLock.value != t
    ensures Loader(z) == Loader(s)
  {
  }

  lemma ConsumerStays(s: State, z: State, t: Thread, n: string, g: nat)
    requires Beyond(s, z, t, n) && z.kafka == s.kafka && g in s.kafka && s.kafka[g] == n && ConsumerOk(s, g)
    requires t in s.pcs ==> !s.pcs[t].at.ReloadSwap? && !s.pcs[t].at.ReloadStop? && !s.pcs[t].at.LoadRegister?
    requires n in s.heads ==> n in z.heads && z.heads[n] == s.heads[n]
    ensures ConsumerOk(z, g)
  {
    if n in s.heads && s.heads[n].slot == Some(g) {
    } else if Reloader(s, n).Some? && KeepsConsumer(Reloader(s, n).value, g) {
      ReloaderStays(s, z, t, n, n);
    } else {
      LoaderStays(s, z, t, n);
    }
  }

  lemma ConsumersStay(s: State, z: State, t: Thread, n: string)
    requires Inv(s) && Beyond(s, z, t, n) && z.kafka == s.kafka
    requires t in s.pcs ==> !s.pcs[t].at.ReloadSwap? && !s.pcs[t].at.ReloadStop? && !s.pcs[t].at.LoadRegister?
    requires n in s.heads ==> z.heads[n] == s.heads[n]
    ensures ConsumersLocal(z, n)
  {
    forall g | g in z.kafka && z.kafka[g] == n
      ensures ConsumerOk(z, g)
    {
      assert n in s.heads ==> n in z.heads;
      assert ConsumerOk(s, g);
      hide ConsumerOk, Beyond, Inv;
      ConsumerStays(s, z, t, n, g);
    }
  }

  predicate Opened(s: State, t: Thread) {
    t in s.pcs && LoadOpened(s.pcs[t])
  }

  lemma KeysStay(s: State, z: State, t: Thread, n: string)
    requires Inv(s) && Beyond(s, z, t, n) && z.db == s.db && s.left <= z.left
    requires Opened(s, t) ==> Opened(z, t) && z.pcs[t].name == s.pcs[t].name && z.loadLock == s.loadLock
    ensures KeysLocal(s, z, n)
  {
    forall k | k in z.db && TableOf(k) == n
      ensures KeyOk(z, k)
    {
      assert KeyOk(s, k);
    }
  }

  predicate Both(s: State, t: Thread) {
    t in s.pcs && BothOpen(s.pcs[t])
  }

  lemma HeadStays(s: State, z: State, t: Thread, n: string)
    requires Inv(s) && Beyond(s, z, t, n) && May(s, z, t, n) && z.db == s.db && n in s.heads && z.heads[n] == s.heads[n]
    requires s.left <= z.left
    requires Both(s, t) <==> Both(z, t)
    requires n in z.serial ==> LockOk(z, n)
    requires (t in s.pcs ==> s.pcs[t].name == n) && (t in z.pcs && HoldsSerial(z.pcs[t]) ==> z.pcs[t].name == n && n in z.serial && z.serial[n] == t)
    ensures HeadOk(z, n)
  {
    hide TableOf, IsReserved, LiveKey;
    assert HeadOk(s, n);
    if n in s.serial {
      assert LockOk(s, n);
      if s.serial[n] != t { ReloaderStays(s, z, t, n, n); }
    }
    if t in s.pcs { assert ThreadOk(s, t); }
  }

  /** Thread `t` reloads a table and has cleared its next key. */
  predicate Clear(s: State, t: Thread) {
    t in s.pcs && Cleared(s.pcs[t])
  }

  /** What was left open stays left open, unless `t` goes on to clear it. */
  lemma LeftStays(s: State, z: State, t: Thread, n: string)
    requires Inv(s) && Beyond(s, z, t, n) && z.left == s.left && z.db == s.db
    requires (n in z.heads <==> n in s.heads) && (n in s.heads ==> z.heads[n] == s.heads[n])
    requires n in z.serial && z.serial[n] == t && Clear(z, t) ==> Clear(s, t) && n in s.serial && s.serial[n] == t
    requires n in z.serial && z.serial[n] != t ==> n in s.serial && s.serial[n] == z.serial[n]
    ensures LeftLocal(z, n)
  {
    hide TableOf, IsReserved, LiveKey;
    forall k | k in z.left && TableOf(k) == n
      ensures LeftOk(z, k)
    {
      LeftFact(s, k);
    }
  }

  /** Positions change only at `t`, and of the locks `t` may take or give back its own. */
  predicate Moves(s: State, z: State, t: Thread, n: string) {
    && (z.pcs == s.pcs - {t} || (t in z.pcs && z.pcs == s.pcs[t := z.pcs[t]]))
    && (z.loadLock == s.loadLock || (s.loadLock == None && z.loadLock == Some(t)) || (s.loadLock == Some(t) && z.loadLock == None))
    && (z.serial == s.serial || (n !in s.serial && z.serial == s.serial[n := t])
        || (n in s.serial && s.serial[n] == t && z.serial == s.serial - {n}))
    && z.handles == s.handles && z.nextGen == s.nextGen
  }

  lemma MovesBeyond(s: State, z: State, t: Thread, n: string)
    requires Moves(s, z, t, n) && Quiet(s, z)
    ensures Beyond(s, z, t, n)
  {
  }

  lemma SerialHeld(s: State, t: Thread)
    requires t in s.pcs && ThreadOk(s, t)
    ensures HoldsSerial(s.pcs[t]) ==> s.pcs[t].name in s.serial && s.serial[s.pcs[t].name] == t
  {
  }

  /** A step that moves on, takes a lock or gives one back, with nothing open that was not open before. */
  lemma QuietKeeps(s: State, z: State, t: Thread, n: string)
    requires Inv(s) && Moves(s, z, t, n) && Quiet(s, z) && (t in s.pcs ==> s.pcs[t].name == n)
    requires t in s.pcs ==> !s.pcs[t].at.ReloadStop? && !s.pcs[t].at.ReloadDrain? && !s.pcs[t].at.ReloadSwap? && !s.pcs[t].at.LoadRegister?
    requires Opened(s, t) ==> Opened(z, t) && z.pcs[t].name == n && z.loadLock == s.loadLock
    requires (Both(s, t) <==> Both(z, t)) && (Clear(z, t) ==> Clear(s, t))
    requires t in z.pcs ==> ThreadOk(z, t)
    requires t in z.pcs && HoldsSerial(z.pcs[t]) ==> z.pcs[t].name == n
    requires (z.loadLock == Some(t) ==> t in z.pcs) && (n in z.serial ==> LockOk(z, n))
    ensures Inv(z)
  {
    hide Inv, Beyond, Moves, KeysLocal, PinsLocal, ConsumersLocal, HeadOk, LockOk, ThreadOk;
    MovesBeyond(s, z, t, n);
    if t in z.pcs { SerialHeld(z, t); }
    PinsStay(s, z, t, n);
    ConsumersStay(s, z, t, n);
    KeysStay(s, z, t, n);
    if n in s.heads { HeadStays(s, z, t, n); }
    QuietLeft(s, z, t, n);
    StepLocal(s, z, t, n);
  }

  lemma QuietLeft(s: State, z: State, t: Thread, n: string)
    requires Inv(s) && Beyond(s, z, t, n) && Moves(s, z, t, n) && Quiet(s, z) && (t in s.pcs ==> s.pcs[t].name == n)
    requires Clear(z, t) ==> Clear(s, t)
    ensures LeftLocal(z, n)
  {
    hide Inv, LeftLocal, Beyond;
    if t in s.pcs {
      ThreadFact(s, t);
    }
    LockFact(s, n);
    LeftStays(s, z, t, n);
  }

  // ---- Steps that change a table ----

  predicate MovesLocks(s: State, z: State, t: Thread, n: string) {
    && (z.pcs == s.pcs - {t} || (t in z.pcs && z.pcs == s.pcs[t := z.pcs[t]]))
    && (z.loadLock == s.loadLock || (s.loadLock == Some(t) && z.loadLock == None))
    && (z.serial == s.serial || (n in s.serial && s.serial[n] == t && z.serial == s.serial - {n}))
  }

  /** At most one key, the head and one consumer, all of table `n`, change. */
  predicate Changes(s: State, z: State, n: string, key: string, slot: nat) {
    && TableOf(key) == n && z.handles == s.handles && z.nextGen >= s.nextGen
    && (z.db == s.db || z.db == s.db - {key} || (key in z.db && z.db == s.db[key := z.db[key]]))
    && (z.heads == s.heads || (n in z.heads && z.heads == s.heads[n := z.heads[n]]))
    && (z.kafka == s.kafka || z.kafka == s.kafka - {slot} || z.kafka == s.kafka[slot := n])
    && (z.left == s.left || z.left == s.left - {key} || z.left == s.left + {key})
  }

  lemma ChangesBeyond(s: State, z: State, t: Thread, n: string, key: string, slot: nat)
    requires MovesLocks(s, z, t, n) && Changes(s, z, n, key, slot)
    ensures Beyond(s, z, t, n)
  {
    hide TableOf;
  }

  lemma ChangedKey(s: State, z: State, n: string, key: string, slot: nat)
    requires Changes(s, z, n, key, slot) && key in z.db && (key in s.db ==> z.db[key] == s.db[key] || z.db[key] == s.nextGen)
    requires key !in s.db ==> z.db[key] == s.nextGen
    requires KeyOk(z, key)
    requires forall k :: k in s.db && TableOf(k) == n ==> s.db[k] < s.nextGen && (k in z.db && k != key ==> KeyOk(z, k))
    requires forall j, k :: j in s.db && k in s.db && s.db[j] == s.db[k] ==> j == k
    requires key in s.db ==> z.db == s.db
    ensures KeysLocal(s, z, n)
  {
    hide KeyOk, TableOf;
  }
}
