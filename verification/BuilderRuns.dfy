/** Any well-nested sequence of builder calls, from an empty builder to a finished buffer. */
module BuilderRuns {
  import opened Wrappers
  import opened Bytes
  import opened Wire
  import opened Layout
  import Spec = BuilderSpec
  import opened BuilderInv
  import opened BuilderTables

  type State = Spec.State

  const MAX_SIZE := Spec.MAX_SIZE

  // ---- The remaining calls ----

  /** All objects known so far stay known, as they are. */
  predicate Extends(s: State, t: State) {
    forall o :: o in s.objs ==> o in t.objs && t.objs[o] == s.objs[o]
  }

  /** What creating a string changes. */
  lemma CreatedString(s: State, chars: seq<byte>)
    ensures var t := Spec.CreateString(s, chars);
            && t == s.(data := t.data, minalign := t.minalign, objs := s.objs[t.Size() := Str(chars)])
            && s.Size() < t.Size() && s.minalign <= t.minalign
  {
  }

  ghost predicate Made(t: State, from: nat, strings: seq<seq<byte>>) {
    |t.temps| == from + |strings| && forall i :: 0 <= i < |strings| ==> MadeAt(t, from, strings, i)
  }

  predicate MadeAt(t: State, from: nat, strings: seq<seq<byte>>, i: nat)
    requires |t.temps| == from + |strings| && i < |strings|
  {
    t.temps[from + i] in t.objs && t.objs[t.temps[from + i]] == Str(strings[i])
  }

  lemma {:induction false} CreateStringsKeeps(s: State, strings: seq<seq<byte>>)
    requires Inv(s) && CanCreate(s, Spec.CreateStrings(s, strings))
    ensures var t := Spec.CreateStrings(s, strings);
            && Inv(t) && Extends(s, t) && t.NotNested() && t.finished == s.finished
            && Made(t, |s.temps|, strings)
  {
    hide Inv, Spec.CreateString;
    if strings != [] {
      var n := |strings| - 1;
      var before := Spec.CreateStrings(s, strings[..n]);
      var t := Spec.CreateString(before, strings[n]);
      CreatedString(before, strings[n]);
      CreateStringsKeeps(s, strings[..n]);
      CreateStringKeeps(before, strings[n]);
      MadeOneMore(before, t, |s.temps|, strings, n);
      TempsFree(t, before.temps + [t.Size()]);
    }
  }

  lemma MadeOneMore(before: State, t: State, from: nat, strings: seq<seq<byte>>, n: nat)
    requires n + 1 == |strings| && Made(before, from, strings[..n])
    requires t.objs == before.objs[t.Size() := Str(strings[n])] && t.Size() !in before.objs
    ensures Made(t.(temps := before.temps + [t.Size()]), from, strings)
  {
    var final := t.(temps := before.temps + [t.Size()]);
    assert |final.temps| == from + |strings|;
    forall i | 0 <= i < |strings|
      ensures MadeAt(final, from, strings, i)
    {
      if i < n {
        var o := before.temps[from + i];
        assert MadeAt(before, from, strings[..n], i) && strings[..n][i] == strings[i];
        assert o in before.objs && before.objs[o] == Str(strings[i]);
        assert o != t.Size();
      } else {
        assert final.temps[from + i] == t.Size();
      }
    }
  }

  lemma TempsFree(s: State, temps: seq<nat>)
    requires Inv(s)
    ensures Inv(s.(temps := temps))
  {
    hide Holds, ValueAt;
    var t := s.(temps := temps);
    if s.nested {
      forall i | 0 <= i < |t.locs|
        ensures LocOk(t, t.locs[i])
      {
        assert LocOk(s, s.locs[i]);
      }
    }
  }

  lemma CreatedOffsets(s: State, targets: seq<nat>)
    requires forall t :: t in targets ==> t <= s.Size()
    ensures var t := Spec.CreateVectorOfOffsets(s, targets);
            && t == s.(data := t.data, minalign := t.minalign, objs := s.objs[t.Size() := OffVec(targets)])
            && s.Size() < t.Size()
  {
  }

  predicate AreStrings(objs: Objects, offs: seq<nat>, strings: seq<seq<byte>>) {
    && |offs| == |strings|
    && forall i :: 0 <= i < |offs| ==> offs[i] in objs && objs[offs[i]] == Str(strings[i])
  }

  lemma MadeOffsets(s: State, m: State, strings: seq<seq<byte>>)
    requires Inv(m) && Made(m, |s.temps|, strings)
    ensures var offs := m.temps[|s.temps|..];
            && AreStrings(m.objs, offs, strings)
            && forall o :: o in offs ==> o in m.objs && o <= m.Size()
  {
    var offs := m.temps[|s.temps|..];
    forall i | 0 <= i < |offs|
      ensures offs[i] in m.objs && m.objs[offs[i]] == Str(strings[i]) && offs[i] <= m.Size()
    {
      assert MadeAt(m, |s.temps|, strings, i) && offs[i] == m.temps[|s.temps| + i];
      ObjBound(m, offs[i]);
    }
  }

  lemma CreateVectorOfStringsKeeps(s: State, strings: seq<seq<byte>>)
    requires Inv(s) && CanCreate(s, Spec.CreateVectorOfStrings(s, strings))
    ensures var t := Spec.CreateVectorOfStrings(s, strings);
            && Inv(t) && Extends(s, t) && t.Size() in t.objs
            && exists offs :: t.objs[t.Size()] == OffVec(offs) && AreStrings(t.objs, offs, strings)
  {
    hide Inv, Spec.CreateStrings, Spec.CreateVectorOfOffsets, Made;
    var m := Spec.CreateStrings(s, strings);
    var offs := m.temps[|s.temps|..];
    CreatedOffsets(m, offs);
    CreateStringsKeeps(s, strings);
    MadeOffsets(s, m, strings);
    CreateVectorOfOffsetsKeeps(m, offs);
    TempsFree(Spec.CreateVectorOfOffsets(m, offs), s.temps);
  }

  /** Sharing gives out an offset that reads as the string, whether it was written or found. */
  lemma CreateSharedStringKeeps(s: State, chars: seq<byte>)
    requires Inv(s) && CanCreate(s, Spec.CreateString(s, chars))
    ensures var (t, off) := Spec.CreateSharedString(s, chars);
            && Inv(t) && Extends(s, t) && off in t.objs && t.objs[off] == Str(chars)
            && (chars in s.pool ==> t.data == s.data)
  {
    hide Inv, Spec.CreateString;
    CreateStringKeeps(s, chars);
    CreatedString(s, chars);
    var made := Spec.CreateString(s, chars);
    MinalignOk(made);
    PoolHit(s, made.minalign);
    PoolMiss(made, chars);
    InvPool(s);
  }

  lemma InvPool(s: State)
    requires Inv(s)
    ensures forall c :: c in s.pool ==> s.pool[c] in s.objs && s.objs[s.pool[c]] == Str(c)
  {
  }

  lemma PoolHit(s: State, larger: nat)
    requires Inv(s) && IsWidth(larger) && s.minalign <= larger
    ensures Inv(s.(minalign := larger))
  {
    hide Inv;
    SizeBound(s);
    PushKeeps(s, [], larger);
    assert Spec.Push(s.(minalign := larger), []) == s.(minalign := larger);
  }

  lemma SizeBound(s: State)
    requires Inv(s)
    ensures s.Size() <= MAX_SIZE
  {
  }

  lemma PoolMiss(s: State, chars: seq<byte>)
    requires Inv(s) && !s.nested && s.Size() in s.objs && s.objs[s.Size()] == Str(chars)
    ensures Inv(s.(pool := s.pool[chars := s.Size()]))
  {
    hide Holds;
  }

  /** The finished buffer leads to the root, and its size is a multiple of every alignment used in it. */
  lemma FinishKeeps(s: State, root: nat)
    requires Inv(s) && s.NotNested() && !s.finished && root in s.objs && root <= s.Size()
    requires IsWidth(s.minalign) && Spec.Finish(s, root).Size() <= MAX_SIZE
    ensures var t := Spec.Finish(s, root);
            && Inv(t) && t.finished && t.objs == s.objs
            && GetRoot(t.data) == Some(t.Size() - root)
            && t.Size() % t.minalign == 0 && 4 <= t.minalign
  {
    hide Holds, VTableAt;
    var c := s.(vtables := [], temps := []);
    assert Inv(c);
    hide Inv, Spec.PreAlign, Spec.PushOffset;
    var a := Spec.PreAlign(c, 4, s.minalign);
    PreAlignKeeps(c, 4, s.minalign);
    PushOffsetKeeps(a, root);
    FinishAligned(s, root);
    FinishedFree(Spec.PushOffset(a, root));
  }

  lemma FinishedFree(s: State)
    requires Inv(s) && !s.nested
    ensures Inv(s.(finished := true))
  {
    hide Holds;
  }

  /** Padding for the root offset brings the whole buffer to the largest alignment used. */
  lemma FinishAligned(s: State, root: nat)
    requires IsWidth(s.minalign) && root <= s.Size()
    ensures var t := Spec.Finish(s, root); t.Size() % t.minalign == 0 && 4 <= t.minalign
  {
    FinishPadding(s.Size(), s.minalign);
  }

  lemma FinishPadding(n: nat, m: nat)
    requires IsWidth(m)
    ensures var a := n + PaddingBytes(n + 4, m); (a + PaddingBytes(a, 4) + 4) % Spec.Max(m, 4) == 0
  {
    var a := n + PaddingBytes(n + 4, m);
    if 4 <= m {
      AlignedDown(a + 4, m, 4);
      PaddingIsLeast(a, 4, 0);
    }
  }

  // ---- Runs ----

  datatype Call =
    | StartTable
    | AddElement(field: nat, w: nat, e: nat, default: nat)
    | AddOffset(field: nat, off: nat)
    | EndTable
    | CreateString(chars: seq<byte>)
    | CreateSharedString(chars: seq<byte>)
    | CreateVector(w: nat, elems: seq<nat>)
    | CreateVectorOfOffsets(targets: seq<nat>)
    | CreateVectorOfStrings(strings: seq<seq<byte>>)
    | Finish(root: nat)

  /** The asserts of the call hold, the values fit their types, and the buffer does not outgrow its limit. */
  ghost predicate Allowed(s: State, call: Call) {
    match call
    case StartTable => s.NotNested() && !s.finished && s.temps == []
    case AddElement(field, w, e, default) =>
      && CanAdd(s, field) && IsWidth(w) && e < Pow256(w)
      && Spec.AddElement(s, field, w, e, default).Size() <= MAX_SIZE
    case AddOffset(field, off) =>
      && CanAdd(s, field) && off <= s.Size() && (off == 0 || off in s.objs)
      && Spec.AddOffset(s, field, off).Size() <= MAX_SIZE
    case EndTable => CanEnd(s, s.start)
    case CreateString(chars) => CanCreate(s, Spec.CreateString(s, chars))
    case CreateSharedString(chars) => CanCreate(s, Spec.CreateString(s, chars))
    case CreateVector(w, elems) =>
      && IsWidth(w) && (forall e :: e in elems ==> e < Pow256(w))
      && CanCreate(s, Spec.CreateVector(s, w, elems))
    case CreateVectorOfOffsets(targets) =>
      && (forall t :: t in targets ==> t in s.objs && t <= s.Size())
      && CanCreate(s, Spec.CreateVectorOfOffsets(s, targets))
    case CreateVectorOfStrings(strings) => CanCreate(s, Spec.CreateVectorOfStrings(s, strings))
    case Finish(root) =>
      && s.NotNested() && !s.finished && root in s.objs && root <= s.Size()
      && IsWidth(s.minalign) && Spec.Finish(s, root).Size() <= MAX_SIZE
  }

  ghost function Step(s: State, call: Call): State
    requires Allowed(s, call)
  {
    match call
    case StartTable => Spec.StartTable(s)
    case AddElement(field, w, e, default) => Spec.AddElement(s, field, w, e, default)
    case AddOffset(field, off) => Spec.AddOffset(s, field, off)
    case EndTable => Spec.EndTable(s, s.start)
    case CreateString(chars) => Spec.CreateString(s, chars)
    case CreateSharedString(chars) => Spec.CreateSharedString(s, chars).0
    case CreateVector(w, elems) => Spec.CreateVector(s, w, elems)
    case CreateVectorOfOffsets(targets) => Spec.CreateVectorOfOffsets(s, targets)
    case CreateVectorOfStrings(strings) => Spec.CreateVectorOfStrings(s, strings)
    case Finish(root) => Spec.Finish(s, root)
  }

  /** Every call keeps every object written before it readable as it was written. */
  lemma StepKeeps(s: State, call: Call)
    requires Inv(s) && Allowed(s, call)
    ensures Inv(Step(s, call)) && Extends(s, Step(s, call))
  {
    hide Inv, Step, Extends;
    if call.StartTable? || call.AddElement? || call.AddOffset? || call.EndTable? {
      TableCallKeeps(s, call);
    } else {
      CreateCallKeeps(s, call);
    }
  }

  lemma TableCallKeeps(s: State, call: Call)
    requires Inv(s) && Allowed(s, call)
    requires call.StartTable? || call.AddElement? || call.AddOffset? || call.EndTable?
    ensures Inv(Step(s, call)) && Extends(s, Step(s, call))
  {
    hide Inv, Spec.EndTable;
    match call
    case StartTable => StartTableKeeps(s);
    case AddElement(field, w, e, default) => AddElementKeeps(s, field, w, e, default);
    case AddOffset(field, off) => AddOffsetKeeps(s, field, off);
    case EndTable => EndTableKeeps(s, s.start);
  }

  lemma CreateCallKeeps(s: State, call: Call)
    requires Inv(s) && Allowed(s, call)
    requires !(call.StartTable? || call.AddElement? || call.AddOffset? || call.EndTable?)
    ensures Inv(Step(s, call)) && Extends(s, Step(s, call))
  {
    hide Inv, Spec.CreateString, Spec.CreateSharedString, Spec.CreateVector, Spec.CreateVectorOfOffsets, Spec.Finish;
    match call
    case CreateString(chars) =>
      CreateStringKeeps(s, chars);
      CreatedString(s, chars);
    case CreateSharedString(chars) => CreateSharedStringKeeps(s, chars);
    case CreateVector(w, elems) =>
      CreateVectorKeeps(s, w, elems);
      CreatedVector(s, w, elems);
    case CreateVectorOfOffsets(targets) =>
      CreateVectorOfOffsetsKeeps(s, targets);
      CreatedOffsets(s, targets);
    case CreateVectorOfStrings(strings) => CreateVectorOfStringsKeeps(s, strings);
    case Finish(root) => FinishKeeps(s, root);
  }

  lemma CreatedVector(s: State, w: nat, elems: seq<nat>)
    requires IsWidth(w)
    ensures var t := Spec.CreateVector(s, w, elems); t.objs == s.objs[t.Size() := Vec(w, elems)]
  {
  }

  /** The state after `calls`, or `None` if one of them is not allowed where it stands. */
  ghost function Run(s: State, calls: seq<Call>): Option<State>
    decreases |calls|
  {
    if calls == [] then Some(s)
    else if Allowed(s, calls[0]) then Run(Step(s, calls[0]), calls[1..])
    else None
  }

  lemma {:induction false} RunKeeps(s: State, calls: seq<Call>)
    requires Inv(s) && Run(s, calls).Some?
    ensures Inv(Run(s, calls).value) && Extends(s, Run(s, calls).value)
    decreases |calls|
  {
    hide Inv, Allowed;
    if calls != [] {
      StepKeeps(s, calls[0]);
      RunKeeps(Step(s, calls[0]), calls[1..]);
    }
  }

  /** Whatever an object reads as at some point of a run, it reads as at the end. */
  lemma ObjectsSurvive(forceDefaults: bool, dedup: bool, before: seq<Call>, after: seq<Call>, o: nat)
    requires var s := Run(Spec.Init(forceDefaults, dedup), before);
             && s.Some? && Run(s.value, after).Some? && o in s.value.objs
    ensures var s, t := Run(Spec.Init(forceDefaults, dedup), before).value,
                        Run(Run(Spec.Init(forceDefaults, dedup), before).value, after).value;
            && ObjAt(s.data, s.Size() - o, s.objs[o], s.minalign)
            && ObjAt(t.data, t.Size() - o, s.objs[o], t.minalign)
  {
    hide ObjAt, Run, Allowed;
    var init := Spec.Init(forceDefaults, dedup);
    var s := Run(init, before).value;
    RunKeeps(init, before);
    RunKeeps(s, after);
    Recorded(s, o);
    Recorded(Run(s, after).value, o);
  }

  lemma Recorded(s: State, o: nat)
    requires Inv(s) && o in s.objs
    ensures ObjAt(s.data, s.Size() - o, s.objs[o], s.minalign)
  {
  }
}
