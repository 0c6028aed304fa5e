/** Whole sequences of calls on a builder object: what `BuilderRuns` says of runs holds of its memory. */
module BuilderCalls {
  import opened Wrappers
  import opened Bytes
  import opened BuilderInv
  import opened BuilderTables
  import opened BuilderMemory
  import opened BuilderRuns
  import opened VectorDownward
  import opened Builder
  import Spec = BuilderSpec
  import S = Schema
  import V = Verifier
  import opened Typed
  import opened Accepted
  import opened Finished

  /** Writes of fields, vtables and string vectors go through the scratch pad, which asserts on a size
      strictly below the limit, and is itself addressed with 32 bits. */
  ghost predicate Roomy(s: State, call: Call)
    requires Allowed(s, call)
  {
    match call
    case AddElement(field, w, e, default) =>
      Spec.AddElement(s, field, w, e, default).Size() < Spec.MAX_SIZE && ScratchSize(s) + 8 < SIZE_T32
    case AddOffset(field, off) => Spec.AddOffset(s, field, off).Size() < Spec.MAX_SIZE && ScratchSize(s) + 8 < SIZE_T32
    case EndTable => Spec.WithVTable(s, s.start).Size() < Spec.MAX_SIZE && ScratchSize(s) + 4 < SIZE_T32
    case CreateVectorOfStrings(strings) =>
      Spec.CreateVectorOfStrings(s, strings).Size() < Spec.MAX_SIZE && ScratchSize(s) + 4 * |strings| < SIZE_T32
    case _ => true
  }

  ghost predicate AllRoomy(s: State, calls: seq<Call>)
    decreases |calls|
  {
    calls != [] ==> Allowed(s, calls[0]) && Roomy(s, calls[0]) && AllRoomy(Step(s, calls[0]), calls[1..])
  }

  lemma TargetsPositive(s: State, targets: seq<nat>)
    requires Inv(s) && forall t :: t in targets ==> t in s.objs && t <= s.Size()
    ensures forall t :: t in targets ==> 0 < t <= s.Size()
  {
    hide Inv;
    forall t | t in targets ensures 0 < t { ObjBound(s, t); }
  }

  /** Only StartTable moves the start of the table. */
  lemma TableStart(s: State, call: Call)
    requires Allowed(s, call) && (call.AddElement? || call.AddOffset? || call.EndTable?)
    ensures Step(s, call).start == s.start
  {
    hide Spec.PushElement, Spec.Align, Spec.VTable, Spec.FindVTable, Spec.WithVTable, Encode, CanAdd, CanEnd, Spec.CanEndTable;
  }

  lemma {:induction false} StringsStart(s: State, strings: seq<seq<byte>>)
    ensures Spec.CreateStrings(s, strings).start == s.start
  {
    hide Spec.CreateString;
    if strings != [] {
      StringsStart(s, strings[..|strings| - 1]);
      CreatedString(Spec.CreateStrings(s, strings[..|strings| - 1]), strings[|strings| - 1]);
    }
  }

  lemma CreateStart(s: State, call: Call)
    requires Allowed(s, call) && !(call.StartTable? || call.AddElement? || call.AddOffset? || call.EndTable?)
    ensures Step(s, call).start == s.start
  {
    hide Spec.CreateString, Spec.CreateStrings, Spec.PushElement, Spec.PreAlign, Spec.PushOffsets, Spec.PushOffset,
         Spec.StartVector, Spec.EncodeAll, Encode;
    match call
    case CreateString(chars) => CreatedString(s, chars);
    case CreateSharedString(chars) => CreatedString(s, chars);
    case CreateVectorOfStrings(strings) => StringsStart(s, strings);
    case _ =>
  }

  /** Calls that work on the open table; `start` is where it was opened. */
  method PerformTable(b: FlatBufferBuilder, call: Call, start: nat) returns (started: nat)
    requires b.Valid() && Inv(b.st) && start == b.st.start && Allowed(b.st, call) && Roomy(b.st, call)
    requires call.StartTable? || call.AddElement? || call.AddOffset? || call.EndTable?
    modifies b, b.vec, b.vec.buf
    ensures b.Valid() && (b.vec.buf == old(b.vec.buf) || fresh(b.vec.buf))
    ensures b.st == Step(old(b.st), call) && started == b.st.start
  {
    hide Inv, b.Valid, Spec.EndTable, ScratchSize;
    started := start;
    if !call.StartTable? { TableStart(b.st, call); }
    match call
    case StartTable => started := b.StartTable();
    case AddElement(field, w, e, default) => b.AddElement(field, w, e, default);
    case AddOffset(field, off) => b.AddOffset(field, off);
    case EndTable =>
      var _ := b.EndTable(start);
  }

  /** Calls that write a whole object. */
  method PerformCreate(b: FlatBufferBuilder, call: Call)
    requires b.Valid() && Inv(b.st) && Allowed(b.st, call) && Roomy(b.st, call)
    requires !(call.StartTable? || call.AddElement? || call.AddOffset? || call.EndTable?)
    modifies b, b.vec, b.vec.buf
    ensures b.Valid() && (b.vec.buf == old(b.vec.buf) || fresh(b.vec.buf))
    ensures b.st == Step(old(b.st), call)
  {
    hide Inv, b.Valid, Spec.CreateString, Spec.CreateVector, Spec.CreateVectorOfOffsets, Spec.CreateVectorOfStrings,
         Spec.CreateSharedString, Spec.Finish, ScratchSize;
    match call
    case CreateString(chars) => var _ := b.CreateString(chars);
    case CreateSharedString(chars) => var _ := b.CreateSharedString(chars);
    case CreateVector(w, elems) => var _ := b.CreateVector(w, elems);
    case CreateVectorOfOffsets(targets) =>
      TargetsPositive(b.st, targets);
      var _ := b.CreateVectorOfOffsets(targets);
    case CreateVectorOfStrings(strings) => var _ := b.CreateVectorOfStrings(strings);
    case Finish(root) =>
      ObjBound(b.st, root);
      b.Finish(root);
  }

  /** The calls one after the other, as a client makes them: the builder ends up in the state the run of the
      same calls does, its memory holding the bytes of that state. */
  method PerformAll(b: FlatBufferBuilder, calls: seq<Call>, start: nat)
    requires b.Valid() && Inv(b.st) && start == b.st.start && AllRoomy(b.st, calls)
    modifies b, b.vec, b.vec.buf
    ensures b.Valid() && (b.vec.buf == old(b.vec.buf) || fresh(b.vec.buf))
    ensures Run(old(b.st), calls) == Some(b.st) && b.vec.Data() == b.st.data
    decreases |calls|
  {
    hide Inv, b.Valid, Allowed, Roomy, Step;
    DataIs(b);
    if calls == [] { return; }
    var call, started := calls[0], start;
    StepKeeps(b.st, call);
    ghost var s := b.st;
    if call.StartTable? || call.AddElement? || call.AddOffset? || call.EndTable? {
      started := PerformTable(b, call, start);
    } else {
      PerformCreate(b, call);
      CreateStart(s, call);
    }
    PerformAll(b, calls[1..], started);
  }

  lemma DataIs(b: FlatBufferBuilder)
    requires b.Valid()
    ensures b.vec.Valid() && b.vec.Data() == b.st.data
  {
  }

  /** A client that builds and finishes a buffer on a new builder: its bytes pass the verifier up to its two
      limits, and read back as the tree that was written. */
  method BuildBuffer(initialSize: nat, calls: seq<Call>, root: nat, ghost fields: seq<S.Field>, ghost opts: V.Options)
    returns (b: FlatBufferBuilder)
    requires AllRoomy(Spec.Init(false, true), calls) && Run(Spec.Init(false, true), calls).Some?
    requires var s := Run(Spec.Init(false, true), calls).value;
             && Allowed(s, Finish(root)) && Spec.Finish(s, root).Size() < Spec.MAX_SIZE
             && TableTyped(s.objs, root, fields) && S.WellFormed(fields)
    ensures fresh(b) && b.Valid() && b.st.finished
    ensures var s := Run(Spec.Init(false, true), calls).value;
            var e := TableExtent(s.objs, root, fields);
            && V.VerifyBuffer(b.vec.Data(), fields, opts)
               == (if e.depth <= opts.maxDepth && e.tables <= opts.maxTables then V.Pass(V.Counters(0, e.tables)) else V.Reject)
            && S.ReadBuffer(b.vec.Data(), fields) == Some(TableTree(s.objs, root, fields))
  {
    hide Inv, Run, Allowed, AllRoomy, Spec.Finish, S.ReadBuffer, V.VerifyBuffer;
    b := new FlatBufferBuilder(initialSize, 8);
    NewInv();
    ghost var s := Run(Spec.Init(false, true), calls).value;
    RunKeeps(Spec.Init(false, true), calls);
    FinishedRun(false, true, calls, root, fields, opts);
    PerformAll(b, calls, 0);
    CanFinish(s, root);
    b.Finish(root);
    DataIs(b);
  }

  lemma NewInv()
    ensures Inv(Spec.Init(false, true)) && Spec.Init(false, true).start == 0
  {
  }

  lemma CanFinish(s: State, root: nat)
    requires Inv(s) && Allowed(s, Finish(root))
    ensures s.NotNested() && !s.finished && 0 < root <= s.Size() && IsWidth(s.minalign)
    ensures Spec.Finish(s, root).finished
  {
    hide Inv;
    ObjBound(s, root);
  }
}
