/** Builder, verifier and accessors together: what a run of builder calls finishes is accepted by the
    verifier, exactly up to its limits, and reads back as the tree that was written. */
module Finished {
  import opened Wrappers
  import opened Bytes
  import opened Wire
  import opened Layout
  import opened Typed
  import opened Accepted
  import opened BuilderInv
  import opened BuilderRuns
  import Spec = BuilderSpec
  import S = Schema
  import V = Verifier
  import R = ReadsBack

  lemma InvHolds(s: State)
    requires Inv(s)
    ensures Holds(s.data, s.objs, s.minalign) && IsWidth(s.minalign) && s.Size() <= MAX_SIZE
  {
    hide Holds;
  }

  lemma HoldsLarger(data: seq<byte>, objs: Objects, m: nat, larger: nat)
    requires Holds(data, objs, m) && m <= larger
    ensures Holds(data, objs, larger)
  {
    HoldsShift([], data, objs, m, larger);
    assert [] + data == data;
  }

  /** Behind the root offset lies a complete buffer of its own. */
  lemma BehindRoot(a: State, root: nat)
    requires Inv(a) && root <= a.Size() && Spec.PushOffset(a, root).Size() <= MAX_SIZE
    ensures var t := Spec.PushOffset(a, root);
            4 <= t.Size() && t.objs == a.objs && Holds(t.data[4..], t.objs, t.minalign)
  {
    hide Inv, Holds;
    AlignKeeps(a, 4);
    var b := Spec.Align(a, 4);
    AlignKeeps(b, 4);
    var c := Spec.Align(b, 4);
    InvHolds(c);
    var t := Spec.PushOffset(a, root);
    assert t.data[4..] == c.data;
    HoldsLarger(c.data, c.objs, c.minalign, t.minalign);
  }

  /** Everything a reader of the object reads is aligned as seen from the start of the buffer: its first
      word, every field, every element of a vector. */
  ghost predicate Aligned(buf: seq<byte>, pos: int, obj: Obj) {
    && pos % 4 == 0
    && match obj
       case Str(_) => true
       case Vec(w, elems) => w > 0 && forall k :: 0 <= k < |elems| ==> (pos + 4 + w * k) % w == 0
       case OffVec(targets) => forall k :: 0 <= k < |targets| ==> (pos + 4 + 4 * k) % 4 == 0
       case Tbl(fields) => forall f :: f in fields ==> FieldAligned(buf, pos, f, if fields[f].Scalar? then fields[f].w else 4)
  }

  predicate FieldAligned(buf: seq<byte>, pos: int, f: nat, w: nat) {
    var offset := GetOptionalFieldOffset(buf, pos, f);
    w > 0 && offset.Some? && (pos + offset.value) % w == 0
  }

  lemma ElemAligned(pos: nat, w: nat, k: nat)
    requires IsWidth(w) && (pos + 4) % w == 0
    ensures (pos + 4 + w * k) % w == 0
  {
    AlignedSum(pos + 4, w * k, w);
    MultipleOf(w, k);
  }

  lemma MultipleOf(w: nat, k: nat)
    requires IsWidth(w)
    ensures (w * k) % w == 0
  {
    if w == 1 {
    } else if w == 2 {
      assert w * k == 2 * k;
    } else if w == 4 {
      assert w * k == 4 * k;
    } else {
      assert w * k == 8 * k;
    }
  }

  lemma FieldIsAligned(buf: seq<byte>, pos: nat, fields: map<nat, FieldVal>, f: nat, m: nat)
    requires IsWidth(m) && 4 <= m && |buf| % m == 0 && pos <= |buf|
    requires TableAt(buf, pos, fields, m) && f in fields
    ensures FieldAligned(buf, pos, f, if fields[f].Scalar? then fields[f].w else 4)
  {
    hide FieldAt;
    TableField(buf, pos, fields, m, f);
    var at := pos + GetOptionalFieldOffset(buf, pos, f).value;
    match fields[f]
    case Scalar(w, n) => AlignedFromStart(|buf|, |buf| - at, w, m);
    case Ref(target) => AlignedFromStart(|buf|, |buf| - at, 4, m);
  }

  lemma VecAligned(buf: seq<byte>, pos: nat, w: nat, elems: seq<nat>, m: nat)
    requires IsWidth(m) && |buf| % m == 0 && pos % 4 == 0 && ObjAt(buf, pos, Vec(w, elems), m)
    ensures Aligned(buf, pos, Vec(w, elems))
  {
    hide GetVector;
    if elems != [] { AlignedFromStart(|buf|, |buf| - (pos + 4), w, m); }
    forall k | 0 <= k < |elems|
      ensures (pos + 4 + w * k) % w == 0
    {
      ElemAligned(pos, w, k);
    }
  }

  lemma TblAligned(buf: seq<byte>, pos: nat, fields: map<nat, FieldVal>, m: nat)
    requires IsWidth(m) && 4 <= m && |buf| % m == 0 && pos % 4 == 0 && pos <= |buf| && TableAt(buf, pos, fields, m)
    ensures Aligned(buf, pos, Tbl(fields))
  {
    hide TableAt, FieldAligned;
    forall f | f in fields
      ensures FieldAligned(buf, pos, f, if fields[f].Scalar? then fields[f].w else 4)
    {
      FieldIsAligned(buf, pos, fields, f, m);
    }
  }

  lemma ObjAligned(buf: seq<byte>, objs: Objects, m: nat, o: nat)
    requires Sealed(buf, objs, m) && o in objs
    ensures Aligned(buf, |buf| - o, objs[o])
  {
    hide TableAt, GetVector, GetString, Holds, ElemsAligned;
    ObjPlace(buf, objs, m, o);
    match objs[o]
    case Vec(w, elems) => VecAligned(buf, |buf| - o, w, elems, m);
    case Tbl(fields) => TblAligned(buf, |buf| - o, fields, m);
    case _ =>
  }

  /** In a sealed buffer every object is aligned as seen from the start. */
  lemma AllAligned(buf: seq<byte>, objs: Objects, m: nat)
    requires Sealed(buf, objs, m)
    ensures forall o :: o in objs ==> Aligned(buf, |buf| - o, objs[o])
  {
    hide Sealed, Aligned;
    forall o | o in objs
      ensures Aligned(buf, |buf| - o, objs[o])
    {
      ObjAligned(buf, objs, m, o);
    }
  }

  lemma FinishSeals(s: State, root: nat)
    requires Inv(s) && Allowed(s, Finish(root)) && Spec.Finish(s, root).Size() < MAX_SIZE
    ensures var t := Spec.Finish(s, root); Sealed(t.data, t.objs, t.minalign) && t.objs == s.objs
    ensures GetRoot(Spec.Finish(s, root).data) == Some(Spec.Finish(s, root).Size() - root)
  {
    FinishKeeps(s, root);
    TempsFree(s, []);
    var c := s.(vtables := [], temps := []);
    assert Inv(c);
    hide Inv, Holds, Spec.PreAlign, Spec.PushOffset, GetRoot;
    var a := Spec.PreAlign(c, 4, s.minalign);
    PreAlignKeeps(c, 4, s.minalign);
    BehindRoot(a, root);
    InvHolds(Spec.Finish(s, root));
  }

  lemma RootFits(s: State, root: nat)
    requires Inv(s) && Allowed(s, Finish(root))
    ensures root <= s.Size() && IsWidth(s.minalign)
  {
  }

  /** A finished buffer is aligned as seen from its start and from its end, and leads to its root. */
  lemma FinishSealed(s: State, root: nat)
    requires Inv(s) && Allowed(s, Finish(root)) && Spec.Finish(s, root).Size() < MAX_SIZE
    ensures var t := Spec.Finish(s, root); Sealed(t.data, t.objs, t.minalign) && t.objs == s.objs
    ensures var t := Spec.Finish(s, root); forall o :: o in t.objs ==> Aligned(t.data, |t.data| - o, t.objs[o])
    ensures GetRoot(Spec.Finish(s, root).data) == Some(Spec.Finish(s, root).Size() - root)
  {
    hide Sealed, Aligned, Spec.Finish, GetRoot, Inv, Allowed, Holds;
    RootFits(s, root);
    FinishSeals(s, root);
    var t := Spec.Finish(s, root);
    AllAligned(t.data, t.objs, t.minalign);
  }

  lemma RootPasses(buf: seq<byte>, root: nat, opts: V.Options)
    requires 12 <= |buf| < V.MAX_SIZE && 0 < root < |buf| && GetRoot(buf) == Some(|buf| - root)
    ensures V.VerifyOffset(buf, 0, opts) == V.Pass(|buf| - root)
  {
  }

  lemma VerdictFull(e: Extent, opts: V.Options)
    requires e.tables > 0
    ensures Verdict(V.Counters(0, 0), e, opts)
         == if e.depth <= opts.maxDepth && e.tables <= opts.maxTables then V.Pass(V.Counters(0, e.tables)) else V.Reject
  {
  }

  /** The verifier's answer on a sealed buffer, and what its reader sees. */
  lemma SealedAccepted(buf: seq<byte>, objs: Objects, m: nat, root: nat, fields: seq<S.Field>, opts: V.Options)
    requires Sealed(buf, objs, m) && GetRoot(buf) == Some(|buf| - root)
    requires TableTyped(objs, root, fields) && S.WellFormed(fields)
    ensures var e := TableExtent(objs, root, fields);
            && V.VerifyBuffer(buf, fields, opts)
               == (if e.depth <= opts.maxDepth && e.tables <= opts.maxTables then V.Pass(V.Counters(0, e.tables)) else V.Reject)
    ensures S.ReadBuffer(buf, fields) == Some(TableTree(objs, root, fields))
  {
    hide Holds, ObjAt, V.VerifyOffset, V.VerifyTable, Verdict, GetRoot, S.ReadTable;
    ObjPlace(buf, objs, m, root);
    VTablePlace(buf, objs, m, root);
    RootPasses(buf, root, opts);
    VerdictFull(TableExtent(objs, root, fields), opts);
    assert TableExtent(objs, root, fields).tables > 0;
    TablePasses(buf, objs, m, root, fields, V.Counters(0, 0), opts);
    R.TableReads(buf, objs, m, root, fields);
  }

  /** The main result on the codec: after any run of allowed calls that ends in Finish, the verifier
      accepts the bytes exactly when the tables below the root stay within its two limits, and the
      accessors give back the whole tree, sharing and vtable reuse included. */
  lemma FinishedRun(forceDefaults: bool, dedup: bool, calls: seq<Call>, root: nat, fields: seq<S.Field>, opts: V.Options)
    requires var s := Run(Spec.Init(forceDefaults, dedup), calls);
             && s.Some? && Allowed(s.value, Finish(root)) && Spec.Finish(s.value, root).Size() < MAX_SIZE
             && TableTyped(s.value.objs, root, fields) && S.WellFormed(fields)
    ensures var s := Run(Spec.Init(forceDefaults, dedup), calls).value;
            var buf := Spec.Finish(s, root).data;
            var e := TableExtent(s.objs, root, fields);
            && V.VerifyBuffer(buf, fields, opts)
               == (if e.depth <= opts.maxDepth && e.tables <= opts.maxTables then V.Pass(V.Counters(0, e.tables)) else V.Reject)
            && S.ReadBuffer(buf, fields) == Some(TableTree(s.objs, root, fields))
  {
    hide Sealed, Run, Allowed, Spec.Finish, S.ReadBuffer, V.VerifyBuffer;
    var init := Spec.Init(forceDefaults, dedup);
    RunKeeps(init, calls);
    var s := Run(init, calls).value;
    FinishSealed(s, root);
    var t := Spec.Finish(s, root);
    SealedAccepted(t.data, t.objs, t.minalign, root, fields, opts);
  }
}
