/** Single fields over whole runs: what was set is what the generated getters return. */
module FieldRuns {
  import opened Wrappers
  import opened Bytes
  import opened Wire
  import opened Layout
  import opened BuilderInv
  import opened BuilderTables
  import opened BuilderRuns
  import Spec = BuilderSpec

  predicate SetsField(call: Call) {
    call.AddElement? || call.AddOffset?
  }

  /** The rest of one table: more fields, none of them `field`. */
  predicate OtherFields(calls: seq<Call>, field: nat) {
    forall i :: 0 <= i < |calls| ==> SetsField(calls[i]) && calls[i].field != field
  }

  predicate SameAt(a: map<nat, FieldVal>, b: map<nat, FieldVal>, f: nat) {
    (f in a <==> f in b) && (f in a ==> a[f] == b[f])
  }

  lemma OtherField(s: State, call: Call, field: nat)
    requires Inv(s) && s.nested && Allowed(s, call) && SetsField(call) && call.field != field
    ensures Step(s, call).nested && SameAt(s.pending, Step(s, call).pending, field)
  {
    hide Inv, CanAdd;
  }

  lemma {:induction false} FieldKept(s: State, calls: seq<Call>, field: nat)
    requires Inv(s) && s.nested && OtherFields(calls, field) && Run(s, calls).Some?
    ensures var t := Run(s, calls).value; Inv(t) && t.nested && SameAt(s.pending, t.pending, field)
    decreases |calls|
  {
    hide Inv, Allowed, Step;
    if calls != [] {
      OtherField(s, calls[0], field);
      StepKeeps(s, calls[0]);
      FieldKept(Step(s, calls[0]), calls[1..], field);
    }
  }

  /** The states of a run that sets one field: when it is set, when its table ends, and any time later. */
  ghost predicate Life(s: State, put: Call, others: seq<Call>, after: seq<Call>) {
    && Inv(s) && s.nested && SetsField(put) && Allowed(s, put) && OtherFields(others, put.field)
    && var full := Run(Step(s, put), others);
    && full.Some? && Allowed(full.value, EndTable)
    && Run(Step(full.value, EndTable), after).Some?
  }

  /** The table's start, counted from the end of the buffer, which EndTable returns. */
  ghost function TableOf(s: State, put: Call, others: seq<Call>): nat
    requires SetsField(put) && Allowed(s, put) && Run(Step(s, put), others).Some?
  {
    Spec.Align(Run(Step(s, put), others).value, 4).Size() + 4
  }

  /** The state at the end of it. */
  ghost function EndOf(s: State, put: Call, others: seq<Call>, after: seq<Call>): State
    requires Life(s, put, others, after)
  {
    Run(Step(Run(Step(s, put), others).value, EndTable), after).value
  }

  lemma NestedAfterSet(s: State, put: Call)
    requires Inv(s) && s.nested && SetsField(put) && Allowed(s, put)
    ensures Step(s, put).nested
  {
    hide Inv, CanAdd;
  }

  lemma CanEndNow(s: State)
    requires Allowed(s, EndTable)
    ensures CanEnd(s, s.start) && Step(s, EndTable) == Spec.EndTable(s, s.start)
  {
    hide CanEnd, Spec.EndTable;
  }

  lemma FieldOfLife(s: State, put: Call, others: seq<Call>, after: seq<Call>)
    requires Life(s, put, others, after)
    ensures var full := Run(Step(s, put), others).value;
            var z := Run(Step(full, EndTable), after).value;
            && SameAt(Step(s, put).pending, full.pending, put.field)
            && TableAt(z.data, z.Size() - TableOf(s, put, others), full.pending, z.minalign)
  {
    hide Inv, Allowed, Step, Spec.EndTable, Run, ObjAt;
    StepKeeps(s, put);
    NestedAfterSet(s, put);
    FieldKept(Step(s, put), others, put.field);
    var full := Run(Step(s, put), others).value;
    CanEndNow(full);
    EndTableKeeps(full, full.start);
    RunKeeps(Step(full, EndTable), after);
    var z := Run(Step(full, EndTable), after).value;
    Recorded(z, TableOf(s, put, others));
    TableThere(z, TableOf(s, put, others), full.pending);
  }

  lemma TableThere(z: State, o: nat, fields: map<nat, FieldVal>)
    requires ObjAt(z.data, z.Size() - o, Tbl(fields), z.minalign)
    ensures TableAt(z.data, z.Size() - o, fields, z.minalign)
  {
    hide TableAt;
  }

  lemma SetField(s: State, put: Call)
    requires Inv(s) && s.nested && SetsField(put) && Allowed(s, put)
    ensures IsSlot(put.field)
    ensures put.AddElement? ==> Reads(Step(s, put).pending, put.field, put.w, put.e, put.default)
    ensures put.AddElement? ==> (put.field in Step(s, put).pending <==> put.e != put.default || s.forceDefaults)
    ensures put.AddOffset? && put.off != 0 ==> Step(s, put).pending == s.pending[put.field := Ref(put.off)]
    ensures put.AddOffset? && put.off == 0 ==> put.field !in Step(s, put).pending
  {
    hide Inv, HasLoc, Spec.AddElement, Spec.AddOffset;
    NotYetSet(s, put.field);
    match put
    case AddElement(field, w, e, default) => AddElementKeeps(s, field, w, e, default);
    case AddOffset(field, off) => AddOffsetKeeps(s, field, off);
    case _ =>
  }

  lemma GetsScalar(buf: seq<byte>, pos: int, m: nat, before: map<nat, FieldVal>, full: map<nat, FieldVal>,
                   f: nat, w: nat, e: nat, default: nat)
    requires TableAt(buf, pos, full, m) && SameAt(before, full, f) && IsSlot(f) && Reads(before, f, w, e, default)
    ensures GetField(buf, pos, f, w, default) == Some(e)
  {
    hide TableAt;
    TableField(buf, pos, full, m, f);
  }

  lemma GetsReference(buf: seq<byte>, pos: int, m: nat, before: map<nat, FieldVal>, full: map<nat, FieldVal>,
                      f: nat, off: nat)
    requires TableAt(buf, pos, full, m) && SameAt(before, full, f) && IsSlot(f)
    requires if off == 0 then f !in before else f in before && before[f] == Ref(off)
    ensures GetPointer(buf, pos, f) == Some(if off == 0 then None else Some(|buf| - off))
  {
    hide TableAt;
    TableField(buf, pos, full, m, f);
  }

  /** A scalar field reads back as set, stored or elided, from the moment its table ends. */
  lemma ScalarRoundTrip(s: State, put: Call, others: seq<Call>, after: seq<Call>)
    requires Life(s, put, others, after) && put.AddElement?
    ensures var z := EndOf(s, put, others, after);
            (GetField(z.data, z.Size() - TableOf(s, put, others), put.field, put.w, put.default) == Some(put.e))
  {
    hide Inv, Allowed, Step, Run, TableAt, GetField, SameAt, Reads, OtherFields, IsSlot, TableOf;
    FieldOfLife(s, put, others, after);
    SetField(s, put);
    var full := Run(Step(s, put), others).value;
    var z := Run(Step(full, EndTable), after).value;
    GetsScalar(z.data, z.Size() - TableOf(s, put, others), z.minalign, Step(s, put).pending, full.pending,
               put.field, put.w, put.e, put.default);
  }

  /** `CheckField`: whether the table has the field. */
  function CheckField(buf: seq<byte>, table: int, field: nat): Option<bool> {
    var offset :- GetOptionalFieldOffset(buf, table, field);
    Some(offset != 0)
  }

  lemma StoredSlot(buf: seq<byte>, pos: int, m: nat, before: map<nat, FieldVal>, full: map<nat, FieldVal>, f: nat)
    requires TableAt(buf, pos, full, m) && SameAt(before, full, f) && IsSlot(f)
    ensures CheckField(buf, pos, f) == Some(f in before)
  {
    hide TableAt;
    TableField(buf, pos, full, m, f);
  }

  /** It takes room in the table exactly if it is not the default or defaults are forced. */
  lemma StoredUnlessDefault(s: State, put: Call, others: seq<Call>, after: seq<Call>)
    requires Life(s, put, others, after) && put.AddElement?
    ensures var z := EndOf(s, put, others, after);
            (CheckField(z.data, z.Size() - TableOf(s, put, others), put.field) == Some(put.e != put.default || s.forceDefaults))
  {
    hide Inv, Allowed, Step, Run, TableAt, CheckField, SameAt, Reads, OtherFields, IsSlot, TableOf;
    FieldOfLife(s, put, others, after);
    SetField(s, put);
    var full := Run(Step(s, put), others).value;
    var z := Run(Step(full, EndTable), after).value;
    StoredSlot(z.data, z.Size() - TableOf(s, put, others), z.minalign, Step(s, put).pending, full.pending, put.field);
  }

  /** A reference field leads to its object, and a null reference reads as the null pointer. */
  lemma ReferenceRoundTrip(s: State, put: Call, others: seq<Call>, after: seq<Call>)
    requires Life(s, put, others, after) && put.AddOffset?
    ensures var z := EndOf(s, put, others, after);
            (GetPointer(z.data, z.Size() - TableOf(s, put, others), put.field)
             == Some(if put.off == 0 then None else Some(z.Size() - put.off)))
  {
    hide Inv, Allowed, Step, Run, TableAt, GetPointer, SameAt, OtherFields, IsSlot, TableOf;
    FieldOfLife(s, put, others, after);
    SetField(s, put);
    var full := Run(Step(s, put), others).value;
    var z := Run(Step(full, EndTable), after).value;
    GetsReference(z.data, z.Size() - TableOf(s, put, others), z.minalign, Step(s, put).pending, full.pending,
                  put.field, put.off);
  }

  // ---- Where the round trip stops ----

  /** `FieldIndexToOffset`: the slot of the `index`-th field, or a failed assertion. */
  function FieldIndexToOffset(index: nat): Option<nat> {
    var slot := 4 + 2 * index;
    if slot < 0xffff then Some(slot) else None
  }

  /** The last index FieldIndexToOffset lets through gets slot 65534, whose vtable size wraps to zero. */
  lemma LastIndexBreaks(s: State)
    requires s.maxVoffset < 65534
    ensures FieldIndexToOffset(32765) == Some(65534)
    ensures Spec.VTableSize(Spec.TrackField(s, 65534)) == 4
    ensures !Spec.CanEndTable(Spec.TrackField(s, 65534), s.start)
  {
    var t := Spec.TrackField(s, 65534);
    assert t.locs[|s.locs|].id == 65534;
  }

  /** A field tracked in a slot that FieldIndexToOffset lets through leaves a table EndTable can close,
      its vtable entries inside its vtable, exactly when the slot is not that last one. */
  lemma SlotsThatFit(s: State, index: nat)
    requires OpenTable(s) && s.nested && FieldIndexToOffset(index).Some?
    ensures Spec.CanEndTable(Spec.TrackField(s, FieldIndexToOffset(index).value), s.start)
       <==> FieldIndexToOffset(index).value <= MAX_SLOT
  {
    hide ValueAt;
    var slot := FieldIndexToOffset(index).value;
    var t := Spec.TrackField(s, slot);
    assert t.locs[|s.locs|].id == slot;
    forall i | 0 <= i < |s.locs|
      ensures t.locs[i].off <= s.Size() && t.locs[i].id <= s.maxVoffset
    {
      assert LocOk(s, s.locs[i]);
    }
  }
}
