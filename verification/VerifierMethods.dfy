/** The verifier as it runs: one object that counts depth and tables, and loops over vectors.  Every read
    it makes is inside the buffer, and its answer is that of the functions of module Verifier. */
module VerifierMethods {
  import opened Wrappers
  import opened Bytes
  import opened Wire
  import opened Schema
  import opened VerifierSound
  import Exact = VerifierExact
  import V = Verifier

  class Verifier {
    const buf: seq<byte>
    const opts: V.Options
    var depth: nat
    var numTables: nat

    constructor (buf: seq<byte>, opts: V.Options)
      requires Accepts(buf)
      ensures this.buf == buf && this.opts == opts && depth == 0 && numTables == 0
    {
      this.buf, this.opts, depth, numTables := buf, opts, 0, 0;
    }

    function Count(): V.Counters
      reads this
    {
      V.Counters(depth, numTables)
    }

    /** Counts even where the limit is exceeded. */
    method VerifyComplexity() returns (ok: bool)
      modifies this
      ensures depth == old(depth) + 1 && numTables == old(numTables) + 1
      ensures ok <==> V.VerifyComplexity(old(Count()), opts).Pass?
      ensures ok ==> V.VerifyComplexity(old(Count()), opts).value == Count()
    {
      depth := depth + 1;
      numTables := numTables + 1;
      ok := depth <= opts.maxDepth && numTables <= opts.maxTables;
    }

    method EndTable()
      requires depth > 0
      modifies this`depth
      ensures depth == old(depth) - 1
    {
      depth := depth - 1;
    }

    /** A read the checks before it have shown to be inside the buffer. */
    method Read(pos: nat, w: nat) returns (n: nat)
      requires pos + w <= |buf|
      ensures ReadScalar(buf, pos, w) == Some(n)
    {
      n := Decode(buf[pos..pos + w]);
    }

    /** The offset stored at `start`, or 0 if it is no good. */
    method VerifyOffset(start: nat) returns (o: nat)
      ensures o != 0 <==> V.VerifyOffset(buf, start, opts).Pass?
      ensures o != 0 ==> V.VerifyOffset(buf, start, opts) == V.Pass(o) && Follow(buf, start) == Some(start + o)
    {
      hide Decode, ReadScalar;
      if !V.ScalarOk(buf, start, 4, opts) { return 0; }
      o := Read(start, 4);
      if o == 0 || Signed32(o) < 0 || !V.InRange(buf, start + o, 1) { return 0; }
      FollowIs(buf, start, o);
    }

    method VerifyVectorOrString(vec: nat, elemSize: nat) returns (ok: bool, end: nat)
      requires IsWidth(elemSize)
      ensures ok <==> V.VerifyVectorOrString(buf, vec, elemSize, opts).Pass?
      ensures ok ==> V.VerifyVectorOrString(buf, vec, elemSize, opts) == V.Pass(end)
    {
      hide Decode, ReadScalar;
      end := 0;
      if !V.ScalarOk(buf, vec, 4, opts) { return false, 0; }
      var size := Read(vec, 4);
      if !(size < V.MAX_SIZE / elemSize) { return false, 0; }
      var byteSize := 4 + elemSize * size;
      end := vec + byteSize;
      ok := V.InRange(buf, vec, byteSize);
    }

    method VerifyString(str: nat) returns (ok: bool)
      ensures ok <==> V.VerifyString(buf, str, opts).Pass?
    {
      hide Decode, ReadScalar, V.VerifyVectorOrString;
      var end;
      ok, end := VerifyVectorOrString(str, 1);
      if !ok || !V.InRange(buf, end, 1) { return false; }
      var terminator := Read(end, 1);
      ok := terminator == 0;
    }

    method VerifyVectorOfStrings(vec: nat, size: nat) returns (ok: bool)
      requires vec + 4 + 4 * size <= |buf|
      ensures ok <==> V.VerifyStrings(buf, vec, 0, size, opts).Pass?
    {
      hide V.VerifyString, Decode, ReadScalar, GetIndirect;
      var i := 0;
      while i < size
        invariant 0 <= i <= size
        invariant V.VerifyStrings(buf, vec, 0, size, opts).Pass? <==> V.VerifyStrings(buf, vec, i, size, opts).Pass?
      {
        var str := Element(vec, i);
        ok := VerifyString(str);
        if !ok { return; }
        i := i + 1;
      }
      ok := true;
    }

    /** `Vector::Get` of a vector of references. */
    method Element(vec: nat, i: nat) returns (at: nat)
      requires vec + 4 + 4 * i + 4 <= |buf|
      ensures GetIndirect(buf, vec, i) == Some(at)
    {
      hide Decode;
      var o := Read(vec + 4 + 4 * i, 4);
      at := vec + 4 + 4 * i + o;
    }

    method VerifyTableStart(table: nat) returns (ok: bool)
      modifies this
      ensures ok <==> V.VerifyTableStart(buf, table, old(Count()), opts).Pass?
      ensures ok ==> V.VerifyTableStart(buf, table, old(Count()), opts).value == Count() && depth == old(depth) + 1
    {
      hide Decode, ReadScalar;
      if !V.ScalarOk(buf, table, 4, opts) { return false; }
      var back := Read(table, 4);
      var vtable := (table - Signed32(back)) % V.SIZE_T;
      ok := VerifyComplexity();
      if !ok || !V.ScalarOk(buf, vtable, 2, opts) { return false; }
      var size := Read(vtable, 2);
      ok := V.AlignmentOk(size, 2, opts) && size % 2 == 0 && V.InRange(buf, vtable, size);
    }

    /** The verdict of a method that counts, against the function it implements. */
    predicate Agrees(ok: bool, r: V.Outcome<V.Counters>)
      reads this
    {
      ok == r.Pass? && (ok ==> r.value == Count())
    }

    method VerifyTable(table: nat, fields: seq<Field>) returns (ok: bool)
      requires Accepts(buf) && WellFormed(fields)
      modifies this
      ensures Agrees(ok, V.VerifyTable(buf, table, fields, old(Count()), opts))
      ensures ok ==> depth == old(depth)
      decreases fields, 2
    {
      hide V.VerifyTableStart, V.VerifyFields, GetOptionalFieldOffset;
      TableStartSound(buf, table, Count(), opts);
      ok := VerifyTableStart(table);
      if !ok { return; }
      ok := VerifyFields(table, fields);
      if !ok { return; }
      EndTable();
    }

    method VerifyFields(table: nat, fields: seq<Field>) returns (ok: bool)
      requires Accepts(buf) && WellFormed(fields)
      requires forall slot :: slot % 2 == 0 ==> GetOptionalFieldOffset(buf, table, slot).Some?
      modifies this
      ensures Agrees(ok, V.VerifyFields(buf, table, fields, old(Count()), opts))
      ensures ok ==> depth == old(depth)
      decreases fields, 1
    {
      hide V.VerifyField, GetOptionalFieldOffset;
      if fields == [] { return true; }
      ok := VerifyField(table, fields[0]);
      if !ok { return; }
      ok := VerifyFields(table, fields[1..]);
    }

    method VerifyField(table: nat, field: Field) returns (ok: bool)
      requires Accepts(buf) && WellFormedField(field) && GetOptionalFieldOffset(buf, table, field.slot).Some?
      modifies this
      ensures Agrees(ok, V.VerifyField(buf, table, field, old(Count()), opts))
      ensures ok ==> depth == old(depth)
      decreases field, 3
    {
      hide V.VerifyObject, V.VerifyOffset, GetOptionalFieldOffset, Follow;
      var offset := GetOptionalFieldOffset(buf, table, field.slot).value;
      if offset == 0 { return !field.required; }
      if field.kind.Num? {
        assert WellFormedKind(field.kind);
        return V.ScalarOk(buf, table + offset, field.kind.w, opts);
      }
      var o := VerifyOffset(table + offset);
      if o == 0 { return false; }
      ok := VerifyObject(table + offset + o, field.kind);
    }

    method VerifyObject(pos: nat, kind: Kind) returns (ok: bool)
      requires Accepts(buf) && WellFormedKind(kind)
      modifies this
      ensures Agrees(ok, V.VerifyObject(buf, pos, kind, old(Count()), opts))
      ensures ok ==> depth == old(depth)
      decreases kind, 2
    {
      hide V.VerifyTable, V.VerifyTables, V.VerifyString, V.VerifyStrings, V.VerifyVectorOrString, Decode;
      var end;
      match kind
      case Num(_, _) => ok := true;
      case Text => ok := VerifyString(pos);
      case Nums(w) => ok, end := VerifyVectorOrString(pos, w);
      case Texts =>
        ok, end := VerifyVectorOrString(pos, 4);
        VectorSound(buf, pos, 4, opts);
        if !ok { return; }
        var size := Read(pos, 4);
        ok := VerifyVectorOfStrings(pos, size);
      case Sub(fields) => ok := VerifyTable(pos, fields);
      case Subs(fields) =>
        ok, end := VerifyVectorOrString(pos, 4);
        VectorSound(buf, pos, 4, opts);
        if !ok { return; }
        var size := Read(pos, 4);
        ok := VerifyVectorOfTables(pos, size, fields);
    }

    method VerifyVectorOfTables(vec: nat, size: nat, fields: seq<Field>) returns (ok: bool)
      requires Accepts(buf) && WellFormed(fields) && vec + 4 + 4 * size <= |buf|
      modifies this
      ensures Agrees(ok, V.VerifyTables(buf, vec, 0, size, fields, old(Count()), opts))
      ensures ok ==> depth == old(depth)
      decreases fields, 3
    {
      hide V.VerifyTable, GetIndirect;
      var i := 0;
      while i < size
        invariant 0 <= i <= size && depth == old(depth)
        invariant V.VerifyTables(buf, vec, 0, size, fields, old(Count()), opts)
               == V.VerifyTables(buf, vec, i, size, fields, Count(), opts)
      {
        var table := Element(vec, i);
        ok := VerifyTable(table, fields);
        if !ok { return; }
        i := i + 1;
      }
      ok := true;
    }

    /** `VerifyBuffer`: if it says yes, every accessor of the schema stays inside the buffer, and every required
        field is there; and it says so to exactly the good buffers within its limits. */
    method VerifyBuffer(fields: seq<Field>) returns (ok: bool)
      requires Accepts(buf) && WellFormed(fields) && depth == 0 && numTables == 0
      modifies this
      ensures ok <==> V.VerifyBuffer(buf, fields, opts).Pass?
      ensures ok ==> ReadBuffer(buf, fields).Some? && depth == 0
      ensures ok ==> Exact.Complete(ReadBuffer(buf, fields).value, fields)
      ensures ok <==>
                Exact.GoodBuffer(buf, fields, opts.checkAlignment) && Exact.WithinLimits(ReadBuffer(buf, fields), opts)
    {
      hide V.VerifyTable, V.VerifyOffset, ReadBuffer, Exact.GoodBuffer, Exact.WithinLimits, Exact.Complete;
      VerifierSoundness(buf, fields, opts);
      Exact.VerifierExactly(buf, fields, opts);
      if |buf| < 12 { return false; }
      var o := VerifyOffset(0);
      if o == 0 { return false; }
      ok := VerifyTable(o, fields);
    }
  }

  lemma FollowIs(buf: seq<byte>, start: nat, o: nat)
    requires ReadScalar(buf, start, 4) == Some(o)
    ensures Follow(buf, start) == Some(start + o)
  {
  }
}
