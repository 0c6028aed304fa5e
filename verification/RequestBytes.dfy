/** One request, byte by byte: what the calls for a GetRequest with the key "hi" write. */
module RequestBytes {
  import opened Wrappers
  import opened Bytes
  import opened Wire
  import opened Layout
  import opened BuilderInv
  import opened BuilderTables
  import opened BuilderRuns
  import Spec = BuilderSpec
  import S = Schema
  import V = Verifier
  import R = Requests
  import T = Typed

  const HI: seq<byte> := [104, 105]

  const CALLS: seq<Call> := [CreateString(HI), StartTable, AddOffset(4, 8), EndTable]

  /** The string: its length, its characters, the terminator and padding. */
  const STRING: seq<byte> := [2, 0, 0, 0] + HI + [0] + [0]

  /** The table: the distance back to its vtable, and on to the string. */
  const TABLE: seq<byte> := [6, 0, 0, 0] + ([4, 0, 0, 0] + STRING)

  /** The vtable: its size, the table's size, and where in the table the first field is. */
  const VTABLE: seq<byte> := [6, 0, 8, 0, 4, 0]

  /** The root offset, and padding in front of the vtable. */
  const BUFFER: seq<byte> := [12, 0, 0, 0] + ([0, 0] + (VTABLE + TABLE))

  lemma Small(n: nat)
    requires n < 256
    ensures Encode(n, 2) == [n, 0] && Encode(n, 4) == [n, 0, 0, 0]
  {
    assert Encode(n, 2) == [n] + Encode(0, 1) && Encode(0, 1) == [0] + Encode(0, 0);
    assert Encode(0, 2) == [0] + Encode(0, 1) && Encode(0, 3) == [0] + Encode(0, 2);
    assert Encode(n, 4) == [n] + Encode(0, 3);
  }

  lemma NoPadding(data: seq<byte>)
    ensures Zeros(0) + data == data && Zeros(1) == [0] && Zeros(2) == [0, 0]
  {
  }

  function AfterString(): State {
    Spec.Init(false, true).(data := STRING, minalign := 4, objs := map[8 := Str(HI)])
  }

  function Started(): State {
    AfterString().(nested := true, start := 8, pending := map[])
  }

  function WithField(): State {
    Started().(data := [4, 0, 0, 0] + STRING, locs := [Spec.FieldLoc(12, 4)], maxVoffset := 4, pending := map[4 := Ref(8)])
  }

  function Ended(): State {
    WithField().(data := VTABLE + TABLE, vtables := [22], locs := [], maxVoffset := 0, nested := false,
                 objs := map[8 := Str(HI)][16 := Tbl(map[4 := Ref(8)])])
  }

  lemma WritesString()
    ensures Allowed(Spec.Init(false, true), CreateString(HI)) && Step(Spec.Init(false, true), CreateString(HI)) == AfterString()
  {
    hide Encode;
    var s := Spec.Init(false, true);
    Small(2);
    NoPadding([]);
    var a := Spec.Push(Spec.PreAlign(s, 3, 4), Zeros(1));
    assert a.data == [0] + [0];
    var b := Spec.Push(a, HI);
    NoPadding(b.data);
    assert Spec.PushElement(b, 2, 4).data == [2, 0, 0, 0] + (HI + ([0] + [0]));
    assert [2, 0, 0, 0] + (HI + ([0] + [0])) == STRING;
    assert s.objs[8 := Str(HI)] == map[8 := Str(HI)];
  }

  lemma WritesField()
    ensures Allowed(AfterString(), StartTable) && Step(AfterString(), StartTable) == Started()
    ensures Allowed(Started(), AddOffset(4, 8)) && Step(Started(), AddOffset(4, 8)) == WithField()
  {
    hide Encode;
    Small(4);
    NoPadding(STRING);
    var s := Started();
    assert Spec.Align(s, 4) == s;
    assert Spec.ReferTo(s, 8) == 4;
    assert Spec.PushElement(s, 4, 4).data == [4, 0, 0, 0] + STRING;
  }

  lemma WritesVTable()
    ensures var s := WithField();
            Spec.LocsFit(s.locs, 16, 6) && Spec.VTableSize(s) == 6 && Spec.VTable(s, 16, 8) == VTABLE
  {
    hide Encode;
    Small(6);
    Small(8);
    Small(4);
    var s := WithField();
    assert Spec.LocsFit(s.locs, 16, 6);
    NoPadding([]);
    var blank := Spec.BlankVTable(6, 8);
    assert blank == [6, 0] + [8, 0] + [0, 0];
    assert Spec.WriteLocs(blank, s.locs, 0, 16) == blank;
    assert Spec.WriteLocs(blank, s.locs, 1, 16) == Spec.Splice(blank, 4, [4, 0]);
    assert Spec.Splice(blank, 4, [4, 0]) == VTABLE;
  }

  lemma WritesTable()
    ensures Allowed(WithField(), EndTable) && Step(WithField(), EndTable) == Ended()
  {
    hide Encode, Spec.VTable, Spec.LocsFit, Spec.VTableSize;
    WritesVTable();
    Small(6);
    var s := WithField();
    NoPadding(s.data);
    assert Spec.Align(s, 4) == s;
    assert Spec.LocsFit(s.locs, 12, 6) by { LocsBefore(); }
    assert Spec.FindVTable(s.data, s.vtables, VTABLE) == None;
    assert Spec.Push(Spec.Push(s, [6, 0, 0, 0]), VTABLE).data == VTABLE + TABLE;
  }

  lemma LocsBefore()
    ensures Spec.LocsFit(WithField().locs, 12, 6)
  {
  }

  lemma WritesRoot()
    ensures Allowed(Ended(), Finish(16)) && Spec.Finish(Ended(), 16).data == BUFFER
  {
    hide Encode;
    Small(12);
    var s := Ended();
    NoPadding([]);
    var a := Spec.PreAlign(s.(vtables := [], temps := []), 4, 4);
    assert a.data == [0, 0] + s.data;
    NoPadding(a.data);
    assert Spec.Align(a, 4) == a && Spec.ReferTo(a, 16) == 12;
    assert s.NotNested() && 16 in s.objs;
    assert Spec.PushElement(a, 12, 4).data == [12, 0, 0, 0] + a.data;
  }

  lemma RunsToEnd()
    ensures Run(Spec.Init(false, true), CALLS) == Some(Ended())
  {
    hide Allowed, Step;
    WritesString();
    WritesField();
    WritesTable();
    assert CALLS[1..] == [StartTable, AddOffset(4, 8), EndTable];
    assert CALLS[1..][1..] == [AddOffset(4, 8), EndTable];
    assert [AddOffset(4, 8), EndTable][1..] == [EndTable] && [EndTable][1..] == [];
    assert Run(WithField(), [EndTable]) == Run(Ended(), []);
    assert Run(Started(), [AddOffset(4, 8), EndTable]) == Run(WithField(), [EndTable]);
    assert Run(AfterString(), CALLS[1..]) == Run(Started(), CALLS[1..][1..]);
  }

  lemma IsTyped()
    ensures T.TableTyped(Ended().objs, 16, R.Fields(R.GetRequest))
    ensures T.TableTree(Ended().objs, 16, R.Fields(R.GetRequest)) == [S.Chars(HI), S.Absent]
    ensures T.TableExtent(Ended().objs, 16, R.Fields(R.GetRequest)).tables <= 1
  {
    var objs, fields := Ended().objs, R.Fields(R.GetRequest);
    var vals := map[4 := Ref(8)];
    assert objs[16] == Tbl(vals) && objs[8] == Str(HI);
    assert fields[1..][1..] == [];
    assert T.FieldTyped(objs, vals, fields[0]) && T.FieldTyped(objs, vals, fields[1]);
    assert T.FieldsTyped(objs, vals, fields[1..]);
    assert T.FieldsTree(objs, vals, fields[1..]) == [S.Absent];
  }

  /** These calls write these 28 bytes, which pass the verifier and read as the request. */
  lemma GetRequestBytes(opts: V.Options)
    requires opts.maxDepth >= 3 && opts.maxTables >= 1
    ensures Run(Spec.Init(false, true), CALLS) == Some(Ended()) && Allowed(Ended(), Finish(16))
    ensures Spec.Finish(Ended(), 16).data == BUFFER && |BUFFER| == 28
    ensures S.WellFormed(R.Fields(R.GetRequest)) && V.VerifyBuffer(BUFFER, R.Fields(R.GetRequest), opts).Pass?
    ensures S.ReadBuffer(BUFFER, R.Fields(R.GetRequest)) == Some([S.Chars(HI), S.Absent])
  {
    hide Run, Allowed, Spec.Finish, V.VerifyBuffer, S.ReadBuffer, R.Fields, T.TableTyped, T.TableExtent, T.TableTree;
    RunsToEnd();
    WritesRoot();
    IsTyped();
    R.MessagePasses(R.GetRequest, false, true, CALLS, 16, opts);
  }
}
