/** The RPC messages: what verifier, builder and accessors come to for the tables they are made of. */
module Requests {
  import opened Wrappers
  import opened Bytes
  import opened Wire
  import opened Layout
  import opened Schema
  import opened Typed
  import opened BuilderRuns
  import Spec = BuilderSpec
  import V = Verifier
  import F = Finished
  import Sound = VerifierSound
  import Exact = VerifierExact

  // ---- The tables of proto/yikv_server.fbs ----

  function FieldValueFields(): seq<Field> {
    [Field(4, Num(2, 0), false), Field(6, Num(1, 0), false), Field(8, Num(4, 0), false),
     Field(10, Num(8, 0), false), Field(12, Num(4, 0), false), Field(14, Num(8, 0), false),
     Field(16, Text, false), Field(18, Nums(1), false), Field(20, Nums(4), false), Field(22, Nums(8), false),
     Field(24, Nums(4), false), Field(26, Nums(8), false), Field(28, Texts, false)]
  }

  function RowFields(): seq<Field> {
    [Field(4, Subs(FieldValueFields()), false)]
  }

  datatype Message =
    | GetRequest | GetResponse | PutRequest | PutResponse
    | BatchGetRequest | BatchGetResponse | PutBatchRequest | PutBatchResponse

  function Fields(message: Message): seq<Field> {
    match message
    case GetRequest => [Field(4, Text, true), Field(6, Text, false)]
    case GetResponse => [Field(4, Num(1, 0), false), Field(6, Text, false), Field(8, Sub(RowFields()), false), Field(10, Num(8, 0), false)]
    case PutRequest => [Field(4, Sub(RowFields()), true), Field(6, Text, false)]
    case PutResponse => [Field(4, Num(1, 0), false), Field(6, Text, false)]
    case BatchGetRequest => [Field(4, Texts, false), Field(6, Text, false)]
    case BatchGetResponse => [Field(4, Subs(RowFields()), false), Field(6, Text, false)]
    case PutBatchRequest => [Field(4, Subs(RowFields()), true), Field(6, Text, false)]
    case PutBatchResponse => [Field(4, Num(1, 0), false), Field(6, Text, false)]
  }

  lemma FieldValuesWellFormed()
    ensures WellFormed(FieldValueFields())
  {
    WellFormedEach(FieldValueFields());
  }

  lemma {:induction false} WellFormedEach(fields: seq<Field>)
    requires forall i :: 0 <= i < |fields| ==> WellFormedField(fields[i])
    ensures WellFormed(fields)
  {
    if fields != [] { WellFormedEach(fields[1..]); }
  }

  lemma MessageIsWellFormed(message: Message)
    ensures WellFormed(Fields(message))
  {
    hide FieldValueFields;
    FieldValuesWellFormed();
    WellFormedEach(RowFields());
    hide RowFields;
    WellFormedEach(Fields(message));
  }

  // ---- How deep their tables nest ----

  function Max(a: nat, b: nat): nat {
    if a < b then b else a
  }

  /** Tables within each other, at most. */
  function Nesting(fields: seq<Field>): nat
    decreases fields, 1
  {
    1 + Inner(fields)
  }

  function Inner(fields: seq<Field>): nat
    decreases fields, 0
  {
    if fields == [] then 0 else Max(FieldNesting(fields[0]), Inner(fields[1..]))
  }

  function FieldNesting(field: Field): nat
    decreases field, 0
  {
    KindNesting(field.kind)
  }

  function KindNesting(kind: Kind): nat
    decreases kind, 0
  {
    match kind
    case Sub(fields) => Nesting(fields)
    case Subs(fields) => Nesting(fields)
    case _ => 0
  }

  lemma {:induction false} TableDepth(objs: Objects, o: nat, fields: seq<Field>)
    requires TableTyped(objs, o, fields)
    ensures TableExtent(objs, o, fields).depth <= Nesting(fields)
    decreases fields, 1
  {
    FieldsDepth(objs, objs[o].fields, fields);
  }

  lemma {:induction false} FieldsDepth(objs: Objects, vals: map<nat, FieldVal>, fields: seq<Field>)
    requires FieldsTyped(objs, vals, fields)
    ensures FieldsExtent(objs, vals, fields).depth <= Inner(fields)
    decreases fields, 0
  {
    if fields != [] {
      FieldDepth(objs, vals, fields[0]);
      FieldsDepth(objs, vals, fields[1..]);
    }
  }

  lemma {:induction false} FieldDepth(objs: Objects, vals: map<nat, FieldVal>, field: Field)
    requires FieldTyped(objs, vals, field)
    ensures FieldExtent(objs, vals, field).depth <= FieldNesting(field)
    decreases field, 0
  {
    if !field.kind.Num? && field.slot in vals {
      ObjDepth(objs, vals[field.slot].target, field.kind);
    }
  }

  lemma {:induction false} ObjDepth(objs: Objects, o: nat, kind: Kind)
    requires ObjTyped(objs, o, kind)
    ensures ObjExtent(objs, o, kind).depth <= KindNesting(kind)
    decreases kind, 0
  {
    match kind
    case Sub(fields) => TableDepth(objs, o, fields);
    case Subs(fields) => TablesDepth(objs, objs[o].targets, fields);
    case _ =>
  }

  lemma {:induction false} TablesDepth(objs: Objects, targets: seq<nat>, fields: seq<Field>)
    requires forall t :: t in targets ==> TableTyped(objs, t, fields)
    ensures TablesExtent(objs, targets, fields).depth <= Nesting(fields)
    decreases fields, 2, |targets|
  {
    if targets != [] {
      assert targets[0] in targets && forall t :: t in targets[1..] ==> t in targets;
      TableDepth(objs, targets[0], fields);
      TablesDepth(objs, targets[1..], fields);
    }
  }

  lemma NestingOfValue()
    ensures Nesting(FieldValueFields()) <= 1
  {
    hide Inner;
    InnerAtMost(FieldValueFields(), 0);
  }

  lemma NestingOfRow()
    ensures Nesting(RowFields()) <= 2
  {
    hide Inner, FieldValueFields;
    NestingOfValue();
    InnerAtMost(RowFields(), 1);
  }

  /** A row within a message, and its field values within the row. */
  lemma NestingOf(message: Message)
    ensures Nesting(Fields(message)) <= 3
  {
    hide Inner, RowFields;
    NestingOfRow();
    InnerAtMost(Fields(message), 2);
  }

  lemma {:induction false} InnerAtMost(fields: seq<Field>, n: nat)
    requires forall i :: 0 <= i < |fields| ==> FieldNesting(fields[i]) <= n
    ensures Inner(fields) <= n
  {
    if fields != [] { InnerAtMost(fields[1..], n); }
  }

  // ---- Results ----

  /** Whatever bytes come in for a message, the verifier reads none outside them, and once it passes them no
      accessor of the message does. */
  lemma MessageSound(message: Message, buf: seq<byte>, opts: V.Options)
    requires Sound.Accepts(buf)
    ensures WellFormed(Fields(message))
    ensures !V.VerifyBuffer(buf, Fields(message), opts).Fault?
    ensures V.VerifyBuffer(buf, Fields(message), opts).Pass? ==> ReadBuffer(buf, Fields(message)).Some?
  {
    MessageIsWellFormed(message);
    Sound.VerifierSoundness(buf, Fields(message), opts);
  }

  lemma TextField(buf: seq<byte>, table: int, field: Field)
    requires field.kind.Text? && ReadField(buf, table, field).Some?
    ensures ReadField(buf, table, field).value.Absent? || ReadField(buf, table, field).value.Chars?
  {
    hide GetPointer, GetString, ReadScalar;
    var p := GetPointer(buf, table, field.slot).value;
    if p.Some? { assert ReadObject(buf, p.value, field.kind) == ReadText(buf, p.value); }
  }

  lemma TwoFields(buf: seq<byte>, table: int, fields: seq<Field>)
    requires |fields| == 2 && ReadTable(buf, table, fields).Some?
    ensures var values := ReadTable(buf, table, fields).value;
            |values| == 2 && (fields[0].kind.Text? ==> values[0].Absent? || values[0].Chars?)
  {
    hide ReadField;
    var first, rest := ReadField(buf, table, fields[0]), ReadTable(buf, table, fields[1..]);
    assert ReadTable(buf, table, fields) == Some([first.value] + rest.value);
    assert ReadTable(buf, table, fields[1..][1..]) == Some([]);
    if fields[0].kind.Text? { TextField(buf, table, fields[0]); }
  }

  /** Once a request passes, the handler finds the field it requires: the key to get, the row or rows to put. */
  lemma RequiredFieldThere(message: Message, buf: seq<byte>, opts: V.Options)
    requires Sound.Accepts(buf) && (message.GetRequest? || message.PutRequest? || message.PutBatchRequest?)
    ensures WellFormed(Fields(message))
    ensures V.VerifyBuffer(buf, Fields(message), opts).Pass? ==>
              && ReadBuffer(buf, Fields(message)).Some?
              && var values := ReadBuffer(buf, Fields(message)).value;
                 && |values| == 2
                 && (message.GetRequest? ==> values[0].Chars?)
                 && (message.PutRequest? ==> values[0].Row?)
                 && (message.PutBatchRequest? ==> values[0].List?)
  {
    hide V.VerifyBuffer, FieldValueFields, Exact.GoodBuffer, Exact.Levels, Exact.Rows;
    MessageIsWellFormed(message);
    Exact.VerifierExactly(buf, Fields(message), opts);
    if V.VerifyBuffer(buf, Fields(message), opts).Pass? {
      TwoFields(buf, GetRoot(buf).value, Fields(message));
    }
  }

  /** A message that was built passes the verifier if and only if it does not have too many tables, that is,
      rows and field values, since its tables are never more than three deep; and it reads back as built. */
  lemma MessagePasses(message: Message, forceDefaults: bool, dedup: bool, calls: seq<Call>, root: nat, opts: V.Options)
    requires var s := Run(Spec.Init(forceDefaults, dedup), calls);
             && s.Some? && Allowed(s.value, Finish(root)) && Spec.Finish(s.value, root).Size() < MAX_SIZE
             && TableTyped(s.value.objs, root, Fields(message))
    requires opts.maxDepth >= 3
    ensures WellFormed(Fields(message))
    ensures var s := Run(Spec.Init(forceDefaults, dedup), calls).value;
            var buf := Spec.Finish(s, root).data;
            && (V.VerifyBuffer(buf, Fields(message), opts).Pass? <==> TableExtent(s.objs, root, Fields(message)).tables <= opts.maxTables)
            && ReadBuffer(buf, Fields(message)) == Some(TableTree(s.objs, root, Fields(message)))
  {
    hide Run, Allowed, Spec.Finish, V.VerifyBuffer, ReadBuffer, TableTyped, Fields, Nesting;
    MessageIsWellFormed(message);
    var s := Run(Spec.Init(forceDefaults, dedup), calls).value;
    TableDepth(s.objs, root, Fields(message));
    NestingOf(message);
    F.FinishedRun(forceDefaults, dedup, calls, root, Fields(message), opts);
  }
}
