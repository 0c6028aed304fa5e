/** Where applying messages again goes wrong: arrays, inserts that throw, and tables whose key field has the
    name of a control key. */
module ReplayLimits {
  import opened Wrappers
  import opened Ingest
  import opened IngestOps
  import opened Replay
  import RPC = Handlers

  // ---- Arrays ----

  /** The message appends to some array. */
  ghost predicate Appends(schema: Schema, members: Members) {
    exists i :: 0 <= i < |schema.fields| && AppendsTo(schema, members, i)
  }

  lemma {:induction false} ConvertedLength(conv: Conv, ty: Type, elems: seq<Json>)
    requires Converted(conv, ty, elems).Some?
    ensures |Converted(conv, ty, elems).value| == |elems|
  {
    if elems != [] { ConvertedLength(conv, ty, elems[..|elems| - 1]); }
  }

  lemma TwiceAtField(conv: Conv, def: FieldDef, before: Obs, val: Option<Json>, once: Obs, twice: Obs)
    requires before.Many? == once.Many? == def.isArray
    requires FieldUpserted(conv, def, before, val, once) && FieldUpserted(conv, def, once, val, twice)
    ensures twice == once <==> !(def.isArray && val.Some? && val.value.Array? && val.value.elems != [])
  {
    if def.isArray && val.Some? && val.value.Array? {
      ConvertedLength(conv, def.ty, val.value.elems);
      if val.value.elems != [] {
        assert |twice.vs| == |once.vs| + |val.value.elems|;
      } else {
        assert once.vs + [] == once.vs;
      }
    }
  }

  /** Replaying an applied upsert changes nothing exactly if it appends to no array, or if the document did
      not come to lie under the key the message names, so that it is not found again. */
  lemma UpsertReplay(schema: Schema, conv: Conv, store: Store, members: Members)
    requires WellFormed(schema) && StoreFits(schema, store) && Unique(members)
    requires Upsert(schema, conv, store, members).0.Applied?
    ensures StoreFits(schema, Upsert(schema, conv, store, members).1)
    ensures Upsert(schema, conv, Upsert(schema, conv, store, members).1, members).1 == Upsert(schema, conv, store, members).1
       <==> !Appends(schema, members)
            || KeyOf(schema, Merged(schema, conv, Base(schema, store, ExtractPk(schema, conv, members).1), members).1)
               != ExtractPk(schema, conv, members).1
  {
    hide Merged, MemberFor, FieldUpserted, AppendsTo, KeyOf;
    var pk := ExtractPk(schema, conv, members).1;
    var base := Base(schema, store, pk);
    var once := Merged(schema, conv, base, members).1;
    BasesAgree(schema, conv, base, once, members);
    CopyKeeps(schema, conv, store, members);
    SameOutcome(schema, conv, base, once, members);
    var key := KeyOf(schema, once);
    var s1 := store[key := once];
    if key == pk {
      var twice := Merged(schema, conv, once, members).1;
      SameKeyTwice(schema, conv, base, once, members);
      forall i | 0 <= i < |schema.fields|
        ensures twice[i] == once[i] <==> !AppendsTo(schema, members, i)
      {
        AtField(schema, conv, base, once, twice, members, i);
      }
      assert twice == once <==> forall i :: 0 <= i < |once| ==> twice[i] == once[i];
      assert s1[pk := twice] == s1 <==> twice == once by { assert s1[pk := twice][pk] == twice; }
    } else {
      assert s1[key := once] == s1;
    }
  }

  /** The key does not change when the message is merged once more. */
  lemma SameKeyTwice(schema: Schema, conv: Conv, base: View, once: View, members: Members)
    requires WellFormed(schema) && Fits(schema, base) && Fits(schema, once) && Unique(members)
    requires ExtractPk(schema, conv, members).0.Applied?
    requires Merged(schema, conv, base, members) == (Applied, once) && Merged(schema, conv, once, members).0.Applied?
    ensures KeyOf(schema, Merged(schema, conv, once, members).1) == KeyOf(schema, once)
  {
    hide Merged, KeyOf, ExtractPk;
    MergedKey(schema, conv, base, members);
    MergedKey(schema, conv, once, members);
  }

  lemma AtField(schema: Schema, conv: Conv, base: View, once: View, twice: View, members: Members, i: nat)
    requires WellFormed(schema) && Fits(schema, base) && Fits(schema, once) && Unique(members) && i < |schema.fields|
    requires Merged(schema, conv, base, members) == (Applied, once) && Merged(schema, conv, once, members) == (Applied, twice)
    ensures twice[i] == once[i] <==> !AppendsTo(schema, members, i)
  {
    hide Merged, MemberFor, FieldUpserted;
    MergedFieldwise(schema, conv, base, members, i);
    MergedFieldwise(schema, conv, once, members, i);
    TwiceAtField(conv, schema.fields[i], base[i], MemberFor(schema, members, i), once[i], twice[i]);
  }

  lemma BasesAgree(schema: Schema, conv: Conv, base: View, once: View, members: Members)
    requires Fits(schema, base) && Merged(schema, conv, base, members).1 == once
    ensures Fits(schema, once)
  {
  }

  /** The second upsert starts from the document the first one stored: it has no boolean array left. */
  lemma CopyKeeps(schema: Schema, conv: Conv, store: Store, members: Members)
    requires WellFormed(schema) && StoreFits(schema, store) && Unique(members)
    requires Upsert(schema, conv, store, members).0.Applied?
    ensures var pk := ExtractPk(schema, conv, members).1;
            var once := Merged(schema, conv, Base(schema, store, pk), members).1;
            Copied(schema, once) == once
  {
    var pk := ExtractPk(schema, conv, members).1;
    var base := Base(schema, store, pk);
    var once := Merged(schema, conv, base, members).1;
    forall i | 0 <= i < |once| && IsBoolArray(schema.fields[i])
      ensures once[i] == Many([])
    {
      MergedFieldwise(schema, conv, base, members, i);
    }
    CopyPreserves(schema, once);
  }

  // ---- Messages of a key alone ----

  /** The key a message names, alone: by itself an upsert. */
  function KeyOnly(schema: Schema, members: Members): Members {
    var pv := Lookup(members, schema.pk);
    if pv.Some? then [(schema.pk, pv.value)] else []
  }

  function Deletion(schema: Schema, members: Members): Members {
    [("_op", Str("delete"))] + KeyOnly(schema, members)
  }

  lemma KeyOnlyLooks(schema: Schema, members: Members)
    requires schema.pk != "_op" && Lookup(members, schema.pk).Some?
    ensures var pv := Lookup(members, schema.pk);
            && KeyOnly(schema, members) == [(schema.pk, pv.value)]
            && Lookup(KeyOnly(schema, members), schema.pk) == pv && Lookup(KeyOnly(schema, members), "_op") == None
            && Lookup(Deletion(schema, members), schema.pk) == pv && Lookup(Deletion(schema, members), "_op") == Some(Str("delete"))
            && Unique(KeyOnly(schema, members)) && Unique(Deletion(schema, members))
  {
    var pv := Lookup(members, schema.pk).value;
    var both: Members := [("_op", Str("delete")), (schema.pk, pv)];
    assert Deletion(schema, members) == both;
    assert both[..1] == [("_op", Str("delete"))];
    assert [("_op", Str("delete"))][..0] == [];
    assert [(schema.pk, pv)][..0] == [];
  }

  /** Both name the key of the message they were made from. */
  lemma SameKeyNamed(schema: Schema, conv: Conv, members: Members)
    requires schema.pk != "_op" && ExtractPk(schema, conv, members).0.Applied?
    ensures ExtractPk(schema, conv, KeyOnly(schema, members)) == ExtractPk(schema, conv, members)
    ensures ExtractPk(schema, conv, Deletion(schema, members)) == ExtractPk(schema, conv, members)
    ensures Operation(KeyOnly(schema, members)) == "" && Operation(Deletion(schema, members)) == "delete"
  {
    hide Lookup;
    KeyOnlyLooks(schema, members);
    assert Lower("delete") == "delete";
  }

  lemma KeyOnlyMerges(schema: Schema, conv: Conv, members: Members, view: View)
    requires WellFormed(schema) && schema.pk != "_op" && ExtractPk(schema, conv, members).0.Applied? && Fits(schema, view)
    ensures Merged(schema, conv, view, KeyOnly(schema, members)).0.Applied?
  {
    hide Lookup;
    KeyOnlyLooks(schema, members);
    var only := KeyOnly(schema, members);
    assert only[..0] == [];
    assert Merged(schema, conv, view, only[..0]) == (Applied, view);
    var at := FindField(schema, schema.pk).value;
    assert !schema.fields[at].isArray;
  }

  lemma KeyOnlyWrites(schema: Schema, conv: Conv, members: Members)
    requires WellFormed(schema) && schema.pk != "_op" && ExtractPk(schema, conv, members).0.Applied?
    ensures Writes(schema, conv, KeyOnly(schema, members)) && IsUpsert(KeyOnly(schema, members)) && Unique(KeyOnly(schema, members))
    ensures Named(schema, conv, KeyOnly(schema, members)) == Named(schema, conv, members)
  {
    hide Lookup, Merged;
    SameKeyNamed(schema, conv, members);
    EmptyFits(schema);
    KeyOnlyMerges(schema, conv, members, EmptyView(schema));
    KeyOnlyLooks(schema, members);
  }

  /** Where the upsert of a key alone puts a document. */
  function Goes(schema: Schema, store: Store, pk: string): string {
    if IsControl(schema.pk) && pk !in store then Home(schema) else pk
  }

  lemma KeyOnlyPuts(schema: Schema, conv: Conv, members: Members, store: Store)
    requires WellFormed(schema) && schema.pk != "_op" && ExtractPk(schema, conv, members).0.Applied? && StoreFits(schema, store)
    requires IsControl(schema.pk) ==> OwnKeys(schema, store)
    ensures ApplyObject(schema, conv, store, KeyOnly(schema, members)).0.Applied?
    ensures var after := ApplyObject(schema, conv, store, KeyOnly(schema, members)).1;
            var key := Goes(schema, store, Named(schema, conv, members));
            && StoreFits(schema, after) && key in after && after.Keys == store.Keys + {key}
            && (IsControl(schema.pk) ==> OwnKeys(schema, after))
  {
    hide Lookup, Merged, KeyOf, ExtractPk, Home;
    var only := KeyOnly(schema, members);
    KeyOnlyWrites(schema, conv, members);
    WriteGoes(schema, conv, store, only);
    OutcomeIs(schema, conv, Base(schema, store, Named(schema, conv, only)), only);
    ApplyFits(schema, conv, store, only);
  }

  lemma DeletionApplies(schema: Schema, conv: Conv, members: Members, store: Store)
    requires schema.pk != "_op" && ExtractPk(schema, conv, members).0.Applied? && StoreFits(schema, store)
    ensures ApplyObject(schema, conv, store, Deletion(schema, members)) == (Applied, store - {ExtractPk(schema, conv, members).1})
  {
    hide Lookup;
    SameKeyNamed(schema, conv, members);
  }

  lemma BothSafe(schema: Schema, conv: Conv, members: Members)
    requires WellFormed(schema) && schema.pk != "_op" && ExtractPk(schema, conv, members).0.Applied?
    ensures Safe(schema, conv, KeyOnly(schema, members)) && Safe(schema, conv, Deletion(schema, members))
  {
    hide Lookup, MergeOutcome;
    KeyOnlyLooks(schema, members);
    SameKeyNamed(schema, conv, members);
    KeyOnlyAppends(schema, members);
  }

  lemma KeyOnlyAppends(schema: Schema, members: Members)
    requires WellFormed(schema) && schema.pk != "_op" && Lookup(members, schema.pk).Some?
    ensures forall i :: 0 <= i < |schema.fields| ==> !AppendsTo(schema, KeyOnly(schema, members), i)
  {
    hide Lookup;
    KeyOnlyLooks(schema, members);
  }

  /** An otherwise empty document under the key a message names. */
  function Keyed(schema: Schema, conv: Conv, members: Members): (view: View)
    requires ExtractPk(schema, conv, members).0.Applied?
    ensures |view| == |schema.fields|
  {
    var at := FindField(schema, schema.pk).value;
    EmptyView(schema)[at := One(conv(schema.fields[at].ty, Lookup(members, schema.pk).value).value)]
  }

  lemma KeyedIs(schema: Schema, conv: Conv, members: Members)
    requires WellFormed(schema) && ExtractPk(schema, conv, members).0.Applied?
    ensures var store: Store := map[Named(schema, conv, members) := Keyed(schema, conv, members)];
            StoreFits(schema, store) && OwnKeys(schema, store)
  {
    hide Lookup;
    EmptyFits(schema);
  }

  /** With an ordinary key field the upsert of the key alone makes it. */
  lemma KeyOnlyMakes(schema: Schema, conv: Conv, members: Members)
    requires WellFormed(schema) && !IsControl(schema.pk) && ExtractPk(schema, conv, members).0.Applied?
    ensures StoreFits(schema, map[])
    ensures ApplyObject(schema, conv, map[], KeyOnly(schema, members)).1
         == map[Named(schema, conv, members) := Keyed(schema, conv, members)]
  {
    hide Lookup;
    var only := KeyOnly(schema, members);
    KeyOnlyLooks(schema, members);
    SameKeyNamed(schema, conv, members);
    EmptyFits(schema);
    assert only[..0] == [];
    assert Merged(schema, conv, EmptyView(schema), only[..0]) == (Applied, EmptyView(schema));
    KeyedIs(schema, conv, members);
    assert Merged(schema, conv, EmptyView(schema), only) == (Applied, Keyed(schema, conv, members));
  }

  /** With any key field of a type RPCs support, a put makes it. */
  lemma PutMakes(schema: Schema, conv: Conv, members: Members) returns (row: RPC.Row)
    requires WellFormed(schema) && ExtractPk(schema, conv, members).0.Applied?
    requires RPC.RpcKeyed(schema) && Named(schema, conv, members) != ""
    ensures RPC.PutRow(schema, map[], row) == (true, map[Named(schema, conv, members) := Keyed(schema, conv, members)])
  {
    hide Lookup;
    var at := FindField(schema, schema.pk).value;
    var def := schema.fields[at];
    row := [RPC.FieldValue(def.fieldId, RPC.Sent(def), Some(conv(def.ty, Lookup(members, schema.pk).value).value), None)];
    RPC.FindsItsField(schema, at);
    assert row[..0] == [];
    assert RPC.RowApplied(schema, EmptyView(schema), row[..0]) == Some(EmptyView(schema));
    assert RPC.RowApplied(schema, EmptyView(schema), row) == Some(Keyed(schema, conv, members));
    KeyedIs(schema, conv, members);
  }

  lemma NoneYet(schema: Schema, conv: Conv, store: Store, items: seq<Members>)
    requires StoreFits(schema, store)
    ensures ApplyItems(schema, conv, store, items[..0]) == (false, store)
  {
  }

  /** Two objects of which the first one does not throw. */
  lemma Two(schema: Schema, conv: Conv, store: Store, items: seq<Members>)
    requires StoreFits(schema, store) && |items| >= 2
    requires !ApplyObject(schema, conv, store, items[0]).0.Thrown?
    ensures var s1 := ApplyObject(schema, conv, store, items[0]).1;
            && StoreFits(schema, s1)
            && ApplyItems(schema, conv, store, items[..2]) ==
               (ApplyObject(schema, conv, s1, items[1]).0.Thrown?, ApplyObject(schema, conv, s1, items[1]).1)
  {
    hide ApplyObject, ApplyItems;
    NoneYet(schema, conv, store, items);
    OneMore(schema, conv, store, items, 0);
    OneMore(schema, conv, store, items, 1);
  }

  lemma Three(schema: Schema, conv: Conv, store: Store, items: seq<Members>)
    requires StoreFits(schema, store) && |items| == 3
    requires !ApplyObject(schema, conv, store, items[0]).0.Thrown?
    requires var s1 := ApplyObject(schema, conv, store, items[0]).1;
             StoreFits(schema, s1) && !ApplyObject(schema, conv, s1, items[1]).0.Thrown?
    ensures var s1 := ApplyObject(schema, conv, store, items[0]).1;
            var s2 := ApplyObject(schema, conv, s1, items[1]).1;
            && StoreFits(schema, s2)
            && ApplyItems(schema, conv, store, items[..2]).1 == s2
            && ApplyItems(schema, conv, store, items).1 == ApplyObject(schema, conv, s2, items[2]).1
  {
    hide ApplyObject, ApplyItems;
    Two(schema, conv, store, items);
    OneMore(schema, conv, store, items, 2);
    assert items[..3] == items;
  }

  lemma ThrownFirst(schema: Schema, conv: Conv, store: Store, a: Members, b: Members, c: Members)
    requires StoreFits(schema, store) && ApplyObject(schema, conv, store, a) == (Thrown, store)
    ensures ApplyItems(schema, conv, store, [a, b, c]).1 == store
  {
    hide ApplyObject, ApplyItems;
    NoneYet(schema, conv, store, [a, b, c]);
    OneMore(schema, conv, store, [a, b, c], 0);
    ThrownStays(schema, conv, store, [a, b, c], 1);
  }

  // ---- Objects and messages that cannot be applied again ----

  ghost predicate Replays(schema: Schema, conv: Conv, store: Store, items: seq<Members>, n: nat)
    requires StoreFits(schema, store) && n <= |items|
  {
    ApplyItems(schema, conv, ApplyItems(schema, conv, store, items[..n]).1, items) == ApplyItems(schema, conv, store, items)
  }

  /** An insert that throws when there is something to insert is skipped without a look at its fields while
      its key exists.  Let a message hold the insert, a deletion of the key and another upsert of it: a crash
      after the deletion, and the replay loses the upsert. */
  lemma ThrowingInsertLoses(schema: Schema, conv: Conv, members: Members)
    requires WellFormed(schema) && schema.pk != "_op" && Unique(members) && Shaky(schema, conv, members)
    ensures var pk := Named(schema, conv, members);
            var store: Store := map[pk := Keyed(schema, conv, members)];
            var items := [members, Deletion(schema, members), KeyOnly(schema, members)];
            && StoreFits(schema, store) && AllSafe(schema, conv, items)
            && ApplyItems(schema, conv, store, items).1.Keys == {Goes(schema, map[], pk)}
            && ApplyItems(schema, conv, ApplyItems(schema, conv, store, items[..2]).1, items).1 == map[]
  {
    hide Lookup, Merged, KeyOf, ExtractPk, Operation, ApplyItems, KeyOnly, Deletion, WellFormed, Keyed, OwnKeys;
    var pk := Named(schema, conv, members);
    var only, gone := KeyOnly(schema, members), Deletion(schema, members);
    var store: Store := map[pk := Keyed(schema, conv, members)];
    var items := [members, gone, only];
    BothSafe(schema, conv, members);
    KeyedIs(schema, conv, members);
    assert ApplyObject(schema, conv, store, members) == (Rejected, store);
    DeletionApplies(schema, conv, members, store);
    assert store - {pk} == map[];
    Three(schema, conv, store, items);
    NothingOwned(schema);
    KeyOnlyPuts(schema, conv, members, map[]);
    ThrownFirst(schema, conv, map[], members, gone, only);
  }

  lemma NothingOwned(schema: Schema)
    ensures StoreFits(schema, map[]) && OwnKeys(schema, map[])
  {
  }

  lemma AppendingShows(schema: Schema, conv: Conv, members: Members)
    requires WellFormed(schema) && Unique(members) && IsUpsert(members) && !Safe(schema, conv, members)
    requires ExtractPk(schema, conv, members).0.Applied?
    ensures var store: Store := map[Named(schema, conv, members) := Keyed(schema, conv, members)];
            && StoreFits(schema, store)
            && var s := ApplyObject(schema, conv, store, members).1;
               StoreFits(schema, s) && ApplyObject(schema, conv, s, members).1 != s
  {
    hide WellFormed, Merged, KeyOf, Lookup, ExtractPk, AppendsTo, Keyed, Home;
    var store: Store := map[Named(schema, conv, members) := Keyed(schema, conv, members)];
    KeyedIs(schema, conv, members);
    var base := Base(schema, store, Named(schema, conv, members));
    OutcomeIs(schema, conv, base, members);
    WriteGoes(schema, conv, store, members);
    UpsertReplay(schema, conv, store, members);
  }

  /** So the safe objects are exactly those that can be applied again by themselves: of any other one there is a
      store, of a single document under its own key, in which a crash right after it shows. */
  lemma UnsafeShows(schema: Schema, conv: Conv, members: Members)
    requires WellFormed(schema) && Unique(members) && !Safe(schema, conv, members)
    ensures ExtractPk(schema, conv, members).0.Applied?
    ensures var store: Store := map[Named(schema, conv, members) := Keyed(schema, conv, members)];
            && StoreFits(schema, store) && OwnKeys(schema, store)
            && !Replays(schema, conv, store, [members], 1)
  {
    hide WellFormed, Merged, KeyOf, Lookup, ExtractPk, ApplyItems, ApplyObject, Keyed, OwnKeys, StoreFits;
    var store: Store := map[Named(schema, conv, members) := Keyed(schema, conv, members)];
    KeyedIs(schema, conv, members);
    assert [members][..1] == [members];
    OneItem(schema, conv, store, members);
    AppendingShows(schema, conv, members);
    OneItem(schema, conv, ApplyObject(schema, conv, store, members).1, members);
  }

  // ---- Tables whose key field has the name of a control key ----

  /** Puts and messages leave every document under its own key. */
  lemma OwnKeysKept(schema: Schema, conv: Conv, store: Store, members: Members, row: RPC.Row)
    requires StoreFits(schema, store) && OwnKeys(schema, store)
    ensures OwnKeys(schema, ApplyObject(schema, conv, store, members).1)
    ensures OwnKeys(schema, RPC.PutRow(schema, store, row).1)
  {
    hide Merged, KeyOf, ExtractPk, RPC.RowApplied;
    EmptyFits(schema);
  }

  ghost predicate SafeMessage(schema: Schema, conv: Conv, items: seq<Members>) {
    AllSafe(schema, conv, items) && Steady(schema, conv, items)
  }

  /** Whatever safe messages the store gets, and wherever they are cut off. */
  ghost predicate AlwaysReplays(schema: Schema, conv: Conv, store: Store)
    requires StoreFits(schema, store)
  {
    forall items: seq<Members>, n: nat :: n <= |items| && SafeMessage(schema, conv, items) ==> Replays(schema, conv, store, items, n)
  }

  /** How the JSON library reads string keys: only from strings, and as they are; and numbers from none. */
  ghost predicate KeepsStrings(conv: Conv) {
    forall j: Json ::
      && conv(String, j) == (if j.Str? then Some(Text(j.s)) else None)
      && conv(Bytes, j) == (if j.Str? then Some(Text(j.s)) else None)
      && (j.Str? ==> conv(Int32, j).None? && conv(Int64, j).None?)
  }

  /** With the key field named `_op`, a message that deletes names a key spelt "delete", and one that writes
      names one spelt "insert" or "upsert", or the default key, or a number. */
  lemma OpNames(schema: Schema, conv: Conv, members: Members)
    requires schema.pk == "_op" && KeepsStrings(conv) && ExtractPk(schema, conv, members).0.Applied?
    ensures var k := Named(schema, conv, members);
            && (Removes(schema, conv, members) ==> Lower(k) == "delete" && !SpeltAsNumber(schema))
            && (Writes(schema, conv, members) && !SpeltAsNumber(schema) ==> Lower(k) == "insert" || Lower(k) == "upsert" || k == Home(schema))
  {
    hide Merged, MergeOutcome;
    var at := FindField(schema, "_op").value;
    var pv := Lookup(members, "_op").value;
    assert conv(schema.fields[at].ty, pv).Some?;
    if pv.Str? { LowerEmpty(pv.s); }
  }

  predicate SpeltAsNumber(schema: Schema) {
    var at := FindField(schema, schema.pk);
    at.Some? && (schema.fields[at.value].ty.Int32? || schema.fields[at.value].ty.Int64?)
  }

  lemma LowerEmpty(s: string)
    ensures Lower(s) == "" <==> s == ""
  {
    assert |Lower(s)| == |s|;
  }

  lemma OpApart(schema: Schema, conv: Conv, held: set<string>, all: seq<Members>)
    requires schema.pk == "_op" && KeepsStrings(conv)
    ensures Apart(schema, conv, held, all)
  {
    hide Clash;
    forall x, y | x in all && y in all
      ensures !Clash(schema, conv, x, y)
    {
      NoClash(schema, conv, x, y);
    }
  }

  lemma NoClash(schema: Schema, conv: Conv, x: Members, y: Members)
    requires schema.pk == "_op" && KeepsStrings(conv)
    ensures !Clash(schema, conv, x, y)
  {
    hide Merged, MergeOutcome, KeepsStrings, Lower, Home, Operation, Lookup;
    if ExtractPk(schema, conv, x).0.Applied? && ExtractPk(schema, conv, y).0.Applied? {
      OpNames(schema, conv, x);
      OpNames(schema, conv, y);
    }
  }

  /** Nor is the key of an insert ever written or removed. */
  lemma OpSteady(schema: Schema, conv: Conv, all: seq<Members>)
    requires schema.pk == "_op" && KeepsStrings(conv)
    ensures Steady(schema, conv, all)
  {
    hide Shaky, Disturbs, Named;
    forall x, y | x in all && y in all && Shaky(schema, conv, x)
      ensures !Disturbs(schema, conv, y, Named(schema, conv, x))
    {
      InsertUndisturbed(schema, conv, x, y);
    }
  }

  lemma InsertUndisturbed(schema: Schema, conv: Conv, x: Members, y: Members)
    requires schema.pk == "_op" && KeepsStrings(conv) && Shaky(schema, conv, x)
    ensures !Disturbs(schema, conv, y, Named(schema, conv, x))
  {
    hide Merged, MergeOutcome, KeepsStrings, Lower;
    InsertNames(schema, conv, x);
    if ExtractPk(schema, conv, y).0.Applied? { OpNames(schema, conv, y); }
  }

  lemma InsertNames(schema: Schema, conv: Conv, members: Members)
    requires schema.pk == "_op" && KeepsStrings(conv) && ExtractPk(schema, conv, members).0.Applied?
    requires Operation(members) == "insert"
    ensures Lower(Named(schema, conv, members)) == "insert" && Named(schema, conv, members) != Home(schema)
  {
    var at := FindField(schema, "_op").value;
    var pv := Lookup(members, "_op").value;
    assert conv(schema.fields[at].ty, pv).Some?;
    LowerEmpty(pv.s);
  }

  /** So such tables are even better than others: any objects can be applied again but upserts that append. */
  lemma OpReplay(schema: Schema, conv: Conv, store: Store, items: seq<Members>, n: nat)
    requires WellFormed(schema) && schema.pk == "_op" && KeepsStrings(conv) && StoreFits(schema, store) && OwnKeys(schema, store)
    requires AllSafe(schema, conv, items) && n <= |items|
    ensures Replays(schema, conv, store, items, n)
  {
    hide WellFormed, StoreFits, OwnKeys, Apart, AllSafe, ApplyItems, Steady;
    OpApart(schema, conv, store.Keys, items);
    OpSteady(schema, conv, items);
    CrashReplay(schema, conv, store, items, n);
  }

  lemma OrdinaryReplay(schema: Schema, conv: Conv, store: Store)
    requires WellFormed(schema) && !IsControl(schema.pk) && StoreFits(schema, store)
    ensures AlwaysReplays(schema, conv, store)
  {
    hide WellFormed, StoreFits, AllSafe, Steady, ApplyItems;
    forall items: seq<Members>, n: nat | n <= |items| && SafeMessage(schema, conv, items)
      ensures Replays(schema, conv, store, items, n)
    {
      CrashReplay(schema, conv, store, items, n);
    }
  }

  /** As long as only the default key has a document, `_ts` is no problem either. */
  lemma DefaultReplay(schema: Schema, conv: Conv, store: Store)
    requires WellFormed(schema) && IsControl(schema.pk) && StoreFits(schema, store) && OwnKeys(schema, store)
    requires store.Keys <= {Home(schema)}
    ensures AlwaysReplays(schema, conv, store)
  {
    hide WellFormed, StoreFits, OwnKeys, AllSafe, Steady, ApplyItems, Home, Writes, Removes;
    forall items: seq<Members>, n: nat | n <= |items| && SafeMessage(schema, conv, items)
      ensures Replays(schema, conv, store, items, n)
    {
      CrashReplay(schema, conv, store, items, n);
    }
  }

  /** But where another key has one, its upsert and its deletion are enough: once it is deleted, the upsert
      puts a document under the default key, which was never there. */
  lemma TsReplayFails(schema: Schema, conv: Conv, members: Members, store: Store)
    requires WellFormed(schema) && schema.pk == "_ts" && StoreFits(schema, store) && OwnKeys(schema, store)
    requires ExtractPk(schema, conv, members).0.Applied?
    requires Named(schema, conv, members) in store && Named(schema, conv, members) != Home(schema) && Home(schema) !in store
    ensures var items := [KeyOnly(schema, members), Deletion(schema, members)];
            && SafeMessage(schema, conv, items)
            && Home(schema) !in ApplyItems(schema, conv, store, items).1
            && Home(schema) in ApplyItems(schema, conv, ApplyItems(schema, conv, store, items[..2]).1, items).1
  {
    hide Lookup, Merged, KeyOf, ExtractPk, ApplyItems, ApplyObject, KeyOnly, Deletion, WellFormed, Home, OwnKeys, Safe, StoreFits, Operation;
    var only, gone := KeyOnly(schema, members), Deletion(schema, members);
    var items := [only, gone];
    assert items[..2] == items;
    BothSafe(schema, conv, members);
    SameKeyNamed(schema, conv, members);
    UpsertThenDelete(schema, conv, members, store);
    UpsertThenDelete(schema, conv, members, ApplyItems(schema, conv, store, items).1);
  }

  /** Both of them, in any store. */
  lemma UpsertThenDelete(schema: Schema, conv: Conv, members: Members, store: Store)
    requires WellFormed(schema) && schema.pk == "_ts" && StoreFits(schema, store) && OwnKeys(schema, store)
    requires ExtractPk(schema, conv, members).0.Applied?
    ensures var items := [KeyOnly(schema, members), Deletion(schema, members)];
            var pk := Named(schema, conv, members);
            var after := ApplyItems(schema, conv, store, items).1;
            && after.Keys == store.Keys + {Goes(schema, store, pk)} - {pk}
            && StoreFits(schema, after) && OwnKeys(schema, after)
  {
    hide Lookup, Merged, KeyOf, ExtractPk, ApplyItems, ApplyObject, KeyOnly, Deletion, WellFormed, Home;
    var only, gone := KeyOnly(schema, members), Deletion(schema, members);
    KeyOnlyPuts(schema, conv, members, store);
    DeletionApplies(schema, conv, members, ApplyObject(schema, conv, store, only).1);
    Two(schema, conv, store, [only, gone]);
    assert [only, gone][..2] == [only, gone];
  }

  ghost predicate Nameable(schema: Schema, conv: Conv, k: string) {
    exists members :: ExtractPk(schema, conv, members) == (Applied, k)
  }

  /** A deletion of the default key before. */
  lemma DeletedBefore(schema: Schema, conv: Conv, home: Members, members: Members, store: Store)
    requires WellFormed(schema) && schema.pk == "_ts" && StoreFits(schema, store) && OwnKeys(schema, store)
    requires ExtractPk(schema, conv, home) == (Applied, Home(schema)) && ExtractPk(schema, conv, members).0.Applied?
    ensures var items := [Deletion(schema, home), KeyOnly(schema, members), Deletion(schema, members)];
            var pk := Named(schema, conv, members);
            var after := ApplyItems(schema, conv, store, items).1;
            && after.Keys == store.Keys - {Home(schema)} + {Goes(schema, store - {Home(schema)}, pk)} - {pk}
            && StoreFits(schema, after) && OwnKeys(schema, after)
  {
    hide Lookup, Merged, KeyOf, ExtractPk, ApplyItems, ApplyObject, KeyOnly, Deletion, WellFormed, Home;
    var left := store - {Home(schema)};
    DeletionApplies(schema, conv, home, store);
    KeyOnlyPuts(schema, conv, members, left);
    DeletionApplies(schema, conv, members, ApplyObject(schema, conv, left, KeyOnly(schema, members)).1);
    Three(schema, conv, store, [Deletion(schema, home), KeyOnly(schema, members), Deletion(schema, members)]);
  }

  lemma AllThreeSafe(schema: Schema, conv: Conv, home: Members, members: Members)
    requires WellFormed(schema) && schema.pk == "_ts"
    requires ExtractPk(schema, conv, home).0.Applied? && ExtractPk(schema, conv, members).0.Applied?
    ensures SafeMessage(schema, conv, [Deletion(schema, home), KeyOnly(schema, members), Deletion(schema, members)])
  {
    hide Safe, ExtractPk, WellFormed, KeyOnly, Deletion, Operation;
    BothSafe(schema, conv, home);
    BothSafe(schema, conv, members);
    SameKeyNamed(schema, conv, home);
    SameKeyNamed(schema, conv, members);
  }

  /** With the key field named `_ts`, safe messages can always be applied again if and only if no key but the
      default one has a document; given that there are messages that name the keys. */
  lemma TsReplayExactly(schema: Schema, conv: Conv, store: Store)
    requires WellFormed(schema) && schema.pk == "_ts" && StoreFits(schema, store) && OwnKeys(schema, store)
    requires forall k :: k in store.Keys + {Home(schema)} ==> Nameable(schema, conv, k)
    ensures AlwaysReplays(schema, conv, store) <==> store.Keys <= {Home(schema)}
  {
    hide WellFormed, StoreFits, OwnKeys, AllSafe, Steady, ApplyItems, Home, ExtractPk, KeyOnly, Deletion;
    if store.Keys <= {Home(schema)} {
      DefaultReplay(schema, conv, store);
    } else {
      var k :| k in store.Keys && k != Home(schema);
      assert Nameable(schema, conv, k) && Nameable(schema, conv, Home(schema));
      var members :| ExtractPk(schema, conv, members) == (Applied, k);
      var home :| ExtractPk(schema, conv, home) == (Applied, Home(schema));
      var items := [Deletion(schema, home), KeyOnly(schema, members), Deletion(schema, members)];
      AllThreeSafe(schema, conv, home, members);
      DeletedBefore(schema, conv, home, members, store);
      var once := ApplyItems(schema, conv, store, items).1;
      DeletedBefore(schema, conv, home, members, once);
      assert items[..3] == items;
      assert Home(schema) !in once && Home(schema) in ApplyItems(schema, conv, once, items).1;
      assert !Replays(schema, conv, store, items, 3);
    }
  }

  // ---- One such table ----

  const TS_AS_KEY := Schema([FieldDef(1, "_ts", false, Int64)], "_ts")

  function Fives(ty: Type, j: Json): Option<Value> {
    if ty.Int64? && j.Literal? then Some(Int(5)) else None
  }

  const FIVE: Members := [("_ts", Literal("5"))]

  lemma TsKey()
    ensures WellFormed(TS_AS_KEY) && FindField(TS_AS_KEY, "_ts") == Some(0) && Home(TS_AS_KEY) == "0"
    ensures ExtractPk(TS_AS_KEY, Fives, FIVE) == (Applied, "5") && Keyed(TS_AS_KEY, Fives, FIVE) == [One(Int(5))]
    ensures RPC.RpcKeyed(TS_AS_KEY)
  {
    assert FIVE[..0] == [];
    assert Digits(5) == "5" && Digits(0) == "0";
  }

  /** A document put by an RPC, its upsert and its deletion: the replay leaves one under "0" behind. */
  lemma ControlKeyReplay() returns (row: RPC.Row)
    ensures var (put, store) := RPC.PutRow(TS_AS_KEY, map[], row);
            var items := [KeyOnly(TS_AS_KEY, FIVE), Deletion(TS_AS_KEY, FIVE)];
            && put && store == map["5" := [One(Int(5))]] && StoreFits(TS_AS_KEY, store)
            && SafeMessage(TS_AS_KEY, Fives, items)
            && "0" !in ApplyItems(TS_AS_KEY, Fives, store, items).1
            && "0" in ApplyItems(TS_AS_KEY, Fives, ApplyItems(TS_AS_KEY, Fives, store, items[..2]).1, items).1
  {
    hide Lookup, FindField, ExtractPk, Operation, Merged, KeyOf, KeyText, ApplyItems, ApplyObject, Safe, Keyed, RPC.PutRow;
    TsKey();
    KeyedIs(TS_AS_KEY, Fives, FIVE);
    row := PutMakes(TS_AS_KEY, Fives, FIVE);
    TsReplayFails(TS_AS_KEY, Fives, FIVE, map["5" := [One(Int(5))]]);
  }
}
