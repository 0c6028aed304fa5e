/** Applying part of a message, and after a crash the whole message again, comes to applying it once. */
module Replay {
  import opened Wrappers
  import opened Ingest
  import opened IngestOps

  // ---- Messages ----

  /** The objects in a payload: one, or the elements of an array that are objects. */
  function ItemsOf(payload: Option<Json>): seq<Members> {
    match payload
    case None => []
    case Some(Object(members)) => [members]
    case Some(Array(elems)) => Objects(elems)
    case _ => []
  }

  function Objects(elems: seq<Json>): seq<Members> {
    if elems == [] then []
    else Objects(elems[..|elems| - 1])
         + if elems[|elems| - 1].Object? then [elems[|elems| - 1].members] else []
  }

  /** The objects of an array are all its elements that are objects, in their order. */
  lemma {:induction false} EveryObject(elems: seq<Json>, i: nat)
    requires i < |elems| && elems[i].Object?
    ensures |Objects(elems[..i])| < |Objects(elems)| && Objects(elems)[|Objects(elems[..i])|] == elems[i].members
    ensures |Objects(elems)| <= |elems|
  {
    var n := |elems| - 1;
    AtMostAll(elems);
    if i < n {
      EveryObject(elems[..n], i);
      assert elems[..n][..i] == elems[..i];
    }
  }

  lemma {:induction false} AtMostAll(elems: seq<Json>)
    ensures |Objects(elems)| == |set i | 0 <= i < |elems| && elems[i].Object?| <= |elems|
  {
    if elems != [] {
      var init, n := elems[..|elems| - 1], |elems| - 1;
      AtMostAll(init);
      var before, all := set i | 0 <= i < |init| && init[i].Object?, set i | 0 <= i < |elems| && elems[i].Object?;
      assert all == before + if elems[n].Object? then {n} else {};
    }
  }

  /** The objects one after the other; an exception drops the rest of the message. */
  function ApplyItems(schema: Schema, conv: Conv, store: Store, items: seq<Members>): (r: (bool, Store))
    requires StoreFits(schema, store)
    ensures StoreFits(schema, r.1)
  {
    if items == [] then (false, store)
    else
      var (thrown, before) := ApplyItems(schema, conv, store, items[..|items| - 1]);
      if thrown then (true, before)
      else
        ApplyFits(schema, conv, before, items[|items| - 1]);
        var (outcome, after) := ApplyObject(schema, conv, before, items[|items| - 1]);
        (outcome.Thrown?, after)
  }

  lemma OneItem(schema: Schema, conv: Conv, store: Store, item: Members)
    requires StoreFits(schema, store)
    ensures var (outcome, after) := ApplyObject(schema, conv, store, item);
            ApplyItems(schema, conv, store, [item]) == (outcome.Thrown?, after)
  {
    hide ApplyObject;
    assert [item][..0] == [];
  }

  lemma OneMore(schema: Schema, conv: Conv, base: Store, items: seq<Members>, k: nat)
    requires StoreFits(schema, base) && k < |items| && !ApplyItems(schema, conv, base, items[..k]).0
    ensures var (outcome, after) := ApplyObject(schema, conv, ApplyItems(schema, conv, base, items[..k]).1, items[k]);
            ApplyItems(schema, conv, base, items[..k + 1]) == (outcome.Thrown?, after)
  {
    hide ApplyObject, ApplyItems, StoreFits;
    var more := items[..k + 1];
    assert more[..k] == items[..k];
    Unfold(schema, conv, base, more);
  }

  lemma Unfold(schema: Schema, conv: Conv, base: Store, items: seq<Members>)
    requires StoreFits(schema, base) && items != []
    ensures var (thrown, before) := ApplyItems(schema, conv, base, items[..|items| - 1]);
            !thrown ==> var (outcome, after) := ApplyObject(schema, conv, before, items[|items| - 1]);
                        ApplyItems(schema, conv, base, items) == (outcome.Thrown?, after)
  {
    hide ApplyObject;
  }

  lemma {:induction false} ThrownStays(schema: Schema, conv: Conv, store: Store, items: seq<Members>, k: nat)
    requires StoreFits(schema, store) && k <= |items| && ApplyItems(schema, conv, store, items[..k]).0
    ensures ApplyItems(schema, conv, store, items) == ApplyItems(schema, conv, store, items[..k])
    decreases |items| - k
  {
    hide ApplyObject;
    if k == |items| {
      assert items[..k] == items;
    } else {
      assert items[..k + 1][..k] == items[..k];
      ThrownStays(schema, conv, store, items, k + 1);
    }
  }

  // ---- Messages that can be applied again ----

  predicate IsUpsert(members: Members) {
    Operation(members) == "upsert" || Operation(members) == ""
  }

  /** How merging the message ends, whatever document it is merged into. */
  function MergeOutcome(schema: Schema, conv: Conv, members: Members): Outcome {
    EmptyFits(schema);
    Merged(schema, conv, EmptyView(schema), members).0
  }

  lemma {:induction false} SameOutcome(schema: Schema, conv: Conv, a: View, b: View, members: Members)
    requires Fits(schema, a) && Fits(schema, b)
    ensures Merged(schema, conv, a, members).0 == Merged(schema, conv, b, members).0
  {
    if members != [] { SameOutcome(schema, conv, a, b, members[..|members| - 1]); }
  }

  lemma OutcomeIs(schema: Schema, conv: Conv, view: View, members: Members)
    requires Fits(schema, view)
    ensures Merged(schema, conv, view, members).0 == MergeOutcome(schema, conv, members)
  {
    EmptyFits(schema);
    SameOutcome(schema, conv, view, EmptyView(schema), members);
  }

  /** The message appends to the array field `i`. */
  predicate AppendsTo(schema: Schema, members: Members, i: nat)
    requires i < |schema.fields|
  {
    var val := MemberFor(schema, members, i);
    schema.fields[i].isArray && val.Some? && val.value.Array? && val.value.elems != []
  }

  /** Not an upsert that is applied and appends to an array. */
  predicate Safe(schema: Schema, conv: Conv, members: Members) {
    && Unique(members)
    && (ExtractPk(schema, conv, members).0.Applied? && IsUpsert(members) && MergeOutcome(schema, conv, members).Applied? ==>
          forall i :: 0 <= i < |schema.fields| ==> !AppendsTo(schema, members, i))
  }

  predicate AllSafe(schema: Schema, conv: Conv, items: seq<Members>) {
    forall j :: 0 <= j < |items| ==> Safe(schema, conv, items[j])
  }

  /** An insert that throws when there is something to insert, and is rejected while its key is there. */
  predicate Shaky(schema: Schema, conv: Conv, members: Members) {
    Operation(members) == "insert" && ExtractPk(schema, conv, members).0.Applied? && MergeOutcome(schema, conv, members).Thrown?
  }

  /** Any other message throws in any store or in none. */
  predicate Throws(schema: Schema, conv: Conv, held: set<string>, members: Members) {
    var found := ExtractPk(schema, conv, members).0;
    || ((IsUpsert(members) || Operation(members) == "insert" || Operation(members) == "delete") && found.Thrown?)
    || (IsUpsert(members) && found.Applied? && MergeOutcome(schema, conv, members).Thrown?)
    || (Shaky(schema, conv, members) && ExtractPk(schema, conv, members).1 !in held)
  }

  // ---- One key ----

  /** What a message sets field `i` to. */
  function Assigned(schema: Schema, conv: Conv, members: Members, i: nat): Option<Obs>
    requires i < |schema.fields|
  {
    var val := MemberFor(schema, members, i);
    if val.None? || schema.fields[i].isArray then None
    else
      var v := conv(schema.fields[i].ty, val.value);
      if v.None? then None else Some(One(v.value))
  }

  /** `New` is a message for a key that is not there and that it cannot give to a document: it puts a new
      document under the default key, whatever lies there. */
  datatype Op = Ins | Ups | Del | New

  /** The key of a document to which nothing was put. */
  function Home(schema: Schema): string {
    var at := FindField(schema, schema.pk);
    if at.Some? then DefaultKey(schema.fields[at.value].ty) else ""
  }

  /** With the name of a control key, the key field cannot be set; so, but for the default key, only keys that
      are `held` already have documents. */
  predicate Strays(schema: Schema, held: set<string>, pk: string) {
    IsControl(schema.pk) && pk != Home(schema) && pk !in held
  }

  function Named(schema: Schema, conv: Conv, members: Members): string {
    ExtractPk(schema, conv, members).1
  }

  predicate Removes(schema: Schema, conv: Conv, members: Members) {
    ExtractPk(schema, conv, members).0.Applied? && Operation(members) == "delete"
  }

  predicate Writes(schema: Schema, conv: Conv, members: Members) {
    && ExtractPk(schema, conv, members).0.Applied? && MergeOutcome(schema, conv, members).Applied?
    && (Operation(members) == "insert" || IsUpsert(members))
  }

  /** What comes of a message, and for which key; nothing if it fails. */
  function OpOf(schema: Schema, conv: Conv, held: set<string>, members: Members): Option<(string, Op)> {
    var pk := Named(schema, conv, members);
    if Removes(schema, conv, members) then Some((pk, Del))
    else if !Writes(schema, conv, members) then None
    else if Strays(schema, held, pk) then Some((Home(schema), New))
    else Some((pk, if Operation(members) == "insert" then Ins else Ups))
  }

  predicate IsFor(schema: Schema, conv: Conv, held: set<string>, members: Members, k: string) {
    OpOf(schema, conv, held, members).Some? && OpOf(schema, conv, held, members).value.0 == k
  }

  /** The fields a message names, set over a view. */
  function Over(schema: Schema, conv: Conv, view: View, members: Members): (v: View)
    requires |view| == |schema.fields|
    ensures |v| == |view|
  {
    seq(|view|, i requires 0 <= i < |view| =>
      var a := Assigned(schema, conv, members, i); if a.Some? then a.value else view[i])
  }

  /** What one message does to the document of key `k`. */
  function StepKey(schema: Schema, conv: Conv, held: set<string>, state: Option<View>, members: Members, k: string): Option<View>
    requires state.Some? ==> |state.value| == |schema.fields|
  {
    if !IsFor(schema, conv, held, members, k) then state
    else
      match OpOf(schema, conv, held, members).value.1
      case Del => None
      case New =>
        EmptyFits(schema);
        Some(Merged(schema, conv, EmptyView(schema), members).1)
      case Ins =>
        EmptyFits(schema);
        if state.Some? then state else Some(Merged(schema, conv, EmptyView(schema), members).1)
      case Ups =>
        Some(Over(schema, conv, if state.Some? then Copied(schema, state.value) else EmptyView(schema), members))
  }

  function ApplyKey(schema: Schema, conv: Conv, held: set<string>, state: Option<View>, items: seq<Members>, k: string): (r: Option<View>)
    requires state.Some? ==> |state.value| == |schema.fields|
    ensures r.Some? ==> |r.value| == |schema.fields|
  {
    if items == [] then state
    else StepKey(schema, conv, held, ApplyKey(schema, conv, held, state, items[..|items| - 1], k), items[|items| - 1], k)
  }

  function At(store: Store, k: string): Option<View> {
    if k in store then Some(store[k]) else None
  }

  /** An upsert that appends nothing sets the scalars it names and nothing else. */
  lemma SafeMerges(schema: Schema, conv: Conv, view: View, members: Members)
    requires WellFormed(schema) && Fits(schema, view) && Safe(schema, conv, members) && IsUpsert(members)
    requires MergeOutcome(schema, conv, members).Applied? && ExtractPk(schema, conv, members).0.Applied?
    ensures Merged(schema, conv, view, members) == (Applied, Over(schema, conv, view, members))
  {
    OutcomeIs(schema, conv, view, members);
    var out := Merged(schema, conv, view, members).1;
    forall i | 0 <= i < |schema.fields|
      ensures out[i] == Over(schema, conv, view, members)[i]
    {
      MergedFieldwise(schema, conv, view, members, i);
      SafeField(schema, conv, view, members, i, out[i]);
    }
    assert out == Over(schema, conv, view, members);
  }

  lemma SafeField(schema: Schema, conv: Conv, view: View, members: Members, i: nat, after: Obs)
    requires Fits(schema, view) && i < |schema.fields| && !AppendsTo(schema, members, i)
    requires FieldUpserted(conv, schema.fields[i], view[i], MemberFor(schema, members, i), after)
    ensures after == Over(schema, conv, view, members)[i]
  {
    hide Lookup;
    var val := MemberFor(schema, members, i);
    if val.Some? && schema.fields[i].isArray && val.value.Array? {
      assert view[i].vs + [] == view[i].vs;
    }
  }

  // ---- Stores, and the messages they get ----

  /** Every document lies under its own key, as puts and messages leave it. */
  ghost predicate OwnKeys(schema: Schema, store: Store) {
    forall k :: k in store ==> |store[k]| == |schema.fields| && KeyOf(schema, store[k]) == k
  }

  /** Which keys other than the default one have a document does not change where it matters. */
  ghost predicate Tracks(schema: Schema, conv: Conv, held: set<string>, all: seq<Members>, store: Store) {
    forall x :: x in all && Writes(schema, conv, x) && Named(schema, conv, x) != Home(schema) ==>
      (Named(schema, conv, x) in store <==> Named(schema, conv, x) in held)
  }

  /** One message writes and the other removes the same key, not the default one. */
  predicate Clash(schema: Schema, conv: Conv, x: Members, y: Members) {
    && Writes(schema, conv, x) && Removes(schema, conv, y)
    && Named(schema, conv, x) == Named(schema, conv, y) != Home(schema)
  }

  /** No document that is there is both written and removed. */
  ghost predicate Apart(schema: Schema, conv: Conv, held: set<string>, all: seq<Members>) {
    forall x, y :: x in all && y in all && Clash(schema, conv, x, y) ==> Named(schema, conv, x) !in held
  }

  /** The message may put a document under the key, or remove it. */
  predicate Disturbs(schema: Schema, conv: Conv, members: Members, k: string) {
    || (Removes(schema, conv, members) && Named(schema, conv, members) == k)
    || (Writes(schema, conv, members) && k == if IsControl(schema.pk) then Home(schema) else Named(schema, conv, members))
  }

  /** Whether there is something to insert does not change for an insert that throws then. */
  ghost predicate Steady(schema: Schema, conv: Conv, all: seq<Members>) {
    forall x, y :: x in all && y in all && Shaky(schema, conv, x) ==> !Disturbs(schema, conv, y, Named(schema, conv, x))
  }

  ghost predicate Knows(schema: Schema, conv: Conv, held: set<string>, all: seq<Members>, store: Store) {
    forall x :: x in all && Shaky(schema, conv, x) ==> (Named(schema, conv, x) in store <==> Named(schema, conv, x) in held)
  }

  /** What the store has to be like for the messages. */
  ghost predicate Ready(schema: Schema, conv: Conv, held: set<string>, all: seq<Members>, store: Store) {
    && WellFormed(schema) && StoreFits(schema, store)
    && Steady(schema, conv, all) && Knows(schema, conv, held, all, store)
    && (IsControl(schema.pk) ==>
          OwnKeys(schema, store) && Tracks(schema, conv, held, all, store) && Apart(schema, conv, held, all))
  }

  predicate AllIn(items: seq<Members>, all: seq<Members>) {
    forall j :: 0 <= j < |items| ==> items[j] in all
  }

  /** The key of a document an operation makes of another one. */
  lemma MadeKey(schema: Schema, conv: Conv, view: View, members: Members)
    requires WellFormed(schema) && Fits(schema, view) && Unique(members) && Writes(schema, conv, members)
    ensures Merged(schema, conv, view, members).0.Applied?
    ensures KeyOf(schema, Merged(schema, conv, view, members).1)
         == if IsControl(schema.pk) then KeyOf(schema, view) else Named(schema, conv, members)
  {
    hide Merged, Lookup, KeyOf, ExtractPk;
    OutcomeIs(schema, conv, view, members);
    MergedKey(schema, conv, view, members);
  }

  lemma CopiedKey(schema: Schema, view: View)
    requires WellFormed(schema) && Fits(schema, view)
    ensures Fits(schema, Copied(schema, view)) && KeyOf(schema, Copied(schema, view)) == KeyOf(schema, view)
  {
    CopiedFits(schema, view);
  }

  /** A write to a key that is there stays there; any other one makes a document under the key it names, or
      under the default key if it cannot. */
  lemma WriteGoes(schema: Schema, conv: Conv, store: Store, members: Members)
    requires WellFormed(schema) && StoreFits(schema, store) && Unique(members) && Writes(schema, conv, members)
    requires IsControl(schema.pk) ==> OwnKeys(schema, store)
    ensures Fits(schema, EmptyView(schema)) && FindField(schema, schema.pk).Some?
    ensures var pk := Named(schema, conv, members);
            var base := Base(schema, store, pk);
            KeyOf(schema, Merged(schema, conv, base, members).1)
            == if IsControl(schema.pk) && pk !in store then Home(schema) else pk
  {
    hide Merged, Lookup, KeyOf;
    EmptyFits(schema);
    var pk := Named(schema, conv, members);
    var base := Base(schema, store, pk);
    MadeKey(schema, conv, base, members);
    if pk in store { CopiedKey(schema, store[pk]); } else { EmptyKey(schema); }
  }

  /** What a safe message does to the store, in one of three ways. */
  lemma SafeEffect(schema: Schema, conv: Conv, held: set<string>, store: Store, members: Members)
    requires WellFormed(schema) && StoreFits(schema, store) && Safe(schema, conv, members)
    requires IsControl(schema.pk) ==> OwnKeys(schema, store)
    requires Shaky(schema, conv, members) ==> (Named(schema, conv, members) in store <==> Named(schema, conv, members) in held)
    ensures ApplyObject(schema, conv, store, members).0.Thrown? == Throws(schema, conv, held, members)
    ensures var pk := Named(schema, conv, members);
            var base := Base(schema, store, pk);
            var after := ApplyObject(schema, conv, store, members).1;
            if Removes(schema, conv, members) then after == store - {pk}
            else if !Writes(schema, conv, members) || (Operation(members) == "insert" && pk in store) then after == store
            else
              var key := if IsControl(schema.pk) && pk !in store then Home(schema) else pk;
              && after == store[key := Merged(schema, conv, base, members).1]
              && KeyOf(schema, after[key]) == key
  {
    hide Merged, Lookup, Safe, MemberFor, KeyOf;
    var pk := Named(schema, conv, members);
    EmptyFits(schema);
    SafeUnique(schema, conv, members);
    OutcomeIs(schema, conv, Base(schema, store, pk), members);
    if Writes(schema, conv, members) { WriteGoes(schema, conv, store, members); }
  }

  lemma SafeUnique(schema: Schema, conv: Conv, members: Members)
    requires Safe(schema, conv, members)
    ensures Unique(members)
  {
  }

  /** What an upsert of a document that is there, or is not, makes of it. */
  lemma SafeDocument(schema: Schema, conv: Conv, store: Store, members: Members)
    requires WellFormed(schema) && StoreFits(schema, store) && Safe(schema, conv, members)
    requires Writes(schema, conv, members) && IsUpsert(members)
    ensures var base := Base(schema, store, Named(schema, conv, members));
            Merged(schema, conv, base, members).1 == Over(schema, conv, base, members)
  {
    hide Merged, Over, Lookup, Safe, MemberFor, KeyOf;
    SafeMerges(schema, conv, Base(schema, store, Named(schema, conv, members)), members);
  }

  /** Applying a safe message to the store is applying it to each key. */
  lemma SafeStep(schema: Schema, conv: Conv, held: set<string>, all: seq<Members>, store: Store, members: Members, k: string)
    requires Ready(schema, conv, held, all, store) && members in all && Safe(schema, conv, members)
    ensures StoreFits(schema, store) && ApplyObject(schema, conv, store, members).0.Thrown? == Throws(schema, conv, held, members)
    ensures At(ApplyObject(schema, conv, store, members).1, k) == StepKey(schema, conv, held, At(store, k), members, k)
  {
    hide Merged, Over, Safe, KeyOf, ApplyObject, ExtractPk, WellFormed, OwnKeys, Apart, MergeOutcome, Throws, Copied, EmptyView,
         Steady, Disturbs, Shaky;
    SafeEffect(schema, conv, held, store, members);
    FitsAt(schema, store, k);
    if Writes(schema, conv, members) && IsUpsert(members) { SafeDocument(schema, conv, store, members); }
  }

  // ---- Twice is once, for one key ----

  predicate Forgets(schema: Schema, conv: Conv, held: set<string>, members: Members, k: string) {
    IsFor(schema, conv, held, members, k) && (OpOf(schema, conv, held, members).value.1.Del? || OpOf(schema, conv, held, members).value.1.New?)
  }

  predicate Upserts(schema: Schema, conv: Conv, held: set<string>, members: Members, k: string) {
    IsFor(schema, conv, held, members, k) && OpOf(schema, conv, held, members).value.1.Ups?
  }

  predicate AnyForgets(schema: Schema, conv: Conv, held: set<string>, items: seq<Members>, k: string) {
    items != [] &&
    (AnyForgets(schema, conv, held, items[..|items| - 1], k) || Forgets(schema, conv, held, items[|items| - 1], k))
  }

  predicate AnyUpsert(schema: Schema, conv: Conv, held: set<string>, items: seq<Members>, k: string) {
    items != [] &&
    (AnyUpsert(schema, conv, held, items[..|items| - 1], k) || Upserts(schema, conv, held, items[|items| - 1], k))
  }

  /** What the last upsert of `k` that names field `i` sets it to. */
  function LastSet(schema: Schema, conv: Conv, held: set<string>, items: seq<Members>, k: string, i: nat): Option<Obs>
    requires i < |schema.fields|
  {
    if items == [] then None
    else
      var last := items[|items| - 1];
      if Upserts(schema, conv, held, last, k) && Assigned(schema, conv, last, i).Some? then Assigned(schema, conv, last, i)
      else LastSet(schema, conv, held, items[..|items| - 1], k, i)
  }

  lemma {:induction false} OnlyScalarsSet(schema: Schema, conv: Conv, held: set<string>, items: seq<Members>, k: string, i: nat)
    requires i < |schema.fields| && schema.fields[i].isArray
    ensures LastSet(schema, conv, held, items, k, i).None?
  {
    if items != [] { OnlyScalarsSet(schema, conv, held, items[..|items| - 1], k, i); }
  }

  /** After a delete the past no longer matters. */
  lemma {:induction false} ForgetsPast(schema: Schema, conv: Conv, held: set<string>, a: Option<View>, b: Option<View>, items: seq<Members>, k: string)
    requires (a.Some? ==> |a.value| == |schema.fields|) && (b.Some? ==> |b.value| == |schema.fields|)
    requires AnyForgets(schema, conv, held, items, k)
    ensures ApplyKey(schema, conv, held, a, items, k) == ApplyKey(schema, conv, held, b, items, k)
  {
    hide Over, OpOf;
    var init := items[..|items| - 1];
    if AnyForgets(schema, conv, held, init, k) {
      ForgetsPast(schema, conv, held, a, b, init, k);
    }
  }

  /** Without deletes, an existing document ends up with the last value set to each field. */
  lemma {:induction false} EndsUpAs(schema: Schema, conv: Conv, held: set<string>, v: View, items: seq<Members>, k: string, i: nat)
    requires |v| == |schema.fields| && i < |v| && !AnyForgets(schema, conv, held, items, k)
    ensures ApplyKey(schema, conv, held, Some(v), items, k).Some?
    ensures var last := LastSet(schema, conv, held, items, k, i);
            ApplyKey(schema, conv, held, Some(v), items, k).value[i]
            == if last.Some? then last.value else if AnyUpsert(schema, conv, held, items, k) then Copied(schema, v)[i] else v[i]
  {
    hide OpOf, Assigned;
    if items != [] {
      EndsUpAs(schema, conv, held, v, items[..|items| - 1], k, i);
      if schema.fields[i].isArray { OnlyScalarsSet(schema, conv, held, items, k, i); OnlyScalarsSet(schema, conv, held, items[..|items| - 1], k, i); }
    }
  }

  /** If nothing came of the messages for a key that was not there, none of them was an upsert. */
  lemma {:induction false} NothingCame(schema: Schema, conv: Conv, held: set<string>, items: seq<Members>, k: string, i: nat)
    requires i < |schema.fields| && !AnyForgets(schema, conv, held, items, k) && ApplyKey(schema, conv, held, None, items, k).None?
    ensures !AnyUpsert(schema, conv, held, items, k) && LastSet(schema, conv, held, items, k, i).None?
  {
    hide Over, Assigned;
    if items != [] {
      NothingCame(schema, conv, held, items[..|items| - 1], k, i);
    }
  }

  /** The outcome already has what the messages set. */
  predicate Settled(schema: Schema, conv: Conv, held: set<string>, r: View, items: seq<Members>, k: string, i: nat)
    requires |r| == |schema.fields| && i < |r|
  {
    && (LastSet(schema, conv, held, items, k, i).Some? ==> r[i] == LastSet(schema, conv, held, items, k, i).value)
    && (AnyUpsert(schema, conv, held, items, k) && IsBoolArray(schema.fields[i]) ==> r[i] == Many([]))
  }

  lemma {:induction false} Settles(schema: Schema, conv: Conv, held: set<string>, items: seq<Members>, k: string, i: nat)
    requires i < |schema.fields| && !AnyForgets(schema, conv, held, items, k)
    requires ApplyKey(schema, conv, held, None, items, k).Some?
    ensures Settled(schema, conv, held, ApplyKey(schema, conv, held, None, items, k).value, items, k, i)
  {
    hide OpOf, Assigned;
    if items != [] {
      var init := items[..|items| - 1];
      if schema.fields[i].isArray { OnlyScalarsSet(schema, conv, held, items, k, i); }
      if ApplyKey(schema, conv, held, None, init, k).Some? {
        Settles(schema, conv, held, init, k, i);
      } else {
        NothingCame(schema, conv, held, init, k, i);
      }
    }
  }

  /** For one key, applying the messages again changes nothing. */
  lemma TwiceIsOnce(schema: Schema, conv: Conv, held: set<string>, state: Option<View>, items: seq<Members>, k: string)
    requires state.Some? ==> |state.value| == |schema.fields|
    ensures ApplyKey(schema, conv, held, ApplyKey(schema, conv, held, state, items, k), items, k) == ApplyKey(schema, conv, held, state, items, k)
  {
    hide StepKey, LastSet, AnyForgets, AnyUpsert;
    var once := ApplyKey(schema, conv, held, state, items, k);
    if AnyForgets(schema, conv, held, items, k) {
      ForgetsPast(schema, conv, held, once, state, items, k);
    } else if once.Some? {
      var twice := ApplyKey(schema, conv, held, once, items, k);
      if |schema.fields| > 0 { EndsUpAs(schema, conv, held, once.value, items, k, 0); } else { StaysThere(schema, conv, held, once.value, items, k); }
      forall i | 0 <= i < |schema.fields|
        ensures twice.value[i] == once.value[i]
      {
        EndsUpAs(schema, conv, held, once.value, items, k, i);
        if state.Some? { EndsUpAs(schema, conv, held, state.value, items, k, i); ScalarOrNot(schema, conv, held, items, k, i); }
        else { Settles(schema, conv, held, items, k, i); }
      }
      assert twice.value == once.value;
    } else {
      if state.Some? { StaysThere(schema, conv, held, state.value, items, k); }
    }
  }

  lemma ScalarOrNot(schema: Schema, conv: Conv, held: set<string>, items: seq<Members>, k: string, i: nat)
    requires i < |schema.fields|
    ensures schema.fields[i].isArray ==> LastSet(schema, conv, held, items, k, i).None?
  {
    if schema.fields[i].isArray { OnlyScalarsSet(schema, conv, held, items, k, i); }
  }

  lemma {:induction false} StaysThere(schema: Schema, conv: Conv, held: set<string>, v: View, items: seq<Members>, k: string)
    requires |v| == |schema.fields| && !AnyForgets(schema, conv, held, items, k)
    ensures ApplyKey(schema, conv, held, Some(v), items, k).Some?
  {
    hide Over, Assigned;
    if items != [] {
      StaysThere(schema, conv, held, v, items[..|items| - 1], k);
    }
  }

  // ---- Twice is once, for the store ----

  lemma {:induction false} ApplyKeyAppend(schema: Schema, conv: Conv, held: set<string>, state: Option<View>, p: seq<Members>, q: seq<Members>, k: string)
    requires state.Some? ==> |state.value| == |schema.fields|
    ensures ApplyKey(schema, conv, held, state, p + q, k) == ApplyKey(schema, conv, held, ApplyKey(schema, conv, held, state, p, k), q, k)
    decreases |q|
  {
    hide StepKey;
    if q == [] {
      assert p + q == p;
    } else {
      assert (p + q)[..|p + q| - 1] == p + q[..|q| - 1];
      ApplyKeyAppend(schema, conv, held, state, p, q[..|q| - 1], k);
    }
  }

  /** None of the messages throws. */
  predicate Calm(schema: Schema, conv: Conv, held: set<string>, items: seq<Members>) {
    forall j :: 0 <= j < |items| ==> Safe(schema, conv, items[j]) && !Throws(schema, conv, held, items[j])
  }

  lemma {:induction false} ItemsAt(schema: Schema, conv: Conv, held: set<string>, all: seq<Members>, store: Store, items: seq<Members>, k: string)
    requires Ready(schema, conv, held, all, store) && Calm(schema, conv, held, items) && AllIn(items, all)
    ensures StoreFits(schema, store) && !ApplyItems(schema, conv, store, items).0
    ensures Ready(schema, conv, held, all, ApplyItems(schema, conv, store, items).1)
    ensures At(store, k).Some? ==> |At(store, k).value| == |schema.fields|
    ensures At(ApplyItems(schema, conv, store, items).1, k) == ApplyKey(schema, conv, held, At(store, k), items, k)
  {
    hide StepKey, ApplyObject, Safe, WellFormed, Throws, Ready;
    ReadyFits(schema, conv, held, all, store);
    FitsAt(schema, store, k);
    if items != [] {
      var init, last := items[..|items| - 1], items[|items| - 1];
      assert Safe(schema, conv, last) && !Throws(schema, conv, held, last) && last in all;
      ItemsAt(schema, conv, held, all, store, init, k);
      SafeStep(schema, conv, held, all, ApplyItems(schema, conv, store, init).1, last, k);
      StepReady(schema, conv, held, all, ApplyItems(schema, conv, store, init).1, last);
    }
  }

  lemma ReadyFits(schema: Schema, conv: Conv, held: set<string>, all: seq<Members>, store: Store)
    requires Ready(schema, conv, held, all, store)
    ensures WellFormed(schema) && StoreFits(schema, store)
  {
  }

  lemma Undisturbed(schema: Schema, conv: Conv, held: set<string>, all: seq<Members>, store: Store, members: Members, k: string)
    requires Ready(schema, conv, held, all, store) && members in all && Safe(schema, conv, members)
    requires !Disturbs(schema, conv, members, k)
    ensures StoreFits(schema, store) && (k in ApplyObject(schema, conv, store, members).1 <==> k in store)
  {
    hide Merged, Safe, KeyOf, ApplyObject, ExtractPk, WellFormed, MergeOutcome, Throws, Copied, EmptyView, Home, Base, Shaky,
         Steady, OwnKeys, Tracks, Apart, StoreFits;
    SafeEffect(schema, conv, held, store, members);
  }

  lemma StepKnows(schema: Schema, conv: Conv, held: set<string>, all: seq<Members>, store: Store, members: Members)
    requires Ready(schema, conv, held, all, store) && members in all && Safe(schema, conv, members)
    ensures StoreFits(schema, store) && Knows(schema, conv, held, all, ApplyObject(schema, conv, store, members).1)
  {
    hide Safe, ApplyObject, ExtractPk, Named, WellFormed, Shaky, Disturbs, OwnKeys, Tracks, Apart, StoreFits;
    forall x | x in all && Shaky(schema, conv, x)
      ensures Named(schema, conv, x) in ApplyObject(schema, conv, store, members).1 <==> Named(schema, conv, x) in held
    {
      Undisturbed(schema, conv, held, all, store, members, Named(schema, conv, x));
    }
  }

  lemma StepControl(schema: Schema, conv: Conv, held: set<string>, all: seq<Members>, store: Store, members: Members)
    requires Ready(schema, conv, held, all, store) && members in all && Safe(schema, conv, members) && IsControl(schema.pk)
    ensures StoreFits(schema, store) && OwnKeys(schema, ApplyObject(schema, conv, store, members).1)
    ensures Tracks(schema, conv, held, all, ApplyObject(schema, conv, store, members).1)
  {
    hide Merged, Safe, KeyOf, ApplyObject, ExtractPk, WellFormed, MergeOutcome, Throws, Copied, EmptyView, Home, Base, Shaky,
         Steady;
    SafeEffect(schema, conv, held, store, members);
    ApplyFits(schema, conv, store, members);
  }

  /** A safe message keeps the store as it has to be. */
  lemma StepReady(schema: Schema, conv: Conv, held: set<string>, all: seq<Members>, store: Store, members: Members)
    requires Ready(schema, conv, held, all, store) && members in all && Safe(schema, conv, members)
    ensures StoreFits(schema, store) && Ready(schema, conv, held, all, ApplyObject(schema, conv, store, members).1)
  {
    hide Safe, ApplyObject, WellFormed, StoreFits, OwnKeys, Tracks, Apart, Steady, Knows;
    StepKnows(schema, conv, held, all, store, members);
    if IsControl(schema.pk) { StepControl(schema, conv, held, all, store, members); }
    ApplyFits(schema, conv, store, members);
  }

  lemma SameStore(a: Store, b: Store)
    requires forall k :: At(a, k) == At(b, k)
    ensures a == b
  {
    forall k | k in a ensures k in b && a[k] == b[k] { assert At(a, k) == At(b, k); }
    forall k | k in b ensures k in a { assert At(a, k) == At(b, k); }
  }

  lemma CalmReplay(schema: Schema, conv: Conv, held: set<string>, all: seq<Members>, store: Store, items: seq<Members>, n: nat)
    requires Ready(schema, conv, held, all, store) && Calm(schema, conv, held, items) && AllIn(items, all) && n <= |items|
    ensures StoreFits(schema, store)
    ensures ApplyItems(schema, conv, ApplyItems(schema, conv, store, items[..n]).1, items)
         == ApplyItems(schema, conv, store, items)
  {
    hide ApplyItems, ApplyKey, Calm, Ready, StoreFits;
    ReadyFits(schema, conv, held, all, store);
    CalmPrefix(schema, conv, held, items, all, n);
    var part := ApplyItems(schema, conv, store, items[..n]).1;
    ItemsAt(schema, conv, held, all, store, items[..n], "");
    ItemsAt(schema, conv, held, all, part, items, "");
    ItemsAt(schema, conv, held, all, store, items, "");
    forall k: string
      ensures At(ApplyItems(schema, conv, part, items).1, k) == At(ApplyItems(schema, conv, store, items).1, k)
    {
      CalmAt(schema, conv, held, all, store, items, n, k);
    }
    SameStore(ApplyItems(schema, conv, part, items).1, ApplyItems(schema, conv, store, items).1);
  }

  lemma CalmPrefix(schema: Schema, conv: Conv, held: set<string>, items: seq<Members>, all: seq<Members>, n: nat)
    requires Calm(schema, conv, held, items) && AllIn(items, all) && n <= |items|
    ensures Calm(schema, conv, held, items[..n]) && AllIn(items[..n], all)
  {
    hide Safe, Throws;
  }

  lemma CalmAt(schema: Schema, conv: Conv, held: set<string>, all: seq<Members>, store: Store, items: seq<Members>, n: nat, k: string)
    requires Ready(schema, conv, held, all, store) && Calm(schema, conv, held, items) && AllIn(items, all) && n <= |items|
    ensures StoreFits(schema, store)
    ensures var part := ApplyItems(schema, conv, store, items[..n]).1;
            At(ApplyItems(schema, conv, part, items).1, k) == At(ApplyItems(schema, conv, store, items).1, k)
  {
    hide ApplyItems, ApplyKey, Calm, StoreFits, Ready, At;
    ReadyFits(schema, conv, held, all, store);
    CalmPrefix(schema, conv, held, items, all, n);
    var part := ApplyItems(schema, conv, store, items[..n]).1;
    assert items == items[..n] + items[n..];
    var before := At(store, k);
    ItemsAt(schema, conv, held, all, store, items[..n], k);
    ItemsAt(schema, conv, held, all, part, items, k);
    ItemsAt(schema, conv, held, all, store, items, k);
    ApplyKeyAppend(schema, conv, held, before, items[..n], items[n..], k);
    ApplyKeyAppend(schema, conv, held, At(part, k), items[..n], items[n..], k);
    TwiceIsOnce(schema, conv, held, before, items[..n], k);
  }

  predicate IsFirstThrow(schema: Schema, conv: Conv, held: set<string>, items: seq<Members>, at: nat) {
    && at <= |items| && Calm(schema, conv, held, items[..at])
    && (at < |items| ==> Safe(schema, conv, items[at]) && Throws(schema, conv, held, items[at]))
  }

  /** The first message that throws, or the end. */
  function FirstThrow(schema: Schema, conv: Conv, held: set<string>, items: seq<Members>): (at: nat)
    ensures at <= |items|
  {
    if items == [] || Throws(schema, conv, held, items[0]) then 0 else 1 + FirstThrow(schema, conv, held, items[1..])
  }

  lemma {:induction false} FirstThrowIs(schema: Schema, conv: Conv, held: set<string>, items: seq<Members>)
    requires AllSafe(schema, conv, items)
    ensures IsFirstThrow(schema, conv, held, items, FirstThrow(schema, conv, held, items))
  {
    hide Safe, Throws;
    if items != [] && !Throws(schema, conv, held, items[0]) {
      FirstThrowIs(schema, conv, held, items[1..]);
      var at := FirstThrow(schema, conv, held, items[1..]);
      assert items[..1 + at] == [items[0]] + items[1..][..at];
    }
  }

  /** What comes after the first message that throws is dropped, in any store. */
  lemma StopsThere(schema: Schema, conv: Conv, held: set<string>, all: seq<Members>, store: Store, items: seq<Members>, at: nat)
    requires Ready(schema, conv, held, all, store) && AllIn(items, all) && IsFirstThrow(schema, conv, held, items, at)
    ensures StoreFits(schema, store)
    ensures ApplyItems(schema, conv, store, items) == (at < |items|, ApplyItems(schema, conv, store, items[..at]).1)
  {
    hide ApplyItems, Safe, Throws, Ready, StoreFits, ApplyObject;
    ItemsAt(schema, conv, held, all, store, items[..at], "");
    if at < |items| {
      var before := ApplyItems(schema, conv, store, items[..at]).1;
      SafeStep(schema, conv, held, all, before, items[at], "");
      OnlyItsKey(schema, conv, before, items[at], "");
      OneMore(schema, conv, store, items, at);
      ThrownStays(schema, conv, store, items, at + 1);
    } else {
      assert items[..at] == items;
    }
  }

  lemma PartReplay(schema: Schema, conv: Conv, held: set<string>, all: seq<Members>, store: Store, items: seq<Members>, n: nat)
    requires Ready(schema, conv, held, all, store) && AllSafe(schema, conv, items) && AllIn(items, all) && n <= |items|
    ensures StoreFits(schema, store)
    ensures ApplyItems(schema, conv, ApplyItems(schema, conv, store, items[..n]).1, items)
         == ApplyItems(schema, conv, store, items)
  {
    hide ApplyItems, Safe, Throws, Ready, StoreFits;
    var at := FirstThrow(schema, conv, held, items);
    FirstThrowIs(schema, conv, held, items);
    var m := if n < at then n else at;
    var calm := items[..at];
    assert calm[..m] == items[..m];
    ReadyFits(schema, conv, held, all, store);
    if n <= at {
      assert calm[..n] == items[..n];
    } else {
      assert items[..n][..at] == calm;
      StopsThere(schema, conv, held, all, store, items[..n], at);
      assert calm[..at] == calm;
    }
    var part := ApplyItems(schema, conv, store, items[..n]).1;
    assert part == ApplyItems(schema, conv, store, calm[..m]).1;
    ItemsAt(schema, conv, held, all, store, calm[..m], "");
    StopsThere(schema, conv, held, all, store, items, at);
    StopsThere(schema, conv, held, all, part, items, at);
    CalmReplay(schema, conv, held, all, store, calm, m);
  }

  /** In which stores messages can be applied again: none of them disturbs the key of an insert that throws;
      and, if the key field has the name of a control key, the documents lie under their own keys, and none but
      that under the default key is both written and removed. */
  ghost predicate Replayable(schema: Schema, conv: Conv, store: Store, items: seq<Members>) {
    && Steady(schema, conv, items)
    && (IsControl(schema.pk) ==> OwnKeys(schema, store) && Apart(schema, conv, store.Keys, items))
  }

  lemma ReplayableReady(schema: Schema, conv: Conv, store: Store, items: seq<Members>)
    requires WellFormed(schema) && StoreFits(schema, store) && Replayable(schema, conv, store, items)
    ensures Ready(schema, conv, store.Keys, items, store) && AllIn(items, items)
  {
    hide WellFormed, StoreFits, OwnKeys, Apart, Writes, Steady, Shaky;
  }

  /** Crash replay: whatever part of a message was applied before, applying all of it gives the same store
      as applying it once to the store the first part found. */
  lemma CrashReplay(schema: Schema, conv: Conv, store: Store, items: seq<Members>, n: nat)
    requires WellFormed(schema) && StoreFits(schema, store) && Replayable(schema, conv, store, items)
    requires AllSafe(schema, conv, items) && n <= |items|
    ensures ApplyItems(schema, conv, ApplyItems(schema, conv, store, items[..n]).1, items)
         == ApplyItems(schema, conv, store, items)
  {
    ReplayableReady(schema, conv, store, items);
    PartReplay(schema, conv, store.Keys, items, store, items, n);
  }

  // ---- Going back to where one was before ----

  lemma {:induction false} Appended(schema: Schema, conv: Conv, held: set<string>, p: seq<Members>, q: seq<Members>, k: string, i: nat)
    ensures AnyForgets(schema, conv, held, p + q, k) == (AnyForgets(schema, conv, held, p, k) || AnyForgets(schema, conv, held, q, k))
    ensures AnyUpsert(schema, conv, held, p + q, k) == (AnyUpsert(schema, conv, held, p, k) || AnyUpsert(schema, conv, held, q, k))
    ensures i < |schema.fields| ==>
              LastSet(schema, conv, held, p + q, k, i)
              == if LastSet(schema, conv, held, q, k, i).Some? then LastSet(schema, conv, held, q, k, i) else LastSet(schema, conv, held, p, k, i)
    decreases |q|
  {
    hide Forgets, Upserts, Assigned;
    if q == [] {
      assert p + q == p;
    } else {
      assert (p + q)[..|p + q| - 1] == p + q[..|q| - 1];
      Appended(schema, conv, held, p, q[..|q| - 1], k, i);
    }
  }

  lemma JustOne(schema: Schema, conv: Conv, held: set<string>, x: Members, k: string, i: nat)
    ensures AnyForgets(schema, conv, held, [x], k) == Forgets(schema, conv, held, x, k)
    ensures AnyUpsert(schema, conv, held, [x], k) == Upserts(schema, conv, held, x, k)
    ensures i < |schema.fields| ==>
              LastSet(schema, conv, held, [x], k, i) == if Upserts(schema, conv, held, x, k) then Assigned(schema, conv, x, i) else None
  {
    hide Forgets, Upserts, Assigned;
    assert [x][..0] == [];
  }

  lemma AllThree(schema: Schema, conv: Conv, held: set<string>, u: seq<Members>, x: Members, v: seq<Members>, k: string, i: nat)
    ensures Forgets(schema, conv, held, x, k) || AnyForgets(schema, conv, held, v, k) ==> AnyForgets(schema, conv, held, u + [x] + v, k)
    ensures Upserts(schema, conv, held, x, k) || AnyUpsert(schema, conv, held, v, k) ==> AnyUpsert(schema, conv, held, u + [x] + v, k)
    ensures i < |schema.fields| && LastSet(schema, conv, held, u + [x] + v, k, i).None? ==>
              && LastSet(schema, conv, held, v, k, i).None?
              && (Upserts(schema, conv, held, x, k) ==> Assigned(schema, conv, x, i).None?)
  {
    hide Forgets, Upserts, Assigned, AnyForgets, AnyUpsert, LastSet;
    Appended(schema, conv, held, u + [x], v, k, i);
    Appended(schema, conv, held, u, [x], k, i);
    JustOne(schema, conv, held, x, k, i);
  }

  /** Of a document that is there already. */
  lemma AbsorbsThere(schema: Schema, conv: Conv, held: set<string>, doc: View, u: seq<Members>, x: Members, v: seq<Members>, k: string)
    requires |doc| == |schema.fields| && Upserts(schema, conv, held, x, k) && !AnyForgets(schema, conv, held, u + [x] + v, k)
    ensures ApplyKey(schema, conv, held, StepKey(schema, conv, held, Some(doc), x, k), u + [x] + v, k)
         == ApplyKey(schema, conv, held, Some(doc), u + [x] + v, k)
  {
    hide AnyForgets, AnyUpsert, LastSet, ApplyKey, Assigned;
    var all := u + [x] + v;
    var more := StepKey(schema, conv, held, Some(doc), x, k).value;
    StaysThere(schema, conv, held, doc, all, k);
    StaysThere(schema, conv, held, more, all, k);
    var a, b := ApplyKey(schema, conv, held, Some(more), all, k).value, ApplyKey(schema, conv, held, Some(doc), all, k).value;
    forall i | 0 <= i < |schema.fields|
      ensures a[i] == b[i]
    {
      EndsUpAs(schema, conv, held, doc, all, k, i);
      EndsUpAs(schema, conv, held, more, all, k, i);
      AllThree(schema, conv, held, u, x, v, k, i);
    }
    assert a == b;
  }

  /** Of one that was not, and that the message makes. */
  lemma AbsorbsNew(schema: Schema, conv: Conv, held: set<string>, doc: View, u: seq<Members>, x: Members, v: seq<Members>, k: string)
    requires |doc| == |schema.fields| && !AnyForgets(schema, conv, held, u + [x] + v, k)
    requires ApplyKey(schema, conv, held, None, u + [x] + v, k) == ApplyKey(schema, conv, held, Some(doc), v, k)
    ensures ApplyKey(schema, conv, held, Some(doc), u + [x] + v, k) == ApplyKey(schema, conv, held, Some(doc), v, k)
  {
    hide AnyForgets, AnyUpsert, LastSet, ApplyKey, Assigned;
    var all := u + [x] + v;
    AllThree(schema, conv, held, u, x, v, k, 0);
    StaysThere(schema, conv, held, doc, all, k);
    StaysThere(schema, conv, held, doc, v, k);
    var a, b := ApplyKey(schema, conv, held, Some(doc), all, k).value, ApplyKey(schema, conv, held, Some(doc), v, k).value;
    forall i | 0 <= i < |schema.fields|
      ensures a[i] == b[i]
    {
      EndsUpAs(schema, conv, held, doc, all, k, i);
      EndsUpAs(schema, conv, held, doc, v, k, i);
      AllThree(schema, conv, held, u, x, v, k, i);
      Settles(schema, conv, held, all, k, i);
    }
    assert a == b;
  }

  /** A message the store is about to get, and that a run over more messages will bring once more: applying
      it now does not change what that run comes to. */
  lemma AbsorbsKey(schema: Schema, conv: Conv, held: set<string>, state: Option<View>, u: seq<Members>, x: Members, v: seq<Members>, k: string)
    requires state.Some? ==> |state.value| == |schema.fields|
    requires ApplyKey(schema, conv, held, state, u + [x] + v, k) == ApplyKey(schema, conv, held, state, [x] + v, k)
    ensures ApplyKey(schema, conv, held, StepKey(schema, conv, held, state, x, k), u + [x] + v, k)
         == ApplyKey(schema, conv, held, state, u + [x] + v, k)
  {
    hide AnyForgets, AnyUpsert, LastSet, ApplyKey, Assigned, Merged, Over;
    var after := StepKey(schema, conv, held, state, x, k);
    AllThree(schema, conv, held, u, x, v, k, 0);
    if AnyForgets(schema, conv, held, u + [x] + v, k) {
      ForgetsPast(schema, conv, held, after, state, u + [x] + v, k);
    } else if after != state {
      if state.Some? {
        AbsorbsThere(schema, conv, held, state.value, u, x, v, k);
      } else {
        OneKeyMore(schema, conv, held, state, x, v, k);
        AbsorbsNew(schema, conv, held, after.value, u, x, v, k);
      }
    }
  }

  lemma OneKeyMore(schema: Schema, conv: Conv, held: set<string>, state: Option<View>, x: Members, v: seq<Members>, k: string)
    requires state.Some? ==> |state.value| == |schema.fields|
    ensures StepKey(schema, conv, held, state, x, k).Some? ==> |StepKey(schema, conv, held, state, x, k).value| == |schema.fields|
    ensures ApplyKey(schema, conv, held, state, [x] + v, k) == ApplyKey(schema, conv, held, StepKey(schema, conv, held, state, x, k), v, k)
  {
    hide StepKey;
    ApplyKeyAppend(schema, conv, held, state, [x], v, k);
    assert [x][..0] == [];
  }

  /** The same for the store. */
  lemma Absorbs(schema: Schema, conv: Conv, held: set<string>, all: seq<Members>, store: Store, u: seq<Members>, x: Members, v: seq<Members>)
    requires Ready(schema, conv, held, all, store) && Calm(schema, conv, held, u + [x] + v) && AllIn(u + [x] + v, all)
    requires StoreFits(schema, store)
    requires ApplyItems(schema, conv, store, u + [x] + v).1 == ApplyItems(schema, conv, store, [x] + v).1
    ensures ApplyItems(schema, conv, ApplyItems(schema, conv, store, [x]).1, u + [x] + v).1
         == ApplyItems(schema, conv, store, u + [x] + v).1
  {
    hide ApplyItems, ApplyKey, Calm, Ready, StoreFits, StepKey, AllIn;
    var whole := u + [x] + v;
    CalmParts(schema, conv, held, u, x, v, all);
    var after := ApplyItems(schema, conv, store, [x]).1;
    ItemsAt(schema, conv, held, all, store, [x], "");
    ItemsAt(schema, conv, held, all, after, whole, "");
    forall k: string
      ensures At(ApplyItems(schema, conv, after, whole).1, k) == At(ApplyItems(schema, conv, store, whole).1, k)
    {
      ItemsAt(schema, conv, held, all, store, whole, k);
      ItemsAt(schema, conv, held, all, after, whole, k);
      ItemsAt(schema, conv, held, all, store, [x] + v, k);
      ItemsAt(schema, conv, held, all, store, [x], k);
      OneKeyMore(schema, conv, held, At(store, k), x, [], k);
      assert [x] + [] == [x];
      NoKeys(schema, conv, held, StepKey(schema, conv, held, At(store, k), x, k), k);
      AbsorbsKey(schema, conv, held, At(store, k), u, x, v, k);
    }
    SameStore(ApplyItems(schema, conv, after, whole).1, ApplyItems(schema, conv, store, whole).1);
  }

  lemma FitsAt(schema: Schema, store: Store, k: string)
    requires StoreFits(schema, store)
    ensures At(store, k).Some? ==> |At(store, k).value| == |schema.fields|
  {
  }

  lemma NoKeys(schema: Schema, conv: Conv, held: set<string>, state: Option<View>, k: string)
    requires state.Some? ==> |state.value| == |schema.fields|
    ensures ApplyKey(schema, conv, held, state, [], k) == state
  {
  }

  lemma CalmParts(schema: Schema, conv: Conv, held: set<string>, u: seq<Members>, x: Members, v: seq<Members>, all: seq<Members>)
    requires Calm(schema, conv, held, u + [x] + v) && AllIn(u + [x] + v, all)
    ensures Calm(schema, conv, held, u) && Calm(schema, conv, held, [x]) && Calm(schema, conv, held, v) && Calm(schema, conv, held, [x] + v)
    ensures AllIn(u, all) && AllIn([x], all) && AllIn(v, all) && AllIn([x] + v, all)
  {
    hide Safe, Throws;
    var whole := u + [x] + v;
    assert forall j :: 0 <= j < |u| ==> whole[j] == u[j];
    assert whole[|u|] == x;
    assert forall j :: 0 <= j < |v| ==> whole[|u| + 1 + j] == v[j];
  }

  lemma ItemsAppend(schema: Schema, conv: Conv, held: set<string>, all: seq<Members>, store: Store, p: seq<Members>, q: seq<Members>)
    requires Ready(schema, conv, held, all, store) && Calm(schema, conv, held, p) && Calm(schema, conv, held, q)
    requires AllIn(p, all) && AllIn(q, all)
    ensures StoreFits(schema, store)
    ensures ApplyItems(schema, conv, store, p + q).1 == ApplyItems(schema, conv, ApplyItems(schema, conv, store, p).1, q).1
  {
    hide ApplyItems, ApplyKey, Safe, Throws, Ready, StoreFits;
    ReadyFits(schema, conv, held, all, store);
    var part := ApplyItems(schema, conv, store, p).1;
    forall k: string
      ensures At(ApplyItems(schema, conv, store, p + q).1, k) == At(ApplyItems(schema, conv, part, q).1, k)
    {
      ItemsAt(schema, conv, held, all, store, p + q, k);
      ItemsAt(schema, conv, held, all, store, p, k);
      ItemsAt(schema, conv, held, all, part, q, k);
      ApplyKeyAppend(schema, conv, held, At(store, k), p, q, k);
    }
    ItemsAt(schema, conv, held, all, store, p, "");
    SameStore(ApplyItems(schema, conv, store, p + q).1, ApplyItems(schema, conv, part, q).1);
  }
}
