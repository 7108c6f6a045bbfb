/** The one-off migration that adds the cari-panel fields to stored tour
    reservations without disturbing the ones already there: each document
    gets a `$set` of exactly the fields it lacks (and a status when its own
    is not one of the known values), so running it again changes nothing. */
module MigrateReservations {
  import opened Common

  /** A field value as the migration sees it: a string, null, or anything else. */
  datatype Value = Str(s: string) | Null | OtherValue

  /** A stored reservation document: its fields by name. */
  type Doc = map<string, Value>

  const AllowedStatuses: seq<string> := ["pending_approval", "approved", "rejected", "confirmed", "cancelled", "completed"]

  /** The fields set to null when missing. */
  const NullFields: seq<string> := ["created_by_cari", "cari_code_snapshot", "approved_by", "approved_at"]

  predicate AllowedStatus(v: Value) {
    v.Str? && v.s in AllowedStatuses
  }

  /** The per-document `update_data`. */
  function UpdateData(d: Doc): (u: Doc)
    ensures u.Keys <= {"reservation_source", "status", "created_by_cari", "cari_code_snapshot", "approved_by", "approved_at"}
  {
    var u0: Doc := if "reservation_source" !in d then map["reservation_source" := Str("system")] else map[];
    var u1: Doc :=
      if "status" !in d then u0["status" := Str("approved")]
      else if !AllowedStatus(d["status"]) then
        (if d["status"] == Str("confirmed") then u0 else u0["status" := Str("approved")])
      else u0;
    var u2: Doc := if "created_by_cari" !in d then u1["created_by_cari" := Value.Null] else u1;
    var u3: Doc := if "cari_code_snapshot" !in d then u2["cari_code_snapshot" := Value.Null] else u2;
    var u4: Doc := if "approved_by" !in d then u3["approved_by" := Value.Null] else u3;
    if "approved_at" !in d then u4["approved_at" := Value.Null] else u4
  }

  /** `$set`: the update's fields replace or join the document's. */
  function SetFields(d: Doc, u: Doc): (r: Doc)
    ensures r.Keys == d.Keys + u.Keys
    ensures forall k | k in u :: r[k] == u[k]
    ensures forall k | k in d && k !in u :: r[k] == d[k]
  {
    d + u
  }

  /** A document that already has every field the migration adds, with a
      known status. */
  predicate Migrated(d: Doc) {
    && "reservation_source" in d
    && "status" in d && AllowedStatus(d["status"])
    && forall f | f in NullFields :: f in d
  }

  /** What the update sets, field by field. */
  lemma UpdateDataFields(d: Doc)
    ensures var u := UpdateData(d);
      && ("reservation_source" in u <==> "reservation_source" !in d)
      && ("reservation_source" in u ==> u["reservation_source"] == Str("system"))
      && ("status" in u <==> "status" !in d || !AllowedStatus(d["status"]))
      && ("status" in u ==> u["status"] == Str("approved"))
      && (forall f | f in NullFields :: (f in u <==> f !in d) && (f in u ==> u[f] == Value.Null))
      && u.Keys <= {"reservation_source", "status", "created_by_cari", "cari_code_snapshot", "approved_by", "approved_at"}
  {
    SourceField(d);
    StatusField(d);
    NullFieldsSet(d);
    UpdateKeys(d);
  }

  lemma SourceField(d: Doc)
    ensures var u := UpdateData(d);
      && ("reservation_source" in u <==> "reservation_source" !in d)
      && ("reservation_source" in u ==> u["reservation_source"] == Str("system"))
  {
  }

  lemma StatusField(d: Doc)
    ensures var u := UpdateData(d);
      && ("status" in u <==> "status" !in d || !AllowedStatus(d["status"]))
      && ("status" in u ==> u["status"] == Str("approved"))
  {
  }

  lemma NullFieldsSet(d: Doc)
    ensures var u := UpdateData(d);
      forall f | f in NullFields :: (f in u <==> f !in d) && (f in u ==> u[f] == Value.Null)
  {
  }

  lemma UpdateKeys(d: Doc)
    ensures UpdateData(d).Keys <= {"reservation_source", "status", "created_by_cari", "cari_code_snapshot", "approved_by", "approved_at"}
  {
  }

  /** The inner "confirmed" test can never succeed: "confirmed" is one of
      the allowed statuses, so a confirmed reservation is never touched. */
  lemma ConfirmedIsNeverRewritten(d: Doc)
    requires "status" in d && d["status"] == Str("confirmed")
    ensures AllowedStatus(d["status"])
    ensures "status" !in UpdateData(d)
  {
  }

  /** Fields already present are overwritten only when the field is a
      status outside the allowed values. */
  lemma PresentFieldsKept(d: Doc)
    ensures var r := SetFields(d, UpdateData(d));
      forall k | k in d && (k != "status" || AllowedStatus(d["status"])) :: r[k] == d[k]
  {
    UpdateDataFields(d);
  }

  /** The update is empty exactly on a migrated document; after applying
      it the document is migrated, so a second pass changes nothing. */
  lemma UpdateEmptyIffMigrated(d: Doc)
    ensures UpdateData(d) == map[] <==> Migrated(d)
    ensures Migrated(SetFields(d, UpdateData(d)))
    ensures UpdateData(SetFields(d, UpdateData(d))) == map[]
  {
    UpdateDataFields(d);
    var r := SetFields(d, UpdateData(d));
    UpdateDataFields(r);
    if Migrated(d) {
      assert UpdateData(d).Keys == {};
    } else {
      if "reservation_source" !in d {
        assert "reservation_source" in UpdateData(d);
      } else if "status" !in d || !AllowedStatus(d["status"]) {
        assert "status" in UpdateData(d);
      } else {
        var f :| f in NullFields && f !in d;
        assert f in UpdateData(d);
      }
    }
    assert AllowedStatus(Str("approved"));
    if Migrated(r) {
      assert UpdateData(r).Keys == {};
    }
  }

  /** The collection after the migration. */
  function MigrateAll(ds: seq<Doc>): (r: seq<Doc>)
    ensures |r| == |ds|
    ensures forall i | 0 <= i < |ds| ::
      r[i] == if i < 10000 then SetFields(ds[i], UpdateData(ds[i])) else ds[i]
  {
    seq(|ds|, i requires 0 <= i < |ds| => if i < 10000 then SetFields(ds[i], UpdateData(ds[i])) else ds[i])
  }

  /** The number of documents with a non-empty update. */
  function CountNeeding(ds: seq<Doc>): (n: nat)
    ensures n <= |ds|
  {
    if ds == [] then 0 else CountNeeding(ds[..|ds| - 1]) + (if UpdateData(ds[|ds| - 1]) != map[] then 1 else 0)
  }

  /** The reservations collection. `find({}).to_list(10000)` reads the first
      10000 documents; each update goes to the document it was computed from. */
  class ReservationStore {
    var docs: seq<Doc>

    constructor(docs: seq<Doc>)
      ensures this.docs == docs
    {
      this.docs := docs;
    }

    /** `migrate_reservations`: the totals it prints. */
    method Migrate() returns (total: nat, updated: nat, untouched: int)
      modifies this
      ensures docs == MigrateAll(old(docs))
      ensures total == Min(|old(docs)|, 10000)
      ensures updated == CountNeeding(Take(old(docs), 10000))
      ensures untouched == total - updated
    {
      ghost var ds := docs;
      var batch := Take(docs, 10000);
      total := |batch|;
      updated := 0;
      var i := 0;
      while i < |batch|
        invariant 0 <= i <= |batch| == Min(|ds|, 10000) && |docs| == |ds|
        invariant forall j | 0 <= j < |docs| :: docs[j] == if j < i then SetFields(ds[j], UpdateData(ds[j])) else ds[j]
        invariant updated == CountNeeding(batch[..i])
      {
        assert batch[i] == ds[i];
        var changed := MigrateAt(i, batch[i]);
        CountNeedingStep(batch, i);
        if changed {
          updated := updated + 1;
        }
        i := i + 1;
      }
      assert batch[..i] == batch;
      MigratedPrefix(ds, docs, i);
      assert ds == old(docs) && batch == Take(ds, 10000);
      untouched := total - updated;
    }

    /** One pass of the loop: the update computed from `reservation` is
        written to the document at `i` when it is non-empty; writing an
        empty update would leave the document as it is. */
    method MigrateAt(i: nat, reservation: Doc) returns (changed: bool)
      requires i < |docs| && docs[i] == reservation
      modifies this
      ensures changed <==> UpdateData(reservation) != map[]
      ensures docs == old(docs)[i := SetFields(reservation, UpdateData(reservation))]
    {
      var updateData := UpdateData(reservation);
      changed := updateData != map[];
      if changed {
        docs := docs[i := SetFields(docs[i], updateData)];
      } else {
        assert SetFields(reservation, updateData) == reservation;
        assert docs == docs[i := reservation];
      }
    }
  }

  /** Migrating the first `n` documents, where `n` is the batch size, is
      the whole migration. */
  lemma MigratedPrefix(ds: seq<Doc>, r: seq<Doc>, n: nat)
    requires n == Min(|ds|, 10000) && |r| == |ds|
    requires forall j | 0 <= j < |r| :: r[j] == if j < n then SetFields(ds[j], UpdateData(ds[j])) else ds[j]
    ensures r == MigrateAll(ds)
  {
    var m := MigrateAll(ds);
    forall j | 0 <= j < |r| ensures r[j] == m[j] {
      assert j < n <==> j < 10000;
    }
  }

  /** Counting one more document of the batch. */
  lemma CountNeedingStep(ds: seq<Doc>, i: nat)
    requires i < |ds|
    ensures CountNeeding(ds[..i + 1]) == CountNeeding(ds[..i]) + if UpdateData(ds[i]) != map[] then 1 else 0
  {
    assert ds[..i + 1][..i] == ds[..i];
  }

  /** Only documents that were not migrated are counted as updated. */
  lemma {:induction false} CountNeedingUnmigrated(ds: seq<Doc>)
    ensures CountNeeding(ds) == 0 <==> forall i | 0 <= i < |ds| :: Migrated(ds[i])
    decreases |ds|
  {
    if ds != [] {
      CountNeedingUnmigrated(ds[..|ds| - 1]);
      UpdateEmptyIffMigrated(ds[|ds| - 1]);
      if forall i | 0 <= i < |ds| :: Migrated(ds[i]) {
        var init := ds[..|ds| - 1];
        forall i | 0 <= i < |init| ensures Migrated(init[i]) {
          assert init[i] == ds[i];
        }
      }
    }
  }

  /** Running the migration a second time updates nothing and leaves the
      collection as the first run left it. */
  lemma MigrationIsIdempotent(ds: seq<Doc>)
    ensures MigrateAll(MigrateAll(ds)) == MigrateAll(ds)
    ensures CountNeeding(Take(MigrateAll(ds), 10000)) == 0
  {
    var m := MigrateAll(ds);
    forall i | 0 <= i < |ds| && i < 10000 ensures Migrated(m[i]) && SetFields(m[i], UpdateData(m[i])) == m[i] {
      UpdateEmptyIffMigrated(ds[i]);
      UpdateEmptyIffMigrated(m[i]);
    }
    var t := Take(m, 10000);
    CountNeedingUnmigrated(t);
  }
}
