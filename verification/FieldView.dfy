/** The extracted_fields table: rows are only ever added, and a document's
    current fields are the newest row of each name. */
module FieldView {
  import opened Prelude
  import opened Domain
  import opened Sorting

  /** The current fields of a document, by overwriting names row by row. */
  function View(rows: seq<FieldRow>, d: nat): map<string, FieldRow> {
    if rows == [] then map[]
    else
      var last := rows[|rows| - 1];
      var before := View(rows[..|rows| - 1], d);
      if last.doc == d then before[last.name := last] else before
  }

  /** What `SELECT DISTINCT ON (field_name) ... ORDER BY field_name, created_at DESC`
      returns for a name: a row no other row of that name is newer than. */
  ghost predicate SelectedBy(rows: seq<FieldRow>, d: nat, name: string, i: nat) {
    && i < |rows| && rows[i].doc == d && rows[i].name == name
    && forall j :: 0 <= j < |rows| && rows[j].doc == d && rows[j].name == name ==> rows[j].at <= rows[i].at
  }

  /** Stamps as the engine produces them: no later than the row's position, and
      strictly growing over the rows of one field. */
  ghost predicate Stamped(rows: seq<FieldRow>) {
    && (forall i :: 0 <= i < |rows| ==> rows[i].at <= i)
    && (forall i, j :: 0 <= i < j < |rows| && rows[i].doc == rows[j].doc && rows[i].name == rows[j].name ==> rows[i].at < rows[j].at)
  }

  /** One InsertBatch: rows of one document, one stamp, no name twice. */
  ghost predicate Batch(rows: seq<FieldRow>, d: nat, at: nat) {
    && (forall i :: 0 <= i < |rows| ==> rows[i].doc == d && rows[i].at == at)
    && (forall i, j :: 0 <= i < j < |rows| ==> rows[i].name != rows[j].name)
  }

  /** A batch as a map from names to rows. */
  function AsMap(rows: seq<FieldRow>): map<string, FieldRow> {
    if rows == [] then map[]
    else AsMap(rows[..|rows| - 1])[rows[|rows| - 1].name := rows[|rows| - 1]]
  }

  lemma StampedAppend(rows: seq<FieldRow>, batch: seq<FieldRow>, d: nat)
    requires Stamped(rows) && Batch(batch, d, |rows|)
    ensures Stamped(rows + batch)
  {
  }

  /** The query and the overwriting view agree: the selected row is unique, and
      it is the view's entry. */
  lemma {:induction false} ViewIsSelection(rows: seq<FieldRow>, d: nat, name: string, i: nat)
    requires Stamped(rows) && SelectedBy(rows, d, name, i)
    ensures name in View(rows, d) && View(rows, d)[name] == rows[i]
  {
    var n := |rows| - 1;
    if i < n {
      assert SelectedBy(rows[..n], d, name, i);
      ViewIsSelection(rows[..n], d, name, i);
    }
  }

  lemma {:induction false} ViewEntriesAreSelected(rows: seq<FieldRow>, d: nat, name: string) returns (i: nat)
    requires Stamped(rows) && name in View(rows, d)
    ensures SelectedBy(rows, d, name, i) && View(rows, d)[name] == rows[i]
  {
    var n := |rows| - 1;
    if rows[n].doc == d && rows[n].name == name {
      i := n;
    } else {
      i := ViewEntriesAreSelected(rows[..n], d, name);
      assert forall j :: 0 <= j < n ==> rows[..n][j] == rows[j];
    }
  }

  /** Inserting a batch overwrites exactly the batch's names, in that document
      only; a correction therefore shadows what was extracted. */
  lemma {:induction false} BatchOverwrites(rows: seq<FieldRow>, batch: seq<FieldRow>, d: nat, at: nat, e: nat)
    requires Batch(batch, d, at)
    ensures View(rows + batch, e) == if e == d then View(rows, e) + AsMap(batch) else View(rows, e)
  {
    if batch == [] {
      assert rows + batch == rows;
      assert View(rows, e) + map[] == View(rows, e);
    } else {
      var n := |batch| - 1;
      BatchOverwrites(rows, batch[..n], d, at, e);
      assert (rows + batch)[..|rows + batch| - 1] == rows + batch[..n];
    }
  }

  lemma {:induction false} AsMapFinds(batch: seq<FieldRow>, i: nat)
    requires (forall j, k :: 0 <= j < k < |batch| ==> batch[j].name != batch[k].name) && i < |batch|
    ensures batch[i].name in AsMap(batch) && AsMap(batch)[batch[i].name] == batch[i]
  {
    var n := |batch| - 1;
    if i < n {
      AsMapFinds(batch[..n], i);
    }
  }

  lemma {:induction false} AsMapNames(batch: seq<FieldRow>, name: string) returns (i: nat)
    requires name in AsMap(batch)
    ensures i < |batch| && batch[i].name == name
  {
    var n := |batch| - 1;
    if batch[n].name == name {
      i := n;
    } else {
      i := AsMapNames(batch[..n], name);
    }
  }

  // ----- any sequence of batches -----

  datatype Insert = Insert(doc: nat, rows: seq<FieldRow>)

  ghost predicate GoodInserts(table: seq<FieldRow>, ins: seq<Insert>)
    decreases |ins|
  {
    ins == [] ||
    (GoodInserts(table, ins[..|ins| - 1]) && Batch(ins[|ins| - 1].rows, ins[|ins| - 1].doc, |Inserted(table, ins[..|ins| - 1])|))
  }

  /** The table after a sequence of InsertBatch calls. */
  function Inserted(table: seq<FieldRow>, ins: seq<Insert>): seq<FieldRow> {
    if ins == [] then table else Inserted(table, ins[..|ins| - 1]) + ins[|ins| - 1].rows
  }

  /** The reference: one map per document, overwritten batch by batch. */
  function Overwritten(ins: seq<Insert>, d: nat): map<string, FieldRow> {
    if ins == [] then map[]
    else
      var before := Overwritten(ins[..|ins| - 1], d);
      if ins[|ins| - 1].doc == d then before + AsMap(ins[|ins| - 1].rows) else before
  }

  /** For every sequence of InsertBatch calls on an empty table, the current
      fields are the overwritten map, and no row is ever lost. */
  lemma {:induction false} ViewOfInserts(ins: seq<Insert>, d: nat)
    requires GoodInserts([], ins)
    ensures View(Inserted([], ins), d) == Overwritten(ins, d)
    ensures Stamped(Inserted([], ins))
    ensures forall k :: 0 <= k <= |ins| ==> Inserted([], ins[..k]) <= Inserted([], ins)
  {
    if ins != [] {
      var n := |ins| - 1;
      var before := Inserted([], ins[..n]);
      ViewOfInserts(ins[..n], d);
      BatchOverwrites(before, ins[n].rows, ins[n].doc, |before|, d);
      StampedAppend(before, ins[n].rows, ins[n].doc);
      forall k | 0 <= k <= |ins| ensures Inserted([], ins[..k]) <= Inserted([], ins) {
        if k <= n {
          assert ins[..n][..k] == ins[..k];
        } else {
          assert ins[..k] == ins;
        }
      }
    } else {
      assert forall k :: 0 <= k <= 0 ==> ins[..k] == ins;
    }
  }
}
