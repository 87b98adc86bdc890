/**
 * The database form's key/value editors for a query and a data record: each record is shown as
 * a list of rows, and the rows are written back as a record.
 */
module DatabaseForm {
  import opened Values
  import Seqs
  import Text
  import opened Wrappers

  /** One editable line: a key and its value as text. */
  datatype Row = Row(key: string, value: string)

  /** Which of the two editors. */
  datatype FieldList = QueryFields | DataFields

  /** Which half of a row. */
  datatype RowField = KeyField | ValueField

  /** Entries as rows, in the order given, with each value rendered by `render`. */
  function EntriesToRows<V>(es: seq<Entry<V>>, render: V -> string): (rows: seq<Row>)
    ensures |rows| == |es|
    ensures forall i :: 0 <= i < |es| ==> rows[i] == Row(es[i].key, render(es[i].value))
  {
    if |es| == 0 then [] else [Row(es[0].key, render(es[0].value))] + EntriesToRows(es[1..], render)
  }

  /** The keys of the rows, in order. */
  function RowKeys(rows: seq<Row>): (ks: seq<string>)
    ensures |ks| == |rows| && forall i :: 0 <= i < |rows| ==> ks[i] == rows[i].key
  {
    seq(|rows|, i requires 0 <= i < |rows| => rows[i].key)
  }

  /** A record as rows (`Object.entries`, each value rendered by `String`): one row per entry, in
      JavaScript's own-key order, so array-index keys come first; a record already in that order
      keeps its order. */
  function RecordToRows(rec: Record): (rows: seq<Row>)
    ensures |rows| == |rec|
    ensures Text.OwnKeyOrder(RowKeys(rows))
    ensures Seqs.Filter(rows, IsNameRow) == EntriesToRows(Seqs.Filter(rec, IsNameEntry), Stringify)
    ensures forall i :: 0 <= i < |rec| ==> Row(rec[i].key, Stringify(rec[i].value)) in rows
  {
    var rows := EntriesToRows(OwnEntries(rec), Stringify);
    OwnRowsLength(rec, Stringify, rows);
    OwnRowsOrder(rec, Stringify, rows);
    OwnRowsNames(rec, Stringify, rows);
    OwnRowsCover(rec, Stringify, rows);
    rows
  }

  /** A row whose key is not an array index. */
  predicate IsNameRow(row: Row) {
    !Text.IsArrayIndex(row.key)
  }

  /** Rendering commutes with keeping the entries under non-index keys. */
  lemma {:induction false} NameRows<V>(es: seq<Entry<V>>, render: V -> string)
    ensures Seqs.Filter(EntriesToRows(es, render), IsNameRow) == EntriesToRows(Seqs.Filter(es, IsNameEntry), render)
  {
    if |es| > 0 {
      NameRows(es[1..], render);
      assert EntriesToRows(es, render)[1..] == EntriesToRows(es[1..], render);
    }
  }

  /** A record already in own-key order is shown in its own order. */
  lemma RecordToRowsInOrder(rec: Record)
    requires Text.OwnKeyOrder(Keys(rec))
    ensures RecordToRows(rec) == EntriesToRows(rec, Stringify)
  {
    OwnEntriesInOrder(rec);
  }

  lemma OwnRowsLength<V>(m: seq<Entry<V>>, render: V -> string, rows: seq<Row>)
    requires rows == EntriesToRows(OwnEntries(m), render)
    ensures |rows| == |m|
  {
    assert |multiset(OwnEntries(m))| == |multiset(m)|;
  }

  lemma OwnRowsOrder<V>(m: seq<Entry<V>>, render: V -> string, rows: seq<Row>)
    requires rows == EntriesToRows(OwnEntries(m), render)
    ensures Text.OwnKeyOrder(RowKeys(rows))
  {
    OwnEntriesOrder(m);
    assert RowKeys(rows) == Keys(OwnEntries(m));
  }

  lemma OwnRowsNames<V>(m: seq<Entry<V>>, render: V -> string, rows: seq<Row>)
    requires rows == EntriesToRows(OwnEntries(m), render)
    ensures Seqs.Filter(rows, IsNameRow) == EntriesToRows(Seqs.Filter(m, IsNameEntry), render)
  {
    OwnEntriesOrder(m);
    NameRows(OwnEntries(m), render);
  }

  lemma OwnRowsCover<V>(m: seq<Entry<V>>, render: V -> string, rows: seq<Row>)
    requires rows == EntriesToRows(OwnEntries(m), render)
    ensures forall i :: 0 <= i < |m| ==> Row(m[i].key, render(m[i].value)) in rows
  {
    var es := OwnEntries(m);
    forall i | 0 <= i < |m| ensures Row(m[i].key, render(m[i].value)) in rows {
      assert m[i] in multiset(es);
      var j :| 0 <= j < |es| && es[j] == m[i];
      assert rows[j] == Row(m[i].key, render(m[i].value));
    }
  }

  /** The rows that name a key, as string entries, in order. */
  function NamedEntries(rows: seq<Row>): (es: seq<Entry<Value>>)
    ensures |es| <= |rows|
    ensures forall i :: 0 <= i < |es| ==> es[i].key != "" && es[i].value.VStr?
  {
    if |rows| == 0 then []
    else
      var rest := NamedEntries(rows[1..]);
      if rows[0].key != "" then [Entry(rows[0].key, VStr(rows[0].value))] + rest else rest
  }

  /** Rows as a record (`Object.fromEntries`): rows with an empty key are dropped, and a later row wins a repeated key. */
  function RowsToRecord(rows: seq<Row>): Record {
    PutAll([], NamedEntries(rows))
  }

  predicate KeysNamedAndDistinct(rows: seq<Row>) {
    (forall i :: 0 <= i < |rows| ==> rows[i].key != "") &&
    (forall i, j :: 0 <= i < j < |rows| ==> rows[i].key != rows[j].key)
  }

  lemma {:induction false} NamedEntriesOfNamed(rows: seq<Row>)
    requires forall i :: 0 <= i < |rows| ==> rows[i].key != ""
    ensures NamedEntries(rows) == seq(|rows|, i requires 0 <= i < |rows| => Entry(rows[i].key, VStr(rows[i].value)))
    decreases |rows|
  {
    if |rows| > 0 {
      NamedEntriesOfNamed(rows[1..]);
    }
  }

  /** The keys of the record are exactly the keys the rows name; the empty key never appears. */
  lemma RowsToRecordKeys(rows: seq<Row>, k: string)
    ensures Get(RowsToRecord(rows), k).Some? <==> k != "" && exists i :: 0 <= i < |rows| && rows[i].key == k
  {
    var es := NamedEntries(rows);
    PutAllKeys([], es, k);
    NamedEntriesKeys(rows, k);
  }

  /** A repeated key takes the value of its last row. */
  lemma RowsToRecordLastWins(rows: seq<Row>, j: nat)
    requires j < |rows| && rows[j].key != ""
    requires forall i :: j < i < |rows| ==> rows[i].key != rows[j].key
    ensures Get(RowsToRecord(rows), rows[j].key) == Some(VStr(rows[j].value))
  {
    LastRowWins([], rows, j);
  }

  lemma {:induction false} LastRowWins(m: Record, rows: seq<Row>, j: nat)
    requires j < |rows| && rows[j].key != ""
    requires forall i :: j < i < |rows| ==> rows[i].key != rows[j].key
    ensures Get(PutAll(m, NamedEntries(rows)), rows[j].key) == Some(VStr(rows[j].value))
    decreases |rows|
  {
    var k := rows[j].key;
    var rest := NamedEntries(rows[1..]);
    if rows[0].key != "" {
      var e := Entry(rows[0].key, VStr(rows[0].value));
      assert NamedEntries(rows) == [e] + rest;
      assert ([e] + rest)[1..] == rest;
      if j == 0 {
        NamedEntriesKeys(rows[1..], k);
        PutAllAbsent(Put(m, k, e.value), rest, k);
        PutGet(m, k, e.value, k);
      } else {
        assert rows[1..][j - 1] == rows[j];
        LastRowWins(Put(m, e.key, e.value), rows[1..], j - 1);
      }
    } else {
      assert rows[1..][j - 1] == rows[j];
      LastRowWins(m, rows[1..], j - 1);
    }
  }

  lemma {:induction false} NamedEntriesKeys(rows: seq<Row>, k: string)
    ensures k in Keys(NamedEntries(rows)) <==> k != "" && exists i :: 0 <= i < |rows| && rows[i].key == k
    decreases |rows|
  {
    if |rows| > 0 {
      NamedEntriesKeys(rows[1..], k);
      var rest := NamedEntries(rows[1..]);
      if rows[0].key != "" {
        assert Keys(NamedEntries(rows)) == [rows[0].key] + Keys(rest);
      }
      if exists i :: 0 <= i < |rows| && rows[i].key == k {
        var i :| 0 <= i < |rows| && rows[i].key == k;
        if i > 0 {
          assert rows[1..][i - 1].key == k;
        }
      }
      if exists i :: 0 <= i < |rows[1..]| && rows[1..][i].key == k {
        var i :| 0 <= i < |rows[1..]| && rows[1..][i].key == k;
        assert rows[i + 1].key == k;
      }
    }
  }

  /** After spreading `es` over `m`, a key is present exactly when it was in `m` or is a key of `es`. */
  lemma {:induction false} PutAllKeys(m: Record, es: seq<Entry<Value>>, k: string)
    ensures Get(PutAll(m, es), k).Some? <==> k in Keys(m) || k in Keys(es)
    decreases |es|
  {
    if |es| > 0 {
      assert Keys(es) == [es[0].key] + Keys(es[1..]);
      PutAllKeys(Put(m, es[0].key, es[0].value), es[1..], k);
      PutKeys(m, es[0].key, es[0].value);
      PutGet(m, es[0].key, es[0].value, k);
    }
  }

  /** Rows with distinct, non-empty keys come back from a record unchanged exactly when they are
      already in own-key order; otherwise the record lists its array-index keys first. */
  lemma RowsRoundTrip(rows: seq<Row>)
    requires KeysNamedAndDistinct(rows)
    ensures RecordToRows(RowsToRecord(rows)) == rows <==> Text.OwnKeyOrder(RowKeys(rows))
  {
    NamedRecord(rows);
    if Text.OwnKeyOrder(RowKeys(rows)) {
      RecordToRowsInOrder(NamedEntries(rows));
    }
  }

  /** Rows with distinct, non-empty keys become one string entry each, in order. */
  lemma NamedRecord(rows: seq<Row>)
    requires KeysNamedAndDistinct(rows)
    ensures RowsToRecord(rows) == NamedEntries(rows)
    ensures Keys(NamedEntries(rows)) == RowKeys(rows)
    ensures EntriesToRows(NamedEntries(rows), Stringify) == rows
  {
    NamedEntriesOfNamed(rows);
    NamedKeys(rows);
    var es := NamedEntries(rows);
    assert [] + es == es;
    PutAllFresh([], es);
    NamedRows(rows);
  }

  lemma NamedKeys(rows: seq<Row>)
    requires forall i :: 0 <= i < |rows| ==> rows[i].key != ""
    ensures Keys(NamedEntries(rows)) == RowKeys(rows)
  {
    NamedEntriesOfNamed(rows);
  }

  lemma NamedRows(rows: seq<Row>)
    requires forall i :: 0 <= i < |rows| ==> rows[i].key != ""
    ensures EntriesToRows(NamedEntries(rows), Stringify) == rows
  {
    NamedEntriesOfNamed(rows);
  }

  /** The rows `b`, then `1`, come back with the array-index key `1` first. */
  lemma RowsReordered()
    ensures RecordToRows(RowsToRecord([Row("b", "x"), Row("1", "y")])) == [Row("1", "y"), Row("b", "x")]
  {
    ExampleRecord();
    ExampleRows();
  }

  lemma ExampleRecord()
    ensures RowsToRecord([Row("b", "x"), Row("1", "y")]) == [Entry("b", VStr("x")), Entry("1", VStr("y"))]
  {
    var rows := [Row("b", "x"), Row("1", "y")];
    NamedRecord(rows);
    NamedEntriesOfNamed(rows);
  }

  lemma ExampleRows()
    ensures RecordToRows([Entry("b", VStr("x")), Entry("1", VStr("y"))]) == [Row("1", "y"), Row("b", "x")]
  {
    var eb, e1 := Entry("b", VStr("x")), Entry("1", VStr("y"));
    OneIsAnIndex();
    IndexKeyFirst(eb, e1);
    assert EntriesToRows([e1, eb], Stringify) == [Row("1", "y"), Row("b", "x")];
  }

  lemma OneIsAnIndex()
    ensures Text.IsArrayIndex("1") && !Text.IsArrayIndex("b")
  {
    assert "1"[..0] == "";
  }

  /** A record of string values under distinct non-empty keys comes back from its rows as its
      own-key listing: the same property reads, and the same order when it was in own-key order. */
  lemma RecordRoundTrip(rec: Record)
    requires DistinctKeys(rec)
    requires forall i :: 0 <= i < |rec| ==> rec[i].key != "" && rec[i].value.VStr?
    ensures RowsToRecord(RecordToRows(rec)) == OwnEntries(rec)
    ensures forall k :: Get(RowsToRecord(RecordToRows(rec)), k) == Get(rec, k)
    ensures RowsToRecord(RecordToRows(rec)) == rec <==> Text.OwnKeyOrder(Keys(rec))
  {
    RecordBack(rec);
    forall k ensures Get(OwnEntries(rec), k) == Get(rec, k) {
      OwnEntriesGet(rec, k);
    }
    if Text.OwnKeyOrder(Keys(rec)) {
      OwnEntriesInOrder(rec);
    }
  }

  lemma RecordBack(rec: Record)
    requires DistinctKeys(rec)
    requires forall i :: 0 <= i < |rec| ==> rec[i].key != "" && rec[i].value.VStr?
    ensures RowsToRecord(RecordToRows(rec)) == OwnEntries(rec)
  {
    var es := OwnEntries(rec);
    StringRowsBack(rec);
    OwnEntriesDistinct(rec);
    assert [] + es == es;
    PutAllFresh([], es);
  }

  /** The rows of a record of strings under non-empty keys name every entry and read back as its
      own-key listing. */
  lemma StringRowsBack(rec: Record)
    requires forall i :: 0 <= i < |rec| ==> rec[i].key != "" && rec[i].value.VStr?
    ensures NamedEntries(RecordToRows(rec)) == OwnEntries(rec)
  {
    var es := OwnEntries(rec);
    var rows := RecordToRows(rec);
    forall i | 0 <= i < |es| ensures es[i].key != "" && es[i].value.VStr? {
      assert es[i] in multiset(rec);
    }
    assert forall i :: 0 <= i < |rows| ==> rows[i] == Row(es[i].key, Stringify(es[i].value));
    NamedEntriesOfNamed(rows);
  }

  /** The two editors' rows. */
  class DatabaseFields {
    var queryFields: seq<Row>
    var dataFields: seq<Row>

    constructor (query: Record, data: Record)
      ensures queryFields == RecordToRows(query) && dataFields == RecordToRows(data)
    {
      queryFields := RecordToRows(query);
      dataFields := RecordToRows(data);
    }

    function Rows(list: FieldList): seq<Row>
      reads this
    {
      if list == QueryFields then queryFields else dataFields
    }

    /** Appends an empty row to the chosen editor only. */
    method AddField(list: FieldList)
      modifies this
      ensures Rows(list) == old(Rows(list)) + [Row("", "")]
      ensures list == QueryFields ==> dataFields == old(dataFields)
      ensures list == DataFields ==> queryFields == old(queryFields)
    {
      if list == QueryFields {
        queryFields := queryFields + [Row("", "")];
      } else {
        dataFields := dataFields + [Row("", "")];
      }
    }

    /** Removes the row at `index` from the chosen editor, keeping the others in order; any other index removes nothing. */
    method RemoveField(list: FieldList, index: int)
      modifies this
      ensures 0 <= index < |old(Rows(list))| ==>
        |Rows(list)| == |old(Rows(list))| - 1 &&
        Rows(list) == old(Rows(list))[..index] + old(Rows(list))[index + 1..]
      ensures !(0 <= index < |old(Rows(list))|) ==> Rows(list) == old(Rows(list))
      ensures list == QueryFields ==> dataFields == old(dataFields)
      ensures list == DataFields ==> queryFields == old(queryFields)
    {
      if index < 0 {
        return;
      }
      if list == QueryFields {
        queryFields := Seqs.RemoveAt(queryFields, index);
      } else {
        dataFields := Seqs.RemoveAt(dataFields, index);
      }
    }

    /** Sets the key or the value of the row at `index` in the chosen editor; nothing else changes. */
    method UpdateField(list: FieldList, index: nat, field: RowField, value: string)
      requires index < |Rows(list)|
      modifies this
      ensures |Rows(list)| == |old(Rows(list))|
      ensures field == KeyField ==> Rows(list)[index] == old(Rows(list))[index].(key := value)
      ensures field == ValueField ==> Rows(list)[index] == old(Rows(list))[index].(value := value)
      ensures forall i :: 0 <= i < |Rows(list)| && i != index ==> Rows(list)[i] == old(Rows(list))[i]
      ensures list == QueryFields ==> dataFields == old(dataFields)
      ensures list == DataFields ==> queryFields == old(queryFields)
    {
      var newFields := Rows(list);
      var row := newFields[index];
      newFields := newFields[index := if field == KeyField then row.(key := value) else row.(value := value)];
      if list == QueryFields {
        queryFields := newFields;
      } else {
        dataFields := newFields;
      }
    }
  }
}
