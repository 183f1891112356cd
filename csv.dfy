/** `parseCSV` of src/components/DataUpload.tsx: the content is split into
    lines on '\n', the first line into headers on ','; every later line
    becomes one record whose properties are the trimmed headers, each
    holding the trimmed field at the same position, coerced to a number
    when `isNaN` says it is one. */
module Csv {
  import opened Seqs
  import opened Text
  import opened Records

  /** `isNaN(value) ? value : parseFloat(value)` for a present, trimmed
      field. `isNaN("")` is false, so the empty field becomes
      `parseFloat("")`, which is NaN. */
  function Coerce(t: string, fmt: NumberFormat): Value {
    if fmt.isNaN(t) then Str(t)
    else if fmt.parseFloat(t).Some? then Num(fmt.parseFloat(t).value)
    else NaN
  }

  /** The value stored for column `j` of a line split into `fields`:
      `currentLine[j]?.trim()` coerced; a field missing from a short line
      is `undefined`, and `isNaN(undefined)` keeps it so. */
  function FieldValue(fields: seq<string>, j: nat, fmt: NumberFormat): Value {
    if j < |fields| then Coerce(Trim(fields[j]), fmt) else Undef
  }

  /** The trimmed headers, `headers[j].trim()` for every j. */
  function TrimAll(headers: seq<string>): (r: seq<string>)
    ensures |r| == |headers|
  {
    if headers == [] then [] else TrimAll(headers[..|headers| - 1]) + [Trim(headers[|headers| - 1])]
  }

  lemma {:induction false} TrimAllAt(headers: seq<string>, j: nat)
    requires j < |headers|
    ensures TrimAll(headers)[j] == Trim(headers[j])
  {
    if j < |headers| - 1 {
      TrimAllAt(headers[..|headers| - 1], j);
    }
  }

  /** The object the inner loop has built after assigning the first `n`
      keys, one `obj[key] = value` at a time. */
  function RowPrefix(keys: seq<string>, fields: seq<string>, n: nat, fmt: NumberFormat): Record
    requires n <= |keys|
  {
    if n == 0 then EmptyRecord
    else Assign(RowPrefix(keys, fields, n - 1, fmt), keys[n - 1], FieldValue(fields, n - 1, fmt))
  }

  /** The record for one data line under the raw header cells `headers`. */
  function Row(headers: seq<string>, line: string, fmt: NumberFormat): Record {
    RowPrefix(TrimAll(headers), Split(line, ','), |headers|, fmt)
  }

  /** `parseCSV`: one record per line after the header line, in line order
      (a trailing empty line included), so as many records as the content
      has line breaks. */
  method ParseCsv(content: string, fmt: NumberFormat) returns (result: seq<Record>)
    ensures |result| == multiset(content)['\n']
    ensures forall i :: 0 <= i < |result| ==>
      result[i] == Row(Split(Split(content, '\n')[0], ','), Split(content, '\n')[i + 1], fmt)
  {
    var lines := Split(content, '\n');
    var headers := Split(lines[0], ',');
    var body := lines[1..];
    result := [];
    for i := 0 to |body|
      invariant result == Rows(headers, body[..i], fmt)
    {
      var obj := ParseLine(headers, body[i], fmt);
      RowsSnoc(headers, body, i, fmt);
      result := result + [obj];
    }
    RowsOfBody(headers, lines, fmt);
  }

  /** The records of every line after the first, by position. */
  lemma RowsOfBody(headers: seq<string>, lines: seq<string>, fmt: NumberFormat)
    requires |lines| > 0
    ensures var r := Rows(headers, lines[1..][..|lines| - 1], fmt);
      && |r| == |lines| - 1
      && forall k :: 0 <= k < |r| ==> r[k] == Row(headers, lines[k + 1], fmt)
  {
    var body := lines[1..];
    assert body[..|body|] == body;
    forall k | 0 <= k < |body| ensures Rows(headers, body, fmt)[k] == Row(headers, lines[k + 1], fmt) {
      RowsAt(headers, body, fmt, k);
    }
  }

  /** The records of the data lines, one per line. */
  function Rows(headers: seq<string>, lines: seq<string>, fmt: NumberFormat): (r: seq<Record>)
    ensures |r| == |lines|
  {
    if lines == [] then [] else Rows(headers, lines[..|lines| - 1], fmt) + [Row(headers, lines[|lines| - 1], fmt)]
  }

  /** One more line gives one more record. */
  lemma RowsSnoc(headers: seq<string>, lines: seq<string>, i: nat, fmt: NumberFormat)
    requires i < |lines|
    ensures Rows(headers, lines[..i + 1], fmt) == Rows(headers, lines[..i], fmt) + [Row(headers, lines[i], fmt)]
  {
    assert lines[..i + 1][..i] == lines[..i];
  }

  lemma {:induction false} RowsAt(headers: seq<string>, lines: seq<string>, fmt: NumberFormat, k: nat)
    requires k < |lines|
    ensures Rows(headers, lines, fmt)[k] == Row(headers, lines[k], fmt)
  {
    if k < |lines| - 1 {
      RowsAt(headers, lines[..|lines| - 1], fmt, k);
    }
  }

  /** The body of the outer loop of `parseCSV`: builds the object for one
      line by assigning every header in turn. */
  method ParseLine(headers: seq<string>, line: string, fmt: NumberFormat) returns (obj: Record)
    ensures obj == Row(headers, line, fmt)
  {
    obj := EmptyRecord;
    var currentLine := Split(line, ',');
    for j := 0 to |headers|
      invariant obj == RowPrefix(TrimAll(headers), currentLine, j, fmt)
    {
      var value := FieldValue(currentLine, j, fmt);
      RowPrefixNext(headers, currentLine, j, fmt);
      obj := Assign(obj, Trim(headers[j]), value);
    }
  }

  /** One more header assigned: the object gains the trimmed header `j`
      with the value of field `j`. */
  lemma RowPrefixNext(headers: seq<string>, fields: seq<string>, j: nat, fmt: NumberFormat)
    requires j < |headers|
    ensures RowPrefix(TrimAll(headers), fields, j + 1, fmt)
      == Assign(RowPrefix(TrimAll(headers), fields, j, fmt), Trim(headers[j]), FieldValue(fields, j, fmt))
  {
    TrimAllAt(headers, j);
  }

  /** The record is well formed and its properties are exactly the keys. */
  lemma {:induction false} RowPrefixKeys(keys: seq<string>, fields: seq<string>, n: nat, fmt: NumberFormat)
    requires n <= |keys|
    ensures WellFormed(RowPrefix(keys, fields, n, fmt))
    ensures forall k :: k in RowPrefix(keys, fields, n, fmt).created <==> k in keys[..n]
  {
    if n > 0 {
      RowPrefixKeys(keys, fields, n - 1, fmt);
      AssignKeepsWellFormed(RowPrefix(keys, fields, n - 1, fmt), keys[n - 1], FieldValue(fields, n - 1, fmt));
      PrefixSnoc(keys, n);
    }
  }

  /** With distinct keys the properties are created in key order. */
  lemma {:induction false} RowPrefixKeysInOrder(keys: seq<string>, fields: seq<string>, n: nat, fmt: NumberFormat)
    requires n <= |keys|
    requires Distinct(keys)
    ensures RowPrefix(keys, fields, n, fmt).created == keys[..n]
  {
    if n > 0 {
      RowPrefixKeysInOrder(keys, fields, n - 1, fmt);
      RowPrefixKeys(keys, fields, n - 1, fmt);
      DistinctNotBefore(keys, n);
      AssignKeepsWellFormed(RowPrefix(keys, fields, n - 1, fmt), keys[n - 1], FieldValue(fields, n - 1, fmt));
      PrefixSnoc(keys, n);
    }
  }

  /** The value under a key is the coerced field at the last position
      carrying that key: later assignments overwrite earlier ones. */
  lemma {:induction false} RowPrefixValue(keys: seq<string>, fields: seq<string>, n: nat, fmt: NumberFormat, j: nat)
    requires j < n <= |keys|
    requires forall j' :: j < j' < n ==> keys[j'] != keys[j]
    ensures Lookup(RowPrefix(keys, fields, n, fmt), keys[j]) == FieldValue(fields, j, fmt)
  {
    if j < n - 1 {
      RowPrefixValue(keys, fields, n - 1, fmt, j);
    }
  }

  /** Fields beyond the header count never reach the record. */
  lemma {:induction false} RowPrefixIgnoresExtraFields(keys: seq<string>, fields: seq<string>, n: nat, fmt: NumberFormat)
    requires n <= |keys| <= |fields|
    ensures RowPrefix(keys, fields, n, fmt) == RowPrefix(keys, fields[..|keys|], n, fmt)
  {
    if n > 0 {
      RowPrefixIgnoresExtraFields(keys, fields, n - 1, fmt);
      assert FieldValue(fields[..|keys|], n - 1, fmt) == FieldValue(fields, n - 1, fmt) by {
        assert fields[..|keys|][n - 1] == fields[n - 1];
      }
    }
  }

  /** Everything the parser promises about one data line: its record is
      well formed, its properties are the trimmed headers and nothing else
      (in header order when those are distinct), the value under each
      trimmed header is the coerced field at the last position carrying it
      (`undefined` on a short line), any other property reads as
      `undefined`, and fields beyond the header count are dropped. */
  lemma RowShape(headers: seq<string>, line: string, fmt: NumberFormat)
    ensures WellFormed(Row(headers, line, fmt))
    ensures forall k :: k in Row(headers, line, fmt).created <==> k in TrimAll(headers)
    ensures Distinct(TrimAll(headers)) ==> Row(headers, line, fmt).created == TrimAll(headers)
    ensures forall j :: 0 <= j < |headers| && (forall j' :: j < j' < |headers| ==> Trim(headers[j']) != Trim(headers[j])) ==>
      Lookup(Row(headers, line, fmt), Trim(headers[j])) == FieldValue(Split(line, ','), j, fmt)
    ensures forall k :: k !in TrimAll(headers) ==> Lookup(Row(headers, line, fmt), k) == Undef
    ensures |Split(line, ',')| >= |headers| ==>
      Row(headers, line, fmt) == RowPrefix(TrimAll(headers), Split(line, ',')[..|headers|], |headers|, fmt)
  {
    var keys := TrimAll(headers);
    var fields := Split(line, ',');
    var n := |headers|;
    RowPrefixKeys(keys, fields, n, fmt);
    assert keys[..n] == keys;
    if Distinct(keys) {
      RowPrefixKeysInOrder(keys, fields, n, fmt);
    }
    RowValues(headers, line, fmt);
    if |fields| >= n {
      RowPrefixIgnoresExtraFields(keys, fields, n, fmt);
    }
  }

  /** The value under each trimmed header is the coerced field at the last
      position carrying it. */
  lemma RowValues(headers: seq<string>, line: string, fmt: NumberFormat)
    ensures forall j :: 0 <= j < |headers| && (forall j' :: j < j' < |headers| ==> Trim(headers[j']) != Trim(headers[j])) ==>
      Lookup(Row(headers, line, fmt), Trim(headers[j])) == FieldValue(Split(line, ','), j, fmt)
  {
    var keys := TrimAll(headers);
    var fields := Split(line, ',');
    var n := |headers|;
    forall j | 0 <= j < n && (forall j' :: j < j' < n ==> Trim(headers[j']) != Trim(headers[j]))
      ensures Lookup(Row(headers, line, fmt), Trim(headers[j])) == FieldValue(fields, j, fmt)
    {
      TrimAllAt(headers, j);
      forall j' | j < j' < n ensures keys[j'] != keys[j] {
        TrimAllAt(headers, j');
      }
      RowPrefixValue(keys, fields, n, fmt, j);
    }
  }
}
