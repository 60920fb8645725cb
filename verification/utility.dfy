/** Record utilities applied to records crossing between the two stores:
    stripping the keys the remote store must not receive, removing the
    bogus midnight time of streamed date values, and flattening nested
    query results into plain arrays. */
module Utility {
  import opened Values

  // ---------------------------------------------------------------------
  // removeNonSfKeys

  /** A key the remote store must not receive: it starts with `_`, ends in
      `__r` (a relationship snapshot), contains `.` (a nested-update path),
      or its value is an array, an object or `undefined`. */
  predicate NonSfKey(k: string, v: Value)
  {
    || (|k| > 0 && k[0] == '_')
    || (|k| >= 3 && k[|k| - 3..] == "__r")
    || '.' in k
    || IsObjectLike(v)
    || v == Undefined
  }

  /** A copy of `record` without its non-remote keys; the input is a value
      and so is left as it was. */
  function RemoveNonSfKeys(record: Record): (r: Record)
    ensures forall k :: k in r <==> k in record && !NonSfKey(k, record[k])
    ensures forall k :: k in r ==> r[k] == record[k]
  {
    map k | k in record && !NonSfKey(k, record[k]) :: record[k]
  }

  /** What is sent to the remote store holds scalars only, under plain keys. */
  lemma RemoveNonSfKeysSafe(record: Record)
    ensures forall k :: k in RemoveNonSfKeys(record) ==>
      var v := RemoveNonSfKeys(record)[k];
      !IsObjectLike(v) && v != Undefined && '.' !in k && (|k| > 0 ==> k[0] != '_')
  {
  }

  /** Stripping twice strips nothing more. */
  lemma RemoveNonSfKeysIdempotent(record: Record)
    ensures RemoveNonSfKeys(RemoveNonSfKeys(record)) == RemoveNonSfKeys(record)
  {
    var once := RemoveNonSfKeys(record);
    assert RemoveNonSfKeys(once).Keys == once.Keys;
  }

  // ---------------------------------------------------------------------
  // cleanTimeStampInDateFields

  predicate IsDigit(c: char)
  {
    '0' <= c <= '9'
  }

  /** `\d{4}-\d{2}-\d{2}`, the whole string. */
  predicate IsIsoDate(s: string)
  {
    && |s| == 10
    && IsDigit(s[0]) && IsDigit(s[1]) && IsDigit(s[2]) && IsDigit(s[3])
    && s[4] == '-'
    && IsDigit(s[5]) && IsDigit(s[6])
    && s[7] == '-'
    && IsDigit(s[8]) && IsDigit(s[9])
  }

  const MidnightSuffix: string := "T00:00:00.000+0000"

  /** `^(\d{4}-\d{2}-\d{2})T00:00:00\.000\+0000$` */
  predicate IsMidnightStamp(s: string)
  {
    |s| == 10 + |MidnightSuffix| && IsIsoDate(s[..10]) && s[10..] == MidnightSuffix
  }

  function CleanDateValue(v: Value): Value
  {
    if v.Str? && IsMidnightStamp(v.s) then Str(v.s[..10]) else v
  }

  /** A copy of `obj` in which each midnight time stamp is cut down to its
      date; every other value and the key set are unchanged. */
  function CleanTimeStampInDateFields(obj: Record): (r: Record)
    ensures r.Keys == obj.Keys
    ensures forall k :: k in obj && obj[k].Str? && IsMidnightStamp(obj[k].s) ==>
      r[k] == Str(obj[k].s[..10]) && IsIsoDate(r[k].s)
    ensures forall k :: k in obj && !(obj[k].Str? && IsMidnightStamp(obj[k].s)) ==> r[k] == obj[k]
  {
    map k | k in obj :: CleanDateValue(obj[k])
  }

  /** The date kept is exactly the stamp without its midnight suffix, and
      every date with that suffix is recognised: nothing else is cut. */
  lemma MidnightStampRoundTrip(date: string)
    requires IsIsoDate(date)
    ensures IsMidnightStamp(date + MidnightSuffix)
    ensures CleanDateValue(Str(date + MidnightSuffix)) == Str(date)
  {
    var s := date + MidnightSuffix;
    assert s[..10] == date;
    assert s[10..] == MidnightSuffix;
  }

  lemma MidnightStampSplits(s: string)
    requires IsMidnightStamp(s)
    ensures s == s[..10] + MidnightSuffix
  {
  }

  /** Cleaning twice changes nothing more: a bare date is not a stamp. */
  lemma CleanTimeStampIdempotent(obj: Record)
    ensures CleanTimeStampInDateFields(CleanTimeStampInDateFields(obj)) == CleanTimeStampInDateFields(obj)
  {
    var once := CleanTimeStampInDateFields(obj);
    forall k | k in once
      ensures CleanDateValue(once[k]) == once[k]
    {
      if obj[k].Str? && IsMidnightStamp(obj[k].s) {
        assert |once[k].s| == 10;
      }
    }
  }

  // ---------------------------------------------------------------------
  // cleanSfRecord

  /** An entry holding a nested query result `{records: [...]}`. */
  predicate HoldsRecords(v: Value)
  {
    v.Obj? && "records" in v.fields && v.fields["records"].Arr?
  }

  /** The new value of one entry: a nested query result becomes the array
      of its cleaned records, anything else stays. */
  function CleanEntry(v: Value): Value
    decreases v, 2
  {
    if HoldsRecords(v) then
      var items := v.fields["records"].items;
      Arr(seq(|items|, i requires 0 <= i < |items| => CleanObject(items[i])))
    else v
  }

  /** What the cleaning returns for one element of a nested result: an
      object or array has each of its entries cleaned, a scalar is kept. */
  function CleanObject(v: Value): Value
    decreases v, 1
  {
    match v
    case Obj(m) => Obj(CleanedRecord(m))
    case Arr(items) => Arr(seq(|items|, i requires 0 <= i < |items| => CleanEntry(items[i])))
    case _ => v
  }

  /** The record after `cleanSfRecord`. */
  function CleanedRecord(obj: Record): (r: Record)
    ensures r.Keys == obj.Keys
    ensures forall k :: k in obj && !HoldsRecords(obj[k]) ==> r[k] == obj[k]
    ensures forall k :: k in obj && HoldsRecords(obj[k]) ==>
      var items := obj[k].fields["records"].items;
      && r[k].Arr? && |r[k].items| == |items|
      && (forall i :: 0 <= i < |items| && items[i].Obj? ==> r[k].items[i] == Obj(CleanedRecord(items[i].fields)))
      && (forall i :: 0 <= i < |items| && !items[i].Obj? && !items[i].Arr? ==> r[k].items[i] == items[i])
    ensures forall k :: k in r ==> !HoldsRecords(r[k])
    decreases Obj(obj), 0
  {
    var r := map k | k in obj :: CleanEntry(obj[k]);
    assert forall k, i :: k in obj && HoldsRecords(obj[k]) && 0 <= i < |obj[k].fields["records"].items| ==>
      r[k].items[i] == CleanObject(obj[k].fields["records"].items[i]);
    r
  }

  /** `cleanSfRecord`: a pass over the keys that overwrites each entry
      holding a nested query result. */
  method CleanSfRecord(obj: Record) returns (r: Record)
    ensures r == CleanedRecord(obj)
  {
    r := obj;
    var pending := obj.Keys;
    while pending != {}
      invariant pending <= obj.Keys
      invariant r.Keys == obj.Keys
      invariant forall k :: k in obj && k !in pending ==> r[k] == CleanEntry(obj[k])
      invariant forall k :: k in pending ==> r[k] == obj[k]
      decreases pending
    {
      var k :| k in pending;
      var val := r[k];
      if HoldsRecords(val) {
        r := r[k := CleanEntry(val)];
      }
      pending := pending - {k};
    }
  }

  /** Cleaning a cleaned record changes nothing: a flattened entry is an array. */
  lemma CleanedRecordIdempotent(obj: Record)
    ensures CleanedRecord(CleanedRecord(obj)) == CleanedRecord(obj)
  {
    var once := CleanedRecord(obj);
    forall k | k in once
      ensures CleanEntry(once[k]) == once[k]
    {
      if HoldsRecords(obj[k]) {
        assert once[k].Arr?;
      }
    }
  }

  /** `cleanSfRecord` as written: the nested call reads `this.cleanSfRecord`,
      and `this` is unbound when the function is called as an imported
      function, so an entry holding records makes it throw. */
  function CleanSfRecordAsWritten(obj: Record): (r: Result<Record>)
    ensures r.Ok? <==> forall k :: k in obj ==> !HoldsRecords(obj[k])
    ensures r.Ok? ==> r.value == obj
  {
    if exists k :: k in obj && HoldsRecords(obj[k]) then
      Threw(TypeError("Cannot read properties of undefined (reading 'cleanSfRecord')"))
    else
      Ok(obj)
  }

  /** Where the code as written does not throw it agrees with the intended cleaning. */
  lemma CleanSfRecordAsWrittenAgrees(obj: Record)
    requires CleanSfRecordAsWritten(obj).Ok?
    ensures CleanSfRecordAsWritten(obj).value == CleanedRecord(obj)
  {
  }

  /** A record carrying a nested child query result: the code as written
      throws, the intended cleaning flattens it to the array of children. */
  lemma CleanSfRecordAsWrittenThrows()
    ensures var child := Obj(map["Id" := Str("003A")]);
            var obj := map["Contacts" := Obj(map["records" := Arr([child])])];
            && CleanSfRecordAsWritten(obj).Threw?
            && CleanedRecord(obj)["Contacts"] == Arr([child])
  {
    var child := Obj(map["Id" := Str("003A")]);
    var obj := map["Contacts" := Obj(map["records" := Arr([child])])];
    assert HoldsRecords(obj["Contacts"]);
    assert CleanObject(child) == child by {
      assert CleanEntry(Str("003A")) == Str("003A");
      assert (map k | k in child.fields :: CleanEntry(child.fields[k])) == child.fields;
    }
  }
}
