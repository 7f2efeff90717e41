/** What the generators hand to the object store: records as the dictionaries
    the scripts build, the three serialisation formats with their content
    types, the object-key template, and the store itself with the one
    `save_to_minio_bucket` step every script ends with. */
module Storage {
  import opened Numerals
  import opened Calendar

  /** A dictionary value as the scripts build it. `Fixed(units, places)` is a
      float rounded to `places` decimals, kept as units of 10^-places; `Day`
      is a `datetime.date` object, which Parquet stores as a date column. */
  datatype Value =
    | Text(s: string)
    | Int(i: int)
    | Fixed(units: int, places: nat)
    | Bool(b: bool)
    | Day(d: Date)
    | Obj(fields: seq<Field>)

  /** One key of a dictionary literal and its value, in insertion order. */
  type Field = (string, Value)

  function Keys(fields: seq<Field>): seq<string>
  {
    seq(|fields|, i requires 0 <= i < |fields| => fields[i].0)
  }

  /** No key occurs twice. */
  predicate Distinct(keys: seq<string>)
  {
    forall i, j :: 0 <= i < j < |keys| ==> keys[i] != keys[j]
  }

  /** Two key lists without repeats and without a common key join into one
      without repeats. */
  lemma DistinctConcat(a: seq<string>, b: seq<string>)
    requires Distinct(a) && Distinct(b)
    requires forall k :: k in a ==> k !in b
    ensures Distinct(a + b)
  {
    forall i, j | 0 <= i < j < |a + b|
      ensures (a + b)[i] != (a + b)[j]
    {
      if i < |a| && j >= |a| {
        assert a[i] in a;
        assert (a + b)[j] == b[j - |a|];
      }
    }
  }

  /** The dictionary literal `{keys[0]: values[0], ...}`. A literal that
      repeated a key would keep only one entry, so the keys must differ. */
  function Dict(keys: seq<string>, values: seq<Value>): (fields: seq<Field>)
    requires Distinct(keys) && |keys| == |values|
    ensures Keys(fields) == keys
    ensures forall i :: 0 <= i < |keys| ==> fields[i].1 == values[i]
  {
    seq(|keys|, i requires 0 <= i < |keys| => (keys[i], values[i]))
  }

  /** A non-empty nested dictionary whose keys are exactly `keys`. */
  predicate IsGroup(v: Value, keys: seq<string>)
  {
    v.Obj? && |v.fields| > 0 && Keys(v.fields) == keys
  }

  /** The list of dictionaries handed to `json.dumps` or `pd.DataFrame`. */
  function Table<T>(records: seq<T>, row: T -> seq<Field>): seq<Value>
  {
    seq(|records|, i requires 0 <= i < |records| => Obj(row(records[i])))
  }

  /** When every record's dictionary has the same keys, the table has one
      dictionary per record and all of them have exactly those keys, so the
      columns of `pd.DataFrame(data)` (and the CSV header) are `keys`. */
  lemma TableSchema<T>(records: seq<T>, row: T -> seq<Field>, keys: seq<string>)
    requires forall x :: Keys(row(x)) == keys
    ensures |Table(records, row)| == |records|
    ensures forall i :: 0 <= i < |records| ==>
      Table(records, row)[i].Obj? && Keys(Table(records, row)[i].fields) == keys
  {
  }

  /** The serialisations the scripts use: `json.dumps(indent=2,
      ensure_ascii=False)`, `DataFrame.to_csv(index=False)` and
      `DataFrame.to_parquet(index=False, engine='pyarrow')`. */
  datatype Format = Json | Csv | Parquet

  function ContentType(format: Format): string
  {
    match format
    case Json => "application/json"
    case Csv => "text/csv"
    case Parquet => "application/octet-stream"
  }

  /** The uploaded body: the record list in its serialisation. */
  datatype Payload = Payload(format: Format, records: seq<Value>)

  datatype Object = Object(body: Payload, contentType: string)

  /** `key` is `prefix`, then an integer as `str` writes it, then `suffix`. */
  predicate IsKey(key: string, prefix: string, suffix: string)
  {
    |prefix| + |suffix| < |key| && key[..|prefix|] == prefix &&
    key[|key| - |suffix|..] == suffix && IsIntText(key[|prefix|..|key| - |suffix|])
  }

  /** `f"{prefix}{timestamp}{suffix}"`: the key template of every script. */
  function ObjectKey(prefix: string, timestamp: int, suffix: string): (key: string)
    ensures IsKey(key, prefix, suffix)
  {
    var key := prefix + IntToString(timestamp) + suffix;
    assert key[|prefix|..|key| - |suffix|] == IntToString(timestamp);
    key
  }

  /** The timestamp written into a key built from `prefix` and `suffix`. */
  function TimestampOf(key: string, prefix: string, suffix: string): int
    requires IsKey(key, prefix, suffix)
  {
    ParseInt(key[|prefix|..|key| - |suffix|])
  }

  lemma ObjectKeyRoundTrip(prefix: string, timestamp: int, suffix: string)
    ensures TimestampOf(ObjectKey(prefix, timestamp, suffix), prefix, suffix) == timestamp
  {
    var key := ObjectKey(prefix, timestamp, suffix);
    assert key[|prefix|..|key| - |suffix|] == IntToString(timestamp);
    IntRoundTrip(timestamp);
  }

  /** A key starts with its prefix, whatever the timestamp. */
  lemma ObjectKeyAt(prefix: string, timestamp: int, suffix: string, i: nat)
    requires i < |prefix|
    ensures ObjectKey(prefix, timestamp, suffix)[i] == prefix[i]
  {
    var key := ObjectKey(prefix, timestamp, suffix);
    assert key[..|prefix|][i] == key[i];
  }

  /** Runs of one script at different seconds never write the same key. */
  lemma ObjectKeyInjective(prefix: string, suffix: string, a: int, b: int)
    requires ObjectKey(prefix, a, suffix) == ObjectKey(prefix, b, suffix)
    ensures a == b
  {
    ObjectKeyRoundTrip(prefix, a, suffix);
    ObjectKeyRoundTrip(prefix, b, suffix);
  }

  /** The S3-compatible service: objects addressed by bucket and key. A put
      may fail for any reason (client set-up, serialisation, network); a
      successful put replaces whatever the key held. */
  class ObjectStore {
    var objects: map<(string, string), Object>

    constructor ()
      ensures objects == map[]
    {
      objects := map[];
    }

    /** `s3_client.put_object(Bucket=..., Key=..., Body=..., ContentType=...)`. */
    method PutObject(bucket: string, key: string, body: Payload, contentType: string) returns (ok: bool)
      modifies this
      ensures ok ==> objects == old(objects)[(bucket, key) := Object(body, contentType)]
      ensures !ok ==> objects == old(objects)
    {
      ok := *;
      if ok {
        objects := objects[(bucket, key) := Object(body, contentType)];
      }
    }
  }

  /** `save_to_minio_bucket(data, bucket_name, file_path)`: serialise the
      records in the script's format and put them under the key with that
      format's content type; every exception becomes `False` and leaves the
      store as it was. */
  method Save(store: ObjectStore, data: seq<Value>, bucket: string, key: string, format: Format) returns (ok: bool)
    modifies store
    ensures ok ==> store.objects == old(store.objects)[(bucket, key) := Object(Payload(format, data), ContentType(format))]
    ensures !ok ==> store.objects == old(store.objects)
  {
    ok := store.PutObject(bucket, key, Payload(format, data), ContentType(format));
  }
}
