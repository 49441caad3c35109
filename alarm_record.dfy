/**
 * The body of a `Code=` line (dahua-watch.py:100-103): the line is split
 * on ';' and every field is unpacked as exactly two parts on '=' into a
 * dict, later keys overwriting earlier ones.
 */
module AlarmRecord {
  import opened Wrappers
  import opened PyStr

  /**
   * The exceptions the parser raises: `ValueError` from the two-name
   * unpack of a field that does not split into exactly two parts, and
   * `KeyError` from indexing the record dict with a missing key.
   */
  datatype Failure = ValueError(field: string) | KeyError(key: string)

  datatype Field = Field(key: string, value: string)

  lemma CharAsSeparator(s: string, c: char)
    ensures c in s <==> Contains(s, [c])
  {
    if c in s {
      var i :| 0 <= i < |s| && s[i] == c;
      assert OccursAt(s, [c], i);
    }
    if Contains(s, [c]) {
      var i: nat :| i <= |s| && OccursAt(s, [c], i);
      assert s[i..i + 1] == [c];
      assert s[i] == c;
    }
  }

  /**
   * `(Key, Value) = KeyValue.split('=')`: succeeds exactly when the field
   * holds one '=', and then the key and value are the text on either side.
   */
  function ParseField(kv: string): (r: Result<Field, Failure>)
    ensures r.Ok? <==> CountChar(kv, '=') == 1
    ensures r.Err? ==> r.error == ValueError(kv)
    ensures r.Ok? ==> kv == r.value.key + "=" + r.value.value
    ensures r.Ok? ==> '=' !in r.value.key && '=' !in r.value.value
  {
    SplitCharCount(kv, '=');
    PiecesFreeOfSeparator(kv, "=");
    var parts := Split(kv, "=");
    if |parts| == 2 then
      assert parts[1..] == [parts[1]];
      assert Join(parts, "=") == parts[0] + "=" + parts[1];
      CharAsSeparator(parts[0], '=');
      CharAsSeparator(parts[1], '=');
      Ok(Field(parts[0], parts[1]))
    else
      Err(ValueError(kv))
  }

  /** Round trip: a field printed as `key=value` parses back to itself. */
  lemma FieldRoundTrip(key: string, value: string)
    requires '=' !in key && '=' !in value
    ensures ParseField(key + "=" + value) == Ok(Field(key, value))
  {
    SplitAtFirst(key, '=', value);
    SplitNoSeparator(value, '=');
    assert key + "=" + value == key + ['='] + value;
  }

  /** The field loop: fill the dict `m` from `fields`, left to right. */
  function Collect(m: map<string, string>, fields: seq<string>): (r: Result<map<string, string>, Failure>)
    ensures r.Ok? ==> m.Keys <= r.value.Keys
    ensures r.Ok? && fields != [] ==> ParseField(fields[0]).Ok? && ParseField(fields[0]).value.key in r.value
    ensures r.Err? ==> r.error.ValueError? && r.error.field in fields
    decreases |fields|
  {
    if fields == [] then Ok(m)
    else
      match ParseField(fields[0])
      case Err(e) => Err(e)
      case Ok(f) => Collect(m[f.key := f.value], fields[1..])
  }

  /** The dict built from one `Code=` line. */
  function RecordOf(line: string): (r: Result<map<string, string>, Failure>)
    ensures r.Err? ==> r.error.ValueError? && r.error.field in Split(line, ";")
    ensures r.Ok? ==> ParseField(Split(line, ";")[0]).Ok? && ParseField(Split(line, ";")[0]).value.key in r.value
  {
    Collect(map[], Split(line, ";"))
  }

  /** Reference definition: the value of the last field whose key is `k`. */
  function LastValue(fields: seq<string>, k: string): Option<string>
    decreases |fields|
  {
    if fields == [] then None
    else
      var later := LastValue(fields[1..], k);
      if later.Some? then later
      else
        match ParseField(fields[0])
        case Ok(f) => if f.key == k then Some(f.value) else None
        case Err(_) => None
  }

  predicate AllParse(fields: seq<string>) {
    forall j :: 0 <= j < |fields| ==> ParseField(fields[j]).Ok?
  }

  /** The field loop succeeds exactly when every field unpacks. */
  lemma {:induction false} CollectOk(m: map<string, string>, fields: seq<string>)
    ensures Collect(m, fields).Ok? <==> AllParse(fields)
    decreases |fields|
  {
    if fields != [] && ParseField(fields[0]).Ok? {
      var f := ParseField(fields[0]).value;
      CollectOk(m[f.key := f.value], fields[1..]);
      if AllParse(fields[1..]) {
        forall j | 0 <= j < |fields| ensures ParseField(fields[j]).Ok? {
          if j > 0 { assert fields[j] == fields[1..][j - 1]; }
        }
      }
    }
  }

  /** When the field loop fails, it fails with the first malformed field. */
  lemma {:induction false} CollectErr(m: map<string, string>, fields: seq<string>)
    requires Collect(m, fields).Err?
    ensures exists j ::
      && 0 <= j < |fields|
      && AllParse(fields[..j])
      && ParseField(fields[j]).Err?
      && Collect(m, fields).error == ValueError(fields[j])
    decreases |fields|
  {
    if ParseField(fields[0]).Err? {
      assert AllParse(fields[..0]);
    } else {
      var f := ParseField(fields[0]).value;
      var m' := m[f.key := f.value];
      CollectErr(m', fields[1..]);
      var j :| 0 <= j < |fields[1..]| && AllParse(fields[1..][..j]) && ParseField(fields[1..][j]).Err? &&
        Collect(m', fields[1..]).error == ValueError(fields[1..][j]);
      assert fields[..j + 1] == [fields[0]] + fields[1..][..j];
      assert AllParse(fields[..j + 1]);
    }
  }

  /**
   * After the field loop every key maps to the value of its last field;
   * keys that no field names keep the value they had in `m`.
   */
  lemma {:induction false} CollectValues(m: map<string, string>, fields: seq<string>)
    requires Collect(m, fields).Ok?
    ensures forall k ::
      Get(Collect(m, fields).value, k) == (if LastValue(fields, k).Some? then LastValue(fields, k) else Get(m, k))
    decreases |fields|
  {
    if fields != [] {
      var f := ParseField(fields[0]).value;
      CollectValues(m[f.key := f.value], fields[1..]);
    }
  }

  /**
   * The record of a `Code=` line: it exists exactly when every ';' field
   * holds one '=', and then each key maps to the value of its last field.
   */
  lemma RecordOfSpec(line: string)
    ensures RecordOf(line).Ok? <==> AllParse(Split(line, ";"))
    ensures RecordOf(line).Ok? ==> forall k :: Get(RecordOf(line).value, k) == LastValue(Split(line, ";"), k)
  {
    CollectOk(map[], Split(line, ";"));
    if RecordOf(line).Ok? {
      CollectValues(map[], Split(line, ";"));
    }
  }

  /** If the prefix lacks `c`, a string with that prefix keeps it in its first piece. */
  lemma FirstPieceKeepsPrefix(s: string, c: char, p: string)
    requires StartsWith(s, p) && c !in p
    ensures StartsWith(Split(s, [c])[0], p)
  {
    var r := Split(s, [c]);
    FirstPieceIsPrefix(s, [c]);
    if |r| > 1 {
      assert s == r[0] + [c] + Join(r[1..], [c]);
      assert forall i :: 0 <= i < |p| ==> s[i] == p[i] && p[i] != c;
      assert s[|r[0]|] == c;
    }
  }

  /** A field starting with `Code=` that unpacks has the key `Code`. */
  lemma CodeFieldKey(f: string)
    requires StartsWith(f, "Code=") && ParseField(f).Ok?
    ensures ParseField(f).value.key == "Code"
  {
    var key := ParseField(f).value.key;
    assert f == key + "=" + ParseField(f).value.value;
    assert forall i :: 0 <= i < |key| ==> f[i] == key[i] && key[i] != '=';
    assert f[|key|] == '=';
    assert f[..5] == "Code=";
    assert forall i :: 0 <= i < 4 ==> f[i] != '=';
    assert f[4] == '=';
    assert key == f[..4];
  }

  /**
   * A `Code=` line whose fields all unpack always yields a record with a
   * `Code` key, so the lookup `Alarm['Code']` cannot raise.
   */
  lemma CodeLineHasCode(line: string)
    requires StartsWith(line, "Code=") && RecordOf(line).Ok?
    ensures "Code" in RecordOf(line).value
  {
    var fields := Split(line, ";");
    RecordOfSpec(line);
    FirstPieceKeepsPrefix(line, ';', "Code=");
    assert ParseField(fields[0]).Ok?;
    CodeFieldKey(fields[0]);
    assert LastValue(fields, "Code").Some?;
  }

  /** The in-place dict loop of dahua-watch.py:100-103. */
  method ParseRecord(line: string) returns (r: Result<map<string, string>, Failure>)
    ensures r == RecordOf(line)
  {
    var fields := Split(line, ";");
    var alarm: map<string, string> := map[];
    var i := 0;
    while i < |fields|
      invariant 0 <= i <= |fields|
      invariant Collect(alarm, fields[i..]) == RecordOf(line)
    {
      assert fields[i..][0] == fields[i] && fields[i..][1..] == fields[i + 1..];
      var parts := Split(fields[i], "=");
      if |parts| != 2 {
        return Err(ValueError(fields[i]));
      }
      alarm := alarm[parts[0] := parts[1]];
      i := i + 1;
    }
    return Ok(alarm);
  }
}
