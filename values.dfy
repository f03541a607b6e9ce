/** How the bridge sees a JSON payload (serde_json's `Value`) and how it turns
    a field value into a path component (`value_to_string`). Parsing and
    serialising JSON are not modelled: they are inputs. */
module Values {
  import opened Wrappers
  import opened Text

  /** A payload that parsed as JSON. `fields` maps each top-level field of an
      object to its value as serde_json serialises it (`Value::to_string`:
      strings keep their quotes, numbers are bare), or to `None` when the
      value is JSON `null`. A payload that is not an object has no fields.
      `text` is the serialisation of the whole payload. */
  datatype Document = Document(fields: map<string, Option<string>>, text: string)

  /** `payload[name]`: indexing a missing field, or a payload that is not an
      object, yields `null` just like a field that holds `null`. */
  function Field(doc: Document, name: string): (r: Option<string>)
    ensures r.Some? <==> name in doc.fields && doc.fields[name].Some?
  {
    if name in doc.fields then doc.fields[name] else None
  }

  /** `value_to_string`: the serialised value, trimmed, with every double
      quote removed. */
  function ValueToString(serialised: string): (r: string)
    ensures '"' !in r
    ensures |r| <= |serialised|
  {
    RemoveAll(Trim(serialised), '"')
  }

  /** A serialised JSON string whose text has no quote character comes out
      as its bare text: `"0x03015100"` gives 0x03015100. */
  lemma ValueToStringOfQuoted(text: string)
    requires '"' !in text
    ensures ValueToString("\"" + text + "\"") == text
  {
    var quoted := "\"" + text + "\"";
    assert Trimmed(quoted);
    TrimOfTrimmed(quoted);
    RemoveAllAppend("\"" + text, "\"", '"');
    RemoveAllAppend("\"", text, '"');
  }

  /** A value serialised without quotes and without surrounding whitespace
      (a number, `true`, `false`) comes out unchanged: 198 stays 198. */
  lemma ValueToStringOfBare(serialised: string)
    requires '"' !in serialised && Trimmed(serialised)
    ensures ValueToString(serialised) == serialised
  {
    TrimOfTrimmed(serialised);
  }
}
