/** The post-build metadata descriptor `build/metadata.json`: a `schemaVersions`
    object that maps each schema name to a `{ "major": …, "minor": … }` pair of
    strings. */
module ScriptMetadata {

  import opened Optional
  import opened Json

  datatype SchemaVersion = SchemaVersion(major: string, minor: string)

  datatype Metadata = Metadata(schemaVersions: map<string, SchemaVersion>)

  const SchemaVersionsKey := "schemaVersions"
  const MajorKey := "major"
  const MinorKey := "minor"

  /** A `{ "major": "1", "minor": "0" }` entry; any other shape is rejected. */
  function SchemaVersionOf(entry: Json): (r: Option<SchemaVersion>)
    ensures r.Some? <==>
      HasField(entry, MajorKey) && entry.fields[MajorKey].String? &&
      HasField(entry, MinorKey) && entry.fields[MinorKey].String?
    ensures r.Some? ==>
      r.value.major == entry.fields[MajorKey].s && r.value.minor == entry.fields[MinorKey].s
  {
    if HasField(entry, MajorKey) && HasField(entry, MinorKey) then
      match (entry.fields[MajorKey], entry.fields[MinorKey])
      case (String(major), String(minor)) => Some(SchemaVersion(major, minor))
      case _ => None
    else None
  }

  predicate WellFormedVersions(versions: map<string, Json>)
  {
    forall name :: name in versions ==> SchemaVersionOf(versions[name]).Some?
  }

  /** The descriptor a decoded `build/metadata.json` stands for, when it has
      the expected shape. */
  function FromJson(doc: Json): (r: Option<Metadata>)
    ensures r.Some? <==>
      HasField(doc, SchemaVersionsKey) && doc.fields[SchemaVersionsKey].Object? &&
      WellFormedVersions(doc.fields[SchemaVersionsKey].fields)
    ensures r.Some? ==>
      r.value.schemaVersions.Keys == doc.fields[SchemaVersionsKey].fields.Keys
  {
    if HasField(doc, SchemaVersionsKey) then
      match doc.fields[SchemaVersionsKey]
      case Object(versions) =>
        if WellFormedVersions(versions) then
          Some(Metadata(map name | name in versions :: SchemaVersionOf(versions[name]).value))
        else None
      case _ => None
    else None
  }

  /** The document that describes `m`, as the metadata generator writes it. */
  function ToJson(m: Metadata): Json
  {
    Object(map[SchemaVersionsKey := Object(
      map name | name in m.schemaVersions ::
        Object(map[MajorKey := String(m.schemaVersions[name].major),
                   MinorKey := String(m.schemaVersions[name].minor)]))])
  }

  /** Every descriptor is read back from the document that describes it. */
  lemma FromJsonToJson(m: Metadata)
    ensures FromJson(ToJson(m)) == Some(m)
  {
    var doc := ToJson(m);
    assert HasField(doc, SchemaVersionsKey);
    var versions := doc.fields[SchemaVersionsKey].fields;
    forall name | name in versions
      ensures SchemaVersionOf(versions[name]) == Some(m.schemaVersions[name])
    {
    }
    assert WellFormedVersions(versions);
    var read := map name | name in versions :: SchemaVersionOf(versions[name]).value;
    assert read == m.schemaVersions;
    assert FromJson(doc) == Some(Metadata(read));
  }

  /** The document of the metadata test: one schema `example` at version 1.0. */
  lemma ExampleDocument()
    ensures FromJson(Object(map[SchemaVersionsKey := Object(map["example" :=
              Object(map[MajorKey := String("1"), MinorKey := String("0")])])]))
            == Some(Metadata(map["example" := SchemaVersion("1", "0")]))
  {
    var m := Metadata(map["example" := SchemaVersion("1", "0")]);
    FromJsonToJson(m);
    var entry := Object(map[MajorKey := String("1"), MinorKey := String("0")]);
    var versions := map name | name in m.schemaVersions ::
      Object(map[MajorKey := String(m.schemaVersions[name].major),
                 MinorKey := String(m.schemaVersions[name].minor)]);
    assert versions == map["example" := entry];
  }
}
