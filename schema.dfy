/** The schema inferencer: one field per key of the first row, binary fields tagged with
    the compression directives. */
module Schema {
  import opened Values

  /** The column types, as far as the converter tells them apart. */
  datatype FieldType = Binary | Utf8 | Primitive | ListOf | Struct

  /** A schema field: name, type and string metadata. */
  datatype Field = Field(name: string, ftype: FieldType, metadata: map<string, string>)

  const CompressionKey: string := "lance-encoding:compression"
  const CompressionLevelKey: string := "lance-encoding:compression-level"

  /** The type the columnar library infers for a one-value column holding `v`. */
  function InferType(v: Value): FieldType
  {
    match v
    case Scalar(_) => Primitive
    case Str(_) => Utf8
    case Bytes(_) => Binary
    case List(_) => ListOf
    case Obj(_) => Struct
  }

  /** The schema of the one-row table built from a row: a field per key, in key order,
      with no metadata. */
  function InferSchema(row: Dict): seq<Field>
  {
    seq(|row|, i requires 0 <= i < |row| => Field(row[i].0, InferType(row[i].1), map[]))
  }

  /** The metadata a binary field is given. */
  function CompressionMetadata(algo: string, level: string): map<string, string>
  {
    map[CompressionKey := algo, CompressionLevelKey := level]
  }

  /** One step of the tagging loop: `field.with_metadata(...)` for a binary field, the field
      itself otherwise. */
  function TagField(f: Field, algo: string, level: string): Field
  {
    if f.ftype == Binary then f.(metadata := CompressionMetadata(algo, level)) else f
  }

  /** The tagged schema: same fields in the same order; a binary field keeps its name and
      type and carries exactly the two compression entries; any other field is unchanged. */
  function TagFields(fields: seq<Field>, algo: string, level: string): (r: seq<Field>)
    ensures |r| == |fields|
    ensures forall i :: 0 <= i < |fields| ==> r[i].name == fields[i].name && r[i].ftype == fields[i].ftype
    ensures forall i :: 0 <= i < |fields| && fields[i].ftype == Binary ==>
              r[i].metadata.Keys == {CompressionKey, CompressionLevelKey}
              && r[i].metadata[CompressionKey] == algo && r[i].metadata[CompressionLevelKey] == level
    ensures forall i :: 0 <= i < |fields| && fields[i].ftype != Binary ==> r[i] == fields[i]
  {
    seq(|fields|, i requires 0 <= i < |fields| => TagField(fields[i], algo, level))
  }

  /** Lines 36-45 of `compute_schema`: the loop that builds `new_fields`. */
  method TagBinaryFields(fields: seq<Field>, algo: string, level: string) returns (tagged: seq<Field>)
    ensures tagged == TagFields(fields, algo, level)
  {
    tagged := [];
    for i := 0 to |fields|
      invariant tagged == TagFields(fields[..i], algo, level)
    {
      var field := fields[i];
      if field.ftype == Binary {
        tagged := tagged + [field.(metadata := CompressionMetadata(algo, level))];
      } else {
        tagged := tagged + [field];
      }
    }
    assert fields[..|fields|] == fields;
  }
}
