/**
 * A table-driven description of the wire schemas: each record field is a key
 * path into the decoded tree and the cJSON type test applied to it. The
 * straight-line parsers of both firmware variants are proved against these
 * tables.
 */
module Schema {
  import opened Wrappers
  import opened CTypes
  import opened CJson

  /** The type test a parser applies to a field, and how it stores the value. */
  datatype Kind =
    | NumberKind   // cJSON_IsNumber, store valuedouble
    | Uint32Kind   // cJSON_IsNumber, store (uint32_t)valueint
    | BoolKind     // cJSON_IsBool, store cJSON_IsTrue
    | StringKind   // cJSON_IsString, store the C string strcpy copies

  datatype FieldValue =
    | NumberValue(d: Float64)
    | Uint32Value(n: uint32)
    | BoolValue(b: bool)
    | StringValue(s: string)

  datatype Field = Field(path: seq<string>, kind: Kind)

  predicate HasKind(item: Option<Json>, kind: Kind) {
    match kind
    case NumberKind => IsNumber(item)
    case Uint32Kind => IsNumber(item)
    case BoolKind => IsBool(item)
    case StringKind => IsString(item)
  }

  /** The value a parser stores for an item that passed its type test. */
  function ValueOf(item: Option<Json>, kind: Kind): (v: FieldValue)
    requires HasKind(item, kind)
    ensures kind == BoolKind ==> v == BoolValue(IsTrue(item))
    ensures kind == Uint32Kind ==> v == Uint32Value(ToUint32(item.value.valueint))
    ensures kind == NumberKind ==> v == NumberValue(item.value.valuedouble)
    ensures kind == StringKind ==> v == StringValue(CChars(item.value.valuestring)) && '\0' !in v.s
  {
    match kind
    case NumberKind => NumberValue(item.value.valuedouble)
    case Uint32Kind => Uint32Value(ToUint32(item.value.valueint))
    case BoolKind => BoolValue(item.value.b)
    case StringKind => StringValue(CChars(item.value.valuestring))
  }

  /** The field is present in the message with the expected type. */
  predicate Present(root: Json, f: Field) {
    HasKind(Lookup(root, f.path), f.kind)
  }

  function Extract(root: Json, f: Field): FieldValue
    requires Present(root, f)
  {
    ValueOf(Lookup(root, f.path), f.kind)
  }

  /**
   * What a tolerant parser leaves in a field that holds `current`: the
   * message's value when the field is present with its type, `current` otherwise.
   */
  function Refresh(root: Json, f: Field, current: FieldValue): FieldValue {
    if Present(root, f) then Extract(root, f) else current
  }

  /** Every field of the table is present with its type. */
  predicate Conforms(root: Json, fields: seq<Field>) {
    forall i :: 0 <= i < |fields| ==> Present(root, fields[i])
  }

  /** A one-key field is the type test and value of GetObjectItem on the root. */
  lemma PresentKey(root: Json, key: string, kind: Kind)
    ensures Present(root, Field([key], kind)) <==> HasKind(GetObjectItem(root, key), kind)
    ensures Present(root, Field([key], kind)) ==>
      Extract(root, Field([key], kind)) == ValueOf(GetObjectItem(root, key), kind)
  {
    LookupSingle(root, key);
  }

  /** Refreshing a one-key number field keeps `current` unless NumberMember finds a number. */
  lemma RefreshNumber(root: Json, key: string, current: Float64)
    ensures Refresh(root, Field([key], NumberKind), NumberValue(current)) ==
      NumberValue(if NumberMember(root, key).Some? then NumberMember(root, key).value else current)
  {
    PresentKey(root, key, NumberKind);
  }

  /** Refreshing a one-key flag keeps `current` unless BoolMember finds a boolean. */
  lemma RefreshBool(root: Json, key: string, current: bool)
    ensures Refresh(root, Field([key], BoolKind), BoolValue(current)) ==
      BoolValue(if BoolMember(root, key).Some? then BoolMember(root, key).value else current)
  {
    PresentKey(root, key, BoolKind);
  }

  /** Refreshing a one-key string field keeps `current` unless CStringMember finds a string. */
  lemma RefreshString(root: Json, key: string, current: string)
    ensures Refresh(root, Field([key], StringKind), StringValue(current)) ==
      StringValue(CStringMember(root, key).UnwrapOr(current))
  {
    PresentKey(root, key, StringKind);
  }

  /** Refreshing a number field held by the object `outer`. */
  lemma RefreshNumber2(root: Json, outer: string, key: string, current: Float64)
    ensures Refresh(root, Field([outer, key], NumberKind), NumberValue(current)) ==
      NumberValue(
        if IsObject(GetObjectItem(root, outer))
        then NumberMember(GetObjectItem(root, outer).value, key).UnwrapOr(current)
        else current)
  {
    PresentKey2(root, outer, key, NumberKind);
  }

  /** Refreshing a string field held by the object `outer`: the C string it holds. */
  lemma RefreshString2(root: Json, outer: string, key: string, current: string)
    ensures Refresh(root, Field([outer, key], StringKind), StringValue(current)) ==
      StringValue(
        if IsObject(GetObjectItem(root, outer))
        then CStringMember(GetObjectItem(root, outer).value, key).UnwrapOr(current)
        else current)
  {
    PresentKey2(root, outer, key, StringKind);
  }

  /** Refreshing a number field held by the object `middle` inside the object `outer`. */
  lemma RefreshNumber3(root: Json, outer: string, middle: string, key: string, current: Float64)
    ensures Refresh(root, Field([outer, middle, key], NumberKind), NumberValue(current)) ==
      NumberValue(
        if IsObject(GetObjectItem(root, outer)) && IsObject(GetObjectItem(GetObjectItem(root, outer).value, middle))
        then NumberMember(GetObjectItem(GetObjectItem(root, outer).value, middle).value, key).UnwrapOr(current)
        else current)
  {
    PresentKey3(root, outer, middle, key, NumberKind);
  }

  /** A two-key field: the type test and value of the inner lookup, reached through an object. */
  lemma PresentKey2(root: Json, outer: string, key: string, kind: Kind)
    ensures Present(root, Field([outer, key], kind)) <==>
      GetObjectItem(root, outer).Some? && HasKind(GetObjectItem(GetObjectItem(root, outer).value, key), kind)
    ensures Present(root, Field([outer, key], kind)) ==>
      Extract(root, Field([outer, key], kind)) == ValueOf(GetObjectItem(GetObjectItem(root, outer).value, key), kind)
  {
    LookupSingle(root, outer);
    LookupSnoc(root, [outer], key);
    assert [outer] + [key] == [outer, key];
  }

  /** A three-key field: the type test and value of the innermost lookup. */
  lemma PresentKey3(root: Json, outer: string, middle: string, key: string, kind: Kind)
    ensures Present(root, Field([outer, middle, key], kind)) <==>
      && GetObjectItem(root, outer).Some?
      && GetObjectItem(GetObjectItem(root, outer).value, middle).Some?
      && HasKind(GetObjectItem(GetObjectItem(GetObjectItem(root, outer).value, middle).value, key), kind)
    ensures Present(root, Field([outer, middle, key], kind)) ==>
      Extract(root, Field([outer, middle, key], kind)) ==
        ValueOf(GetObjectItem(GetObjectItem(GetObjectItem(root, outer).value, middle).value, key), kind)
  {
    LookupSingle(root, outer);
    LookupSnoc(root, [outer], middle);
    assert [outer] + [middle] == [outer, middle];
    LookupSnoc(root, [outer, middle], key);
    assert [outer, middle] + [key] == [outer, middle, key];
  }
}
