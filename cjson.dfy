/**
 * The decoded JSON tree the firmware receives from cJSON, and the accessors its
 * parsers call on it. The parser itself (cJSON_Parse) is not part of this model:
 * it appears as a function-typed parameter, `Parser`.
 */
module CJson {
  import opened Wrappers
  import opened CTypes

  /** An IEEE-754 double, carried as its 64-bit pattern; nothing here does arithmetic on it. */
  datatype Float64 = Float64(bits: bv64)

  /** +0.0, the value the firmware assigns with `= 0`. */
  const Zero: Float64 := Float64(0)

  /**
   * A cJSON node. Objects keep their members in document order and may repeat a
   * key, as cJSON's linked list does. A number carries both views cJSON keeps of
   * it: `valuedouble` and the int32 `valueint`.
   */
  datatype Json =
    | Null
    | Bool(b: bool)
    | Number(valuedouble: Float64, valueint: int32)
    | Str(valuestring: string)
    | Arr(items: seq<Json>)
    | Obj(members: seq<(string, Json)>)

  /** cJSON_Parse on the bytes of one NUL-terminated frame: a tree, or None (NULL) when they are not JSON. */
  type Parser = seq<byte> -> Option<Json>

  /** C's tolower in the "C" locale: only 'A'..'Z' change. */
  function ToLowerAscii(c: char): (r: char)
    ensures 'A' <= c <= 'Z' ==> r as int == c as int + 32
    ensures !('A' <= c <= 'Z') ==> r == c
  {
    if 'A' <= c <= 'Z' then (c as int + 32) as char else c
  }

  /** cJSON's case_insensitive_strcmp(name, key) == 0. */
  predicate KeysMatch(name: string, key: string) {
    |name| == |key| && forall i {:trigger name[i]} :: 0 <= i < |name| ==> ToLowerAscii(name[i]) == ToLowerAscii(key[i])
  }

  /** Two keys differ ignoring case once one position differs ignoring case. */
  lemma KeysDifferAt(name: string, key: string, i: nat)
    requires i < |name| && i < |key| && ToLowerAscii(name[i]) != ToLowerAscii(key[i])
    ensures !KeysMatch(name, key)
  {
  }

  /**
   * cJSON's walk along an object's member list from position `from`: the index
   * of the first member whose key matches `name` ignoring case, or |members|
   * when none does.
   */
  function FindMember(members: seq<(string, Json)>, name: string, from: nat): (k: nat)
    requires from <= |members|
    decreases |members| - from
  {
    if from == |members| then from
    else if KeysMatch(members[from].0, name) then from
    else FindMember(members, name, from + 1)
  }

  /** FindMember stops at a matching key and skips only keys that do not match. */
  lemma {:induction false} FindMemberFirst(members: seq<(string, Json)>, name: string, from: nat)
    requires from <= |members|
    ensures from <= FindMember(members, name, from) <= |members|
    ensures FindMember(members, name, from) < |members| ==> KeysMatch(members[FindMember(members, name, from)].0, name)
    ensures forall j :: from <= j < FindMember(members, name, from) ==> !KeysMatch(members[j].0, name)
    decreases |members| - from
  {
    if from < |members| && !KeysMatch(members[from].0, name) {
      FindMemberFirst(members, name, from + 1);
    }
  }

  /** Conversely, a matching key preceded only by non-matching ones is where FindMember stops. */
  lemma {:induction false} FindMemberAt(members: seq<(string, Json)>, name: string, from: nat, k: nat)
    requires from <= k < |members|
    requires KeysMatch(members[k].0, name)
    requires forall j :: from <= j < k ==> !KeysMatch(members[j].0, name)
    ensures FindMember(members, name, from) == k
    decreases k - from
  {
    if from < k {
      FindMemberAt(members, name, from + 1, k);
    }
  }

  /**
   * cJSON_GetObjectItem: the value of the first member of an object whose key
   * equals `name` ignoring ASCII case; None (NULL) for a missing key and for any
   * node that is not an object (array elements have no key).
   */
  function GetObjectItem(item: Json, name: string): Option<Json> {
    if item.Obj? && FindMember(item.members, name, 0) < |item.members| then
      Some(item.members[FindMember(item.members, name, 0)].1)
    else
      None
  }

  /** GetObjectItem finds a member exactly when some key matches, and then the first one. */
  lemma GetObjectItemFirstMatch(item: Json, name: string)
    ensures GetObjectItem(item, name).Some? <==>
      item.Obj? && exists j :: 0 <= j < |item.members| && KeysMatch(item.members[j].0, name)
    ensures GetObjectItem(item, name).Some? ==>
      exists j :: 0 <= j < |item.members| && KeysMatch(item.members[j].0, name)
        && item.members[j].1 == GetObjectItem(item, name).value
        && forall i :: 0 <= i < j ==> !KeysMatch(item.members[i].0, name)
  {
    if item.Obj? {
      FindMemberFirst(item.members, name, 0);
      var k := FindMember(item.members, name, 0);
      if k < |item.members| {
        assert KeysMatch(item.members[k].0, name);
      }
    }
  }

  /** The member GetObjectItem returns, given its position. */
  lemma GetObjectItemAt(item: Json, name: string, k: nat)
    requires item.Obj? && k < |item.members|
    requires KeysMatch(item.members[k].0, name)
    requires forall j :: 0 <= j < k ==> !KeysMatch(item.members[j].0, name)
    ensures GetObjectItem(item, name) == Some(item.members[k].1)
  {
    FindMemberAt(item.members, name, 0, k);
  }

  /**
   * The node reached by looking up each key of `path` in turn with
   * GetObjectItem; None as soon as one lookup fails.
   */
  function Lookup(root: Json, path: seq<string>): (r: Option<Json>)
    ensures |path| > 0 && r.Some? ==> root.Obj?
  {
    if |path| == 0 then Some(root)
    else match Lookup(root, path[..|path| - 1])
      case None => None
      case Some(parent) => GetObjectItem(parent, path[|path| - 1])
  }

  /** A lookup one key deeper is GetObjectItem on the node the shorter path reaches. */
  lemma LookupSnoc(root: Json, path: seq<string>, key: string)
    ensures Lookup(root, path + [key]) ==
      if Lookup(root, path).Some? then GetObjectItem(Lookup(root, path).value, key) else None
  {
    assert (path + [key])[..|path|] == path;
  }

  // cJSON's type tests; each is false for NULL.
  predicate IsNumber(item: Option<Json>) { item.Some? && item.value.Number? }
  predicate IsBool(item: Option<Json>) { item.Some? && item.value.Bool? }
  predicate IsTrue(item: Option<Json>) { item == Some(Bool(true)) }
  predicate IsString(item: Option<Json>) { item.Some? && item.value.Str? }
  predicate IsObject(item: Option<Json>) { item.Some? && item.value.Obj? }
  predicate IsArray(item: Option<Json>) { item.Some? && item.value.Arr? }

  /**
   * The idiom `x = cJSON_GetObjectItem(item, name); if (cJSON_IsNumber(x)) ... x->valuedouble`:
   * the member's double when it is a number, None otherwise.
   */
  function NumberMember(item: Json, name: string): Option<Float64> {
    var x := GetObjectItem(item, name);
    if IsNumber(x) then Some(x.value.valuedouble) else None
  }

  /** The same idiom with cJSON_IsBool and cJSON_IsTrue. */
  function BoolMember(item: Json, name: string): Option<bool> {
    var x := GetObjectItem(item, name);
    if IsBool(x) then Some(IsTrue(x)) else None
  }

  /**
   * The same idiom with cJSON_IsString, for a string the firmware copies with
   * strcpy or passes on as a C string: the characters before the first NUL.
   */
  function CStringMember(item: Json, name: string): Option<string> {
    var x := GetObjectItem(item, name);
    if IsString(x) then Some(CChars(x.value.valuestring)) else None
  }

  /** C's strcmp(s, t) == 0 on a cJSON valuestring: equality up to the first NUL. */
  predicate StrEquals(s: string, t: string) { CChars(s) == CChars(t) }

  /** A one-key lookup is a path lookup of length one. */
  lemma LookupSingle(root: Json, key: string)
    ensures Lookup(root, [key]) == GetObjectItem(root, key)
  {
    assert [key][..0] == [];
  }
}
