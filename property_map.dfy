/**
 * Property values and property maps, as the visuals read and write them.
 *
 * A map is an ordered list of entries, each keyed by a property index or by a
 * property name. Inserting appends; looking a property up by index and name
 * tries the index keys first and then the name keys. A value knows its type,
 * and reading it as another type fails.
 */
module PropertyMap {
  import opened Wrappers

  /** Two, three and four component vectors; colours are four component vectors (r, g, b, a). */
  datatype Vector2 = Vector2(x: real, y: real)
  datatype Vector3 = Vector3(x: real, y: real, z: real)
  datatype Vector4 = Vector4(x: real, y: real, z: real, w: real)

  const VECTOR2_ZERO := Vector2(0.0, 0.0)

  /** The machine epsilon of a single-precision float, and a thousand times it. */
  const MACHINE_EPSILON_1: real := 0.000000119209290
  const MACHINE_EPSILON_1000: real := 0.000119209290

  datatype Key = IndexKey(index: int) | StringKey(name: string)

  datatype Value =
    | NoValue
    | BoolValue(b: bool)
    | IntValue(i: int)
    | RealValue(r: real)
    | StringValue(s: string)
    | Vector2Value(v2: Vector2)
    | Vector3Value(v3: Vector3)
    | Vector4Value(v4: Vector4)
    | MapValue(entries: seq<Entry>)

  datatype Entry = Entry(key: Key, value: Value)

  type Map = seq<Entry>

  /** The value of the first entry whose key is exactly `key`. */
  function FindKey(m: Map, key: Key): Option<Value>
  {
    if |m| == 0 then None
    else if m[0].key == key then Some(m[0].value)
    else FindKey(m[1..], key)
  }

  /** A key is found exactly when some entry has it, and what is found is the value of the first such entry. */
  lemma {:induction false} FindKeyIsFirstMatch(m: Map, key: Key)
    ensures FindKey(m, key).Some? <==> exists i :: 0 <= i < |m| && m[i].key == key
    ensures FindKey(m, key).Some? ==> exists i :: 0 <= i < |m| && m[i].key == key && m[i].value == FindKey(m, key).value &&
                                                 forall j :: 0 <= j < i ==> m[j].key != key
  {
    if |m| > 0 && m[0].key != key {
      FindKeyIsFirstMatch(m[1..], key);
      assert forall i :: 1 <= i < |m| ==> m[i] == m[1..][i - 1];
      if FindKey(m, key).Some? {
        var i :| 0 <= i < |m[1..]| && m[1..][i].key == key && m[1..][i].value == FindKey(m, key).value &&
                 forall j :: 0 <= j < i ==> m[1..][j].key != key;
        assert m[i + 1].key == key && m[i + 1].value == FindKey(m, key).value;
        assert forall j :: 0 <= j < i + 1 ==> m[j].key != key;
      }
    } else if |m| > 0 {
      assert m[0].key == key;
    }
  }

  /** Look-up by index, falling back to the name. */
  function Find(m: Map, index: int, name: string): (r: Option<Value>)
    ensures FindKey(m, IndexKey(index)).Some? ==> r == FindKey(m, IndexKey(index))
    ensures FindKey(m, IndexKey(index)).None? ==> r == FindKey(m, StringKey(name))
  {
    match FindKey(m, IndexKey(index))
    case Some(v) => Some(v)
    case None => FindKey(m, StringKey(name))
  }

  /** The entry found is the first one with the key. */
  lemma {:induction false} FindKeyAt(m: Map, key: Key, i: nat)
    requires i < |m| && m[i].key == key
    requires forall j :: 0 <= j < i ==> m[j].key != key
    ensures FindKey(m, key) == Some(m[i].value)
  {
    if i > 0 {
      FindKeyAt(m[1..], key, i - 1);
    }
  }

  /** Appending an entry: earlier keys keep the values they had. */
  lemma {:induction false} FindKeyAfterInsert(m: Map, key: Key, v: Value, k: Key)
    ensures FindKey(m + [Entry(key, v)], k) ==
              if FindKey(m, k).Some? then FindKey(m, k) else if k == key then Some(v) else None
  {
    if |m| > 0 {
      assert (m + [Entry(key, v)])[1..] == m[1..] + [Entry(key, v)];
      FindKeyAfterInsert(m[1..], key, v, k);
    }
  }

  // Typed reads: each succeeds exactly when the value has that type.

  function GetBool(v: Value): (r: Option<bool>)
    ensures r.Some? <==> v.BoolValue?
    ensures r.Some? ==> v == BoolValue(r.value)
  {
    if v.BoolValue? then Some(v.b) else None
  }

  function GetInt(v: Value): (r: Option<int>)
    ensures r.Some? <==> v.IntValue?
    ensures r.Some? ==> v == IntValue(r.value)
  {
    if v.IntValue? then Some(v.i) else None
  }

  function GetReal(v: Value): (r: Option<real>)
    ensures r.Some? <==> v.RealValue?
    ensures r.Some? ==> v == RealValue(r.value)
  {
    if v.RealValue? then Some(v.r) else None
  }

  function GetString(v: Value): (r: Option<string>)
    ensures r.Some? <==> v.StringValue?
    ensures r.Some? ==> v == StringValue(r.value)
  {
    if v.StringValue? then Some(v.s) else None
  }

  function GetVector2(v: Value): (r: Option<Vector2>)
    ensures r.Some? <==> v.Vector2Value?
    ensures r.Some? ==> v == Vector2Value(r.value)
  {
    if v.Vector2Value? then Some(v.v2) else None
  }

  function GetVector3(v: Value): (r: Option<Vector3>)
    ensures r.Some? <==> v.Vector3Value?
    ensures r.Some? ==> v == Vector3Value(r.value)
  {
    if v.Vector3Value? then Some(v.v3) else None
  }

  function GetVector4(v: Value): (r: Option<Vector4>)
    ensures r.Some? <==> v.Vector4Value?
    ensures r.Some? ==> v == Vector4Value(r.value)
  {
    if v.Vector4Value? then Some(v.v4) else None
  }

  function GetMap(v: Value): (r: Option<Map>)
    ensures r.Some? <==> v.MapValue?
    ensures r.Some? ==> v == MapValue(r.value)
  {
    if v.MapValue? then Some(v.entries) else None
  }

  /** Reading an optional value as a type, as `value && value->Get(x)` does. */
  function FindBool(m: Map, index: int, name: string): Option<bool>
  {
    match Find(m, index, name)
    case Some(v) => GetBool(v)
    case None => None
  }

  function FindInt(m: Map, index: int, name: string): Option<int>
  {
    match Find(m, index, name)
    case Some(v) => GetInt(v)
    case None => None
  }

  function FindReal(m: Map, index: int, name: string): Option<real>
  {
    match Find(m, index, name)
    case Some(v) => GetReal(v)
    case None => None
  }

  function FindString(m: Map, index: int, name: string): Option<string>
  {
    match Find(m, index, name)
    case Some(v) => GetString(v)
    case None => None
  }

  function FindVector2(m: Map, index: int, name: string): Option<Vector2>
  {
    match Find(m, index, name)
    case Some(v) => GetVector2(v)
    case None => None
  }

  function FindVector4(m: Map, index: int, name: string): Option<Vector4>
  {
    match Find(m, index, name)
    case Some(v) => GetVector4(v)
    case None => None
  }
}
