/** The parts of `System.Text.Json.JsonElement` that the Spotify response parser uses, over
    an already parsed JSON value. Each accessor fails (as the element's method throws)
    when the value has the wrong kind. */
module Json {
  import opened Results

  datatype Json =
    | JNull
    | JBool(b: bool)
    | JNumber(n: int)
    | JString(s: string)
    | JArray(elems: seq<Json>)
    | JObject(fields: map<string, Json>)

  const Int32Min: int := -0x8000_0000
  const Int32Max: int := 0x7FFF_FFFF

  /** `GetProperty`: fails on a non-object or a missing property. */
  function GetProperty(j: Json, name: string): (r: Result<Json>)
    ensures r.Ok? <==> j.JObject? && name in j.fields
    ensures r.Ok? ==> r.value == j.fields[name]
  {
    if !j.JObject? then Err("The requested operation requires an element of type 'Object'.")
    else if name !in j.fields then Err("The given key '" + name + "' was not present in the dictionary.")
    else Ok(j.fields[name])
  }

  /** `TryGetProperty`: `None` for a missing property; fails on a non-object. */
  function TryGetProperty(j: Json, name: string): (r: Result<Option<Json>>)
    ensures r.Ok? <==> j.JObject?
    ensures r.Ok? ==> (r.value.Some? <==> name in j.fields)
    ensures r.Ok? && r.value.Some? ==> r.value.value == j.fields[name]
  {
    if !j.JObject? then Err("The requested operation requires an element of type 'Object'.")
    else if name in j.fields then Ok(Some(j.fields[name]))
    else Ok(None)
  }

  /** `GetString`: null gives a null string; anything but a string or null fails. */
  function GetString(j: Json): (r: Result<Option<string>>)
    ensures r.Ok? <==> j.JString? || j.JNull?
    ensures j.JString? ==> r == Ok(Some(j.s))
    ensures j.JNull? ==> r == Ok(None)
  {
    match j
    case JNull => Ok(None)
    case JString(s) => Ok(Some(s))
    case _ => Err("The requested operation requires an element of type 'String'.")
  }

  /** `GetInt32`: a number that fits in 32 bits; anything else fails. */
  function GetInt32(j: Json): (r: Result<int>)
    ensures r.Ok? <==> j.JNumber? && Int32Min <= j.n <= Int32Max
    ensures r.Ok? ==> r.value == j.n
  {
    if !j.JNumber? then Err("The requested operation requires an element of type 'Number'.")
    else if j.n < Int32Min || Int32Max < j.n then Err("One of the identified items was in an invalid format.")
    else Ok(j.n)
  }

  /** `GetBoolean`: only `true` and `false`. */
  function GetBoolean(j: Json): (r: Result<bool>)
    ensures r.Ok? <==> j.JBool?
    ensures r.Ok? ==> r.value == j.b
  {
    if j.JBool? then Ok(j.b) else Err("The requested operation requires an element of type 'Boolean'.")
  }

  /** `EnumerateArray`: the elements of an array, in order. */
  function EnumerateArray(j: Json): (r: Result<seq<Json>>)
    ensures r.Ok? <==> j.JArray?
    ensures r.Ok? ==> r.value == j.elems
  {
    if j.JArray? then Ok(j.elems) else Err("The requested operation requires an element of type 'Array'.")
  }

  /** The text of a string-or-null value, as `GetString()` leaves it. */
  function Text(j: Json): Option<string>
  {
    if j.JString? then Some(j.s) else None
  }

  /** A property that `GetProperty(name).GetString()` accepts. */
  predicate HasText(j: Json, name: string)
  {
    j.JObject? && name in j.fields && (j.fields[name].JString? || j.fields[name].JNull?)
  }

  /** A property that `GetProperty(name).GetInt32()` accepts. */
  predicate HasInt32(j: Json, name: string)
  {
    j.JObject? && name in j.fields && j.fields[name].JNumber? && Int32Min <= j.fields[name].n <= Int32Max
  }

  /** `GetProperty(name).GetString()`. */
  function StringProperty(j: Json, name: string): (r: Result<Option<string>>)
    ensures r.Ok? <==> HasText(j, name)
    ensures r.Ok? ==> r.value == Text(j.fields[name])
  {
    var p :- GetProperty(j, name);
    GetString(p)
  }

  /** `GetProperty(name).GetInt32()`. */
  function Int32Property(j: Json, name: string): (r: Result<int>)
    ensures r.Ok? <==> HasInt32(j, name)
    ensures r.Ok? ==> r.value == j.fields[name].n
  {
    var p :- GetProperty(j, name);
    GetInt32(p)
  }

  /** `Select(f).ToArray()` over an array's elements: every element converted, in order;
      the first failure fails the whole. */
  function MapAll<T>(elems: seq<Json>, f: Json -> Result<T>): (r: Result<seq<T>>)
  {
    if elems == [] then Ok([])
    else
      var init :- MapAll(elems[..|elems| - 1], f);
      var last :- f(elems[|elems| - 1]);
      Ok(init + [last])
  }

  /** `MapAll` succeeds exactly when every element converts; then it holds one result per
      element, in order; otherwise it fails with the error of the first element that does
      not convert. */
  lemma {:induction false} MapAllSpec<T>(elems: seq<Json>, f: Json -> Result<T>)
    ensures MapAll(elems, f).Ok? <==> forall i :: 0 <= i < |elems| ==> f(elems[i]).Ok?
    ensures MapAll(elems, f).Ok? ==>
      && |MapAll(elems, f).value| == |elems|
      && forall i :: 0 <= i < |elems| ==> MapAll(elems, f).value[i] == f(elems[i]).value
    ensures MapAll(elems, f).Err? ==> exists i ::
      && 0 <= i < |elems| && f(elems[i]).Err?
      && (forall k :: 0 <= k < i ==> f(elems[k]).Ok?)
      && MapAll(elems, f).error == f(elems[i]).error
  {
    if elems != [] {
      var n := |elems| - 1;
      var init := elems[..n];
      MapAllSpec(init, f);
      assert forall i :: 0 <= i < n ==> init[i] == elems[i];
      if MapAll(init, f).Err? {
        var i :| 0 <= i < n && f(init[i]).Err? && (forall k :: 0 <= k < i ==> f(init[k]).Ok?)
          && MapAll(init, f).error == f(init[i]).error;
        assert f(elems[i]).Err? && (forall k :: 0 <= k < i ==> f(elems[k]).Ok?);
      } else if f(elems[n]).Err? {
        assert forall k :: 0 <= k < n ==> f(elems[k]).Ok?;
      }
    }
  }
}
