/**
 * The parsed JSON tree of a transform document, as Newtonsoft.Json's JToken hierarchy holds it:
 * an object is an ordered list of named properties, kept in document order. A JObject never
 * holds two properties of the same name (UniqueNames); the datatype does not enforce this, so the
 * lemmas that rely on it require it.
 */
module Json {
  import opened Wrappers

  /** One JToken, tagged by its JTokenType. */
  datatype JToken =
    | Null
    | Boolean(b: bool)
    | Integer(i: int)
    | Float(literal: string)
      /** A JSON string value. */
    | String(s: string)
      /** A string literal that the parser recognised as a date (its default date handling): not JTokenType.String. */
    | Date(literal: string)
    | Array(items: seq<JToken>)
    | Object(properties: seq<Property>)

  /** One JProperty of a JObject. */
  datatype Property = Property(name: string, value: JToken)

  /** The property names, in document order. */
  function Names(ps: seq<Property>): (names: seq<string>)
    ensures |names| == |ps| && forall i | 0 <= i < |ps| :: names[i] == ps[i].name
  {
    seq(|ps|, i requires 0 <= i < |ps| => ps[i].name)
  }

  /** A JObject never holds two properties with the same name. */
  predicate UniqueNames(ps: seq<Property>)
  {
    forall i, j | 0 <= i < j < |ps| :: ps[i].name != ps[j].name
  }

  /** Index `i` holds the first property called `name`. */
  predicate FirstNamed(ps: seq<Property>, name: string, i: int)
  {
    0 <= i < |ps| && ps[i].name == name && forall j | 0 <= j < i :: ps[j].name != name
  }

  /** JObject.GetValue(name): the value of the first property called `name`, or null when there is none. */
  function Lookup(ps: seq<Property>, name: string): (v: Option<JToken>)
    ensures v.None? <==> name !in Names(ps)
    ensures v.Some? ==> exists i | 0 <= i < |ps| :: FirstNamed(ps, name, i) && ps[i].value == v.value
    ensures forall i | 0 <= i < |ps| && FirstNamed(ps, name, i) :: v == Some(ps[i].value)
  {
    if ps == [] then None
    else if ps[0].name == name then
      assert FirstNamed(ps, name, 0);
      Some(ps[0].value)
    else
      var v := Lookup(ps[1..], name);
      assert Names(ps) == [ps[0].name] + Names(ps[1..]);
      assert forall i | 1 <= i < |ps| :: FirstNamed(ps, name, i) <==> FirstNamed(ps[1..], name, i - 1);
      assert !FirstNamed(ps, name, 0);
      v
  }

  /** The properties of `ps` other than the one called `name`, in their original order. */
  function Without(ps: seq<Property>, name: string): (rest: seq<Property>)
    ensures forall p :: p in rest <==> p in ps && p.name != name
  {
    if ps == [] then []
    else if ps[0].name == name then Without(ps[1..], name)
    else [ps[0]] + Without(ps[1..], name)
  }

  /** Removing a name that is not there changes nothing. */
  lemma {:induction false} WithoutAbsent(ps: seq<Property>, name: string)
    requires name !in Names(ps)
    ensures Without(ps, name) == ps
  {
    if ps != [] {
      assert Names(ps) == [ps[0].name] + Names(ps[1..]);
      WithoutAbsent(ps[1..], name);
      assert ps == [ps[0]] + ps[1..];
    }
  }

  /**
   * In an object with unique names, removing the property at index `i` by its name
   * deletes exactly that entry and keeps every other one in place and in order.
   */
  lemma {:induction false} WithoutAt(ps: seq<Property>, i: nat, name: string)
    requires UniqueNames(ps) && i < |ps| && ps[i].name == name
    ensures Without(ps, name) == ps[..i] + ps[i + 1..]
  {
    UniqueTail(ps);
    if i == 0 {
      assert forall j | 0 <= j < |ps[1..]| :: ps[1..][j].name == ps[j + 1].name;
      assert name !in Names(ps[1..]);
      WithoutAbsent(ps[1..], name);
    } else {
      assert ps[0].name != name;
      var tail := ps[1..];
      WithoutAt(tail, i - 1, name);
      calc {
        Without(ps, name);
        [ps[0]] + Without(tail, name);
        [ps[0]] + (tail[..i - 1] + tail[i..]);
        { assert tail[..i - 1] == ps[1..i]; assert tail[i..] == ps[i + 1..]; }
        [ps[0]] + ps[1..i] + ps[i + 1..];
        { assert ps[..i] == [ps[0]] + ps[1..i]; }
        ps[..i] + ps[i + 1..];
      }
    }
  }

  lemma UniqueTail(ps: seq<Property>)
    requires UniqueNames(ps) && ps != []
    ensures UniqueNames(ps[1..])
  {
    forall i, j | 0 <= i < j < |ps| - 1
      ensures ps[1..][i].name != ps[1..][j].name
    {
      assert ps[1..][i] == ps[i + 1] && ps[1..][j] == ps[j + 1];
    }
  }

  /** After the removal, `name` is absent and every other name looks up exactly as before. */
  lemma {:induction false} LookupWithout(ps: seq<Property>, name: string, other: string)
    ensures Lookup(Without(ps, name), other) == if other == name then None else Lookup(ps, other)
  {
    if ps != [] {
      LookupWithout(ps[1..], name, other);
    }
  }

  /** Removal keeps names unique. */
  lemma {:induction false} WithoutUnique(ps: seq<Property>, name: string)
    requires UniqueNames(ps)
    ensures UniqueNames(Without(ps, name))
  {
    if ps != [] {
      UniqueTail(ps);
      WithoutUnique(ps[1..], name);
      if ps[0].name != name {
        var rest := Without(ps[1..], name);
        assert forall p | p in rest :: p in ps[1..];
        assert forall j | 0 <= j < |rest| :: rest[j] in ps[1..];
      }
    }
  }

  /** The mutable in-memory JObject a transform document is parsed into. */
  class JObject {
    var properties: seq<Property>

    constructor (properties: seq<Property>)
      ensures this.properties == properties
    {
      this.properties := properties;
    }

    /** JObject.GetValue(name): null when no property has the name, else the first such property's value. */
    function GetValue(name: string): (v: Option<JToken>)
      reads this
      ensures v.None? <==> name !in Names(properties)
      ensures forall i | 0 <= i < |properties| && FirstNamed(properties, name, i) :: v == Some(properties[i].value)
    {
      Lookup(properties, name)
    }

    /** JObject.Remove(name): deletes the property in place; true when there was one. */
    method Remove(name: string) returns (removed: bool)
      modifies this
      ensures removed <==> name in Names(old(properties))
      ensures properties == Without(old(properties), name)
    {
      removed := name in Names(properties);
      properties := Without(properties, name);
    }
  }
}
