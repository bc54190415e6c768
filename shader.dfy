/**
 A shader program object that keeps a memo map from uniform names to the
 locations the GL driver reports for them. The driver is not modelled: its
 answer to glGetUniformLocation is an opaque function of the program handle
 and the uniform name, and every call the object makes into the driver is
 appended to a trace so that "asked at most once per name" can be stated.
 */
module Shader {

  /** A three-component float vector (glm::vec3). */
  datatype Vec3 = Vec3(x: real, y: real, z: real)

  /** The value handed to one of the five SetUniform overloads. */
  datatype UniformValue =
    | Float(f: real)
    | Vector2(x: real, y: real)
    | Vector3(v: Vec3)
    | Vector4(x: real, y: real, z: real, w: real)
    | Matrix4(columns: seq<real>)

  /** The driver calls the program object issues, in the order it issues them. */
  datatype GlCall =
    | UseProgram(program: nat)
    | QueryLocation(program: nat, name: string)
    | Uniform(location: int, value: UniformValue)

  /** What one memoised lookup yields: the location, the memo map afterwards,
      and whether the driver had to be asked. */
  datatype Lookup = Lookup(location: int, cache: map<string, int>, queried: bool)

  /** Every memoised location is the one the driver reports for `program`. */
  ghost predicate Current(cache: map<string, int>, program: nat, locate: (nat, string) -> int)
  {
    forall n :: n in cache ==> cache[n] == locate(program, n)
  }

  /** One memoised lookup of `name`: ask the driver only when the name is not
      in the map yet, then answer from the map. */
  function Resolve(cache: map<string, int>, program: nat, locate: (nat, string) -> int, name: string): (r: Lookup)
    ensures name in r.cache && r.location == r.cache[name]
    ensures r.queried <==> name !in cache
    ensures r.queried ==> r.location == locate(program, name)
    ensures !r.queried ==> r.cache == cache
    ensures r.cache.Keys == cache.Keys + {name}
    ensures forall n :: n in cache ==> r.cache[n] == cache[n]
    ensures Current(cache, program, locate) ==> Current(r.cache, program, locate) && r.location == locate(program, name)
  {
    if name in cache then Lookup(cache[name], cache, false)
    else
      var loc := locate(program, name);
      Lookup(loc, cache[name := loc], true)
  }

  /** The outcome of a run of lookups: the location returned for each name,
      the memo map at the end, and the names the driver was asked about. */
  datatype Lookups = Lookups(locations: seq<int>, cache: map<string, int>, queried: seq<string>)

  /** A run of memoised lookups, one per name, left to right. */
  function ResolveAll(cache: map<string, int>, program: nat, locate: (nat, string) -> int, names: seq<string>): Lookups
    decreases |names|
  {
    if names == [] then Lookups([], cache, [])
    else
      var first := Resolve(cache, program, locate, names[0]);
      var rest := ResolveAll(first.cache, program, locate, names[1..]);
      Lookups([first.location] + rest.locations, rest.cache,
               (if first.queried then [names[0]] else []) + rest.queried)
  }

  /** Over any run of lookups the memo map only grows: it ends up holding
      exactly the names already there plus the names looked up, and entries
      already there never change. */
  lemma {:induction false} ResolveAllGrows(cache: map<string, int>, program: nat, locate: (nat, string) -> int, names: seq<string>)
    ensures ResolveAll(cache, program, locate, names).cache.Keys == cache.Keys + set n | n in names
    ensures forall n :: n in cache ==> ResolveAll(cache, program, locate, names).cache[n] == cache[n]
    decreases |names|
  {
    if names != [] {
      var first := Resolve(cache, program, locate, names[0]);
      ResolveAllGrows(first.cache, program, locate, names[1..]);
      assert names == [names[0]] + names[1..];
      assert (set n | n in names) == {names[0]} + set n | n in names[1..];
    }
  }

  /** Every lookup in a run returns the location that ends up in the map for
      its name, so looking up the same name twice gives the same answer. */
  lemma {:induction false} ResolveAllConsistent(cache: map<string, int>, program: nat, locate: (nat, string) -> int, names: seq<string>)
    ensures |ResolveAll(cache, program, locate, names).locations| == |names|
    ensures forall i :: 0 <= i < |names| ==>
      && names[i] in ResolveAll(cache, program, locate, names).cache
      && ResolveAll(cache, program, locate, names).locations[i] == ResolveAll(cache, program, locate, names).cache[names[i]]
    decreases |names|
  {
    if names != [] {
      var first := Resolve(cache, program, locate, names[0]);
      ResolveAllConsistent(first.cache, program, locate, names[1..]);
      ResolveAllGrows(first.cache, program, locate, names[1..]);
      var rest := ResolveAll(first.cache, program, locate, names[1..]);
      var r := ResolveAll(cache, program, locate, names);
      assert r.locations == [first.location] + rest.locations && r.cache == rest.cache;
      forall i | 1 <= i < |names|
        ensures names[i] in r.cache && r.locations[i] == r.cache[names[i]]
      {
        assert r.locations[i] == rest.locations[i - 1] && names[i] == names[1..][i - 1];
      }
    }
  }

  /** No element occurs twice. */
  ghost predicate Distinct<T>(s: seq<T>)
  {
    forall i, j :: 0 <= i < j < |s| ==> s[i] != s[j]
  }

  /** Over any run of lookups the driver is asked about each name at most
      once, and exactly about the names that were not memoised yet. */
  lemma {:induction false} ResolveAllQueriesOnce(cache: map<string, int>, program: nat, locate: (nat, string) -> int, names: seq<string>)
    ensures Distinct(ResolveAll(cache, program, locate, names).queried)
    ensures forall n :: n in ResolveAll(cache, program, locate, names).queried <==> n in names && n !in cache
    decreases |names|
  {
    if names != [] {
      var first := Resolve(cache, program, locate, names[0]);
      ResolveAllQueriesOnce(first.cache, program, locate, names[1..]);
      assert names == [names[0]] + names[1..];
      var rest := ResolveAll(first.cache, program, locate, names[1..]).queried;
      assert names[0] !in rest;
      var head := if first.queried then [names[0]] else [];
      var q := head + rest;
      forall i, j | 0 <= i < j < |q|
        ensures q[i] != q[j]
      {
        assert q[j] == rest[j - |head|];
        if i < |head| {
          assert q[i] == names[0];
        } else {
          assert q[i] == rest[i - |head|];
        }
      }
    }
  }

  /** A linked GL program object with its uniform-location memo map. */
  class ShaderProgram {
    /** The driver's answer to glGetUniformLocation(program, name). */
    const driverLocation: (nat, string) -> int
    /** The program handle; 0 means no usable program. */
    var handle: nat
    /** Uniform name to location, filled on first use. */
    var uniformLocations: map<string, int>
    /** Driver calls issued so far. */
    var calls: seq<GlCall>

    /** The memo map holds only locations the driver reports for the current handle. */
    ghost predicate LocationsCurrent()
      reads this
    {
      Current(uniformLocations, handle, driverLocation)
    }

    /** Starts from handle 0 and an empty map, then loads; `created` is what
        glCreateProgram returns. */
    constructor (driverLocation: (nat, string) -> int, created: nat)
      ensures this.driverLocation == driverLocation
      ensures handle == created && uniformLocations == map[] && calls == []
      ensures LocationsCurrent()
    {
      this.driverLocation := driverLocation;
      handle := 0;
      uniformLocations := map[];
      calls := [];
      new;
      var _ := LoadShaders(created);
    }

    /** Takes the handle glCreateProgram returns; on 0 it fails and keeps the
        memo map, otherwise it clears the map. Compilation and linking are
        not modelled. */
    method LoadShaders(created: nat) returns (ok: bool)
      modifies this`handle, this`uniformLocations
      ensures handle == created
      ensures ok <==> created > 0
      ensures ok ==> uniformLocations == map[] && LocationsCurrent()
      ensures !ok ==> uniformLocations == old(uniformLocations)
    {
      handle := created;
      if handle == 0 {
        return false;
      }
      uniformLocations := map[];
      return true;
    }

    /** Makes the program current, but only when there is one. */
    method Use()
      modifies this`calls
      ensures calls == if handle > 0 then old(calls) + [UseProgram(handle)] else old(calls)
    {
      if handle > 0 {
        calls := calls + [UseProgram(handle)];
      }
    }

    /** The program handle; changes nothing. */
    method GetProgram() returns (h: nat)
      ensures h == handle
    {
      h := handle;
    }

    /** The memoised location of `name`: the driver is asked only when the map
        has no entry for it, and the answer is stored before it is returned. */
    method GetUniformLocation(name: string) returns (loc: int)
      modifies this`uniformLocations, this`calls
      ensures var r := Resolve(old(uniformLocations), handle, driverLocation, name);
        && loc == r.location && uniformLocations == r.cache
        && calls == old(calls) + if r.queried then [QueryLocation(handle, name)] else []
      ensures old(LocationsCurrent()) ==> LocationsCurrent() && loc == driverLocation(handle, name)
    {
      if name !in uniformLocations {
        calls := calls + [QueryLocation(handle, name)];
        uniformLocations := uniformLocations[name := driverLocation(handle, name)];
      }
      loc := uniformLocations[name];
    }

    /** Every overload: resolve the location through the memo map, then set
        the value at it. */
    method SetUniform(name: string, value: UniformValue)
      modifies this`uniformLocations, this`calls
      ensures var r := Resolve(old(uniformLocations), handle, driverLocation, name);
        && uniformLocations == r.cache
        && calls == old(calls) + (if r.queried then [QueryLocation(handle, name)] else []) + [Uniform(r.location, value)]
      ensures old(LocationsCurrent()) ==> LocationsCurrent()
    {
      var loc := GetUniformLocation(name);
      calls := calls + [Uniform(loc, value)];
    }
  }
}
