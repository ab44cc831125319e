/** The YAML values the compiler reads (the `yaml_rust::Yaml` type) and the
    helpers of `openapi_node/src/common.rs`: the allowed-key check and the
    typed getters of `YamlHash`.

    A YAML mapping is an ordered list of entries; a lookup finds the first
    entry whose key equals the one asked for. */
module YamlModel {
  import opened Wrappers
  import opened Strings

  /** Rust's `i64`. */
  type i64 = x: int | -0x8000_0000_0000_0000 <= x < 0x8000_0000_0000_0000

  /** Rust's `usize` on a 64-bit target. */
  type usize = x: int | 0 <= x < 0x1_0000_0000_0000_0000

  const USIZE_MODULUS: int := 0x1_0000_0000_0000_0000

  datatype Yaml =
    | Real(repr: string)
    | Integer(intValue: i64)
    | Str(str: string)
    | Boolean(boolValue: bool)
    | Array(items: seq<Yaml>)
    | Hash(entries: seq<Entry>)
    | Alias(id: nat)
    | Null
    | BadValue
  {
    function AsStr(): (r: Option<string>)
      ensures r.Some? <==> Str?
    {
      if Str? then Some(str) else None
    }

    function AsBool(): (r: Option<bool>)
      ensures r.Some? <==> Boolean?
    {
      if Boolean? then Some(boolValue) else None
    }

    function AsI64(): (r: Option<i64>)
      ensures r.Some? <==> Integer?
    {
      if Integer? then Some(intValue) else None
    }

    function AsVec(): (r: Option<seq<Yaml>>)
      ensures r.Some? <==> Array?
    {
      if Array? then Some(items) else None
    }

    function AsHash(): (r: Option<seq<Entry>>)
      ensures r.Some? <==> Hash?
    {
      if Hash? then Some(entries) else None
    }
  }

  datatype Entry = Entry(key: Yaml, value: Yaml)

  /** `yaml::Hash`: the entries of a mapping, in document order. */
  type Mapping = seq<Entry>

  /** Entry `i` is the first one of `h` whose key is `key`. */
  ghost predicate FirstWithKey(h: Mapping, key: Yaml, i: int) {
    0 <= i < |h| && h[i].key == key && forall j :: 0 <= j < i ==> h[j].key != key
  }

  /** `Hash::get`: the value of the first entry with the given key. */
  function Lookup(h: Mapping, key: Yaml): (r: Option<Yaml>)
    ensures r.None? <==> forall i :: 0 <= i < |h| ==> h[i].key != key
    ensures r.Some? ==> exists i :: FirstWithKey(h, key, i) && h[i].value == r.value
    decreases |h|
  {
    if h == [] then None
    else if h[0].key == key then Some(h[0].value)
    else
      var r := Lookup(h[1..], key);
      assert r.Some? ==> exists i :: FirstWithKey(h, key, i) && h[i].value == r.value by {
        if r.Some? {
          var i :| FirstWithKey(h[1..], key, i) && h[1..][i].value == r.value;
          assert FirstWithKey(h, key, i + 1);
        }
      }
      r
  }

  /** `YamlHash::get_value`: keys are looked up as YAML strings. */
  function GetValue(h: Mapping, key: string): (r: Option<Yaml>)
    ensures r.None? <==> forall i :: 0 <= i < |h| ==> h[i].key != Str(key)
    ensures r.Some? ==> exists i :: FirstWithKey(h, Str(key), i) && h[i].value == r.value
  {
    Lookup(h, Str(key))
  }

  function GetString(h: Mapping, key: string): (r: Option<string>)
    ensures r.Some? <==> GetValue(h, key).Some? && GetValue(h, key).value.Str?
    ensures r.Some? ==> GetValue(h, key) == Some(Str(r.value))
  {
    match GetValue(h, key)
    case Some(Str(s)) => Some(s)
    case _ => None
  }

  function GetBool(h: Mapping, key: string): (r: Option<bool>)
    ensures r.Some? <==> GetValue(h, key).Some? && GetValue(h, key).value.Boolean?
    ensures r.Some? ==> GetValue(h, key) == Some(Boolean(r.value))
  {
    match GetValue(h, key)
    case Some(Boolean(b)) => Some(b)
    case _ => None
  }

  function GetI64(h: Mapping, key: string): (r: Option<i64>)
    ensures r.Some? <==> GetValue(h, key).Some? && GetValue(h, key).value.Integer?
    ensures r.Some? ==> GetValue(h, key) == Some(Integer(r.value))
  {
    match GetValue(h, key)
    case Some(Integer(i)) => Some(i)
    case _ => None
  }

  function GetVec(h: Mapping, key: string): (r: Option<seq<Yaml>>)
    ensures r.Some? <==> GetValue(h, key).Some? && GetValue(h, key).value.Array?
    ensures r.Some? ==> GetValue(h, key) == Some(Array(r.value))
  {
    match GetValue(h, key)
    case Some(Array(items)) => Some(items)
    case _ => None
  }

  function GetHash(h: Mapping, key: string): (r: Option<Mapping>)
    ensures r.Some? <==> GetValue(h, key).Some? && GetValue(h, key).value.Hash?
    ensures r.Some? ==> GetValue(h, key) == Some(Hash(r.value))
  {
    match GetValue(h, key)
    case Some(Hash(m)) => Some(m)
    case _ => None
  }

  /** A key that is absent makes every typed getter return None. */
  lemma GettersOfAbsentKey(h: Mapping, key: string)
    requires forall i :: 0 <= i < |h| ==> h[i].key != Str(key)
    ensures GetString(h, key).None? && GetBool(h, key).None? && GetI64(h, key).None?
    ensures GetVec(h, key).None? && GetHash(h, key).None?
  {
  }

  /** Rust's `i64 as usize`: a negative value wraps around modulo 2^64. */
  function AsUsize(i: i64): (r: usize)
    ensures (r - i) % USIZE_MODULUS == 0
    ensures i >= 0 ==> r == i
  {
    if i < 0 then i + USIZE_MODULUS else i
  }

  const UNWRAP_NONE: string := "called `Option::unwrap()` on a `None` value"

  /** The keys of `h` that are not in `allowed`, in map order; None when some
      key is not a string (the source unwraps every key as a string). */
  function UnexpectedKeys(h: Mapping, allowed: seq<string>): (r: Option<seq<string>>)
    ensures r.None? <==> exists i :: 0 <= i < |h| && !h[i].key.Str?
    ensures r.Some? ==> forall k :: k in r.value <==>
      (exists i :: 0 <= i < |h| && h[i].key == Str(k)) && k !in allowed
    decreases |h|
  {
    if h == [] then Some([])
    else if !h[0].key.Str? then None
    else
      var rest := UnexpectedKeys(h[1..], allowed);
      if rest.None? then
        assert exists i :: 0 <= i < |h| && !h[i].key.Str? by {
          var i :| 0 <= i < |h[1..]| && !h[1..][i].key.Str?;
          assert !h[i + 1].key.Str?;
        }
        None
      else
        var k := h[0].key.str;
        var r := if k in allowed then rest.value else [k] + rest.value;
        assert forall x :: x in r <==>
          (exists i :: 0 <= i < |h| && h[i].key == Str(x)) && x !in allowed by {
          forall x
            ensures x in r <==> (exists i :: 0 <= i < |h| && h[i].key == Str(x)) && x !in allowed
          {
            if x in rest.value {
              var i :| 0 <= i < |h[1..]| && h[1..][i].key == Str(x);
              assert h[i + 1].key == Str(x);
            }
            if (exists i :: 0 <= i < |h| && h[i].key == Str(x)) && x !in allowed {
              var i :| 0 <= i < |h| && h[i].key == Str(x);
              if i > 0 {
                assert h[1..][i - 1].key == Str(x);
              }
            }
          }
        }
        Some(r)
  }

  /** Scanning a map in two parts lists the first part's keys first: the
      error message keeps map order. */
  lemma {:induction false} UnexpectedKeysAppend(h: Mapping, e: Entry, allowed: seq<string>)
    ensures UnexpectedKeys(h + [e], allowed) ==
      if UnexpectedKeys(h, allowed).None? || !e.key.Str? then None
      else if e.key.str in allowed then UnexpectedKeys(h, allowed)
      else Some(UnexpectedKeys(h, allowed).value + [e.key.str])
    decreases |h|
  {
    if h == [] {
      assert [] + [e] == [e];
      assert [e][1..] == [];
      assert UnexpectedKeys([e][1..], allowed) == Some([]);
      if e.key.Str? {
        assert [e.key.str] + [] == [] + [e.key.str];
      }
    } else {
      assert (h + [e])[0] == h[0];
      assert (h + [e])[1..] == h[1..] + [e];
      UnexpectedKeysAppend(h[1..], e, allowed);
      if h[0].key.Str? && UnexpectedKeys(h[1..], allowed).Some? && e.key.Str? && e.key.str !in allowed {
        var k := h[0].key.str;
        var rest := UnexpectedKeys(h[1..], allowed).value;
        assert ([k] + rest) + [e.key.str] == [k] + (rest + [e.key.str]);
      }
    }
  }

  function UnexpectedKeysMessage(keys: seq<string>): string {
    "[check_unexpected_keys] Unexpected keys: \"" + Join(keys, ", ") + "\""
  }

  /** `check_unexpected_keys`: Ok exactly when every key is a string in
      `allowed`; a non-string key panics; otherwise the error lists the
      unexpected keys. */
  function KeyCheck(allowed: seq<string>, h: Mapping): (r: Result<Unit>)
    ensures r.Ok? <==> forall i :: 0 <= i < |h| ==> h[i].key.Str? && h[i].key.str in allowed
    ensures r.Panic? <==> exists i :: 0 <= i < |h| && !h[i].key.Str?
    ensures r.Err? ==> (exists keys :: |keys| > 0 && r.error == UnexpectedKeysMessage(keys) &&
                                       UnexpectedKeys(h, allowed) == Some(keys))
  {
    match UnexpectedKeys(h, allowed)
    case None => Panic(UNWRAP_NONE)
    case Some(keys) =>
      if |keys| > 0 then
        assert keys[0] in keys;
        Err(UnexpectedKeysMessage(keys))
      else
        assert forall i :: 0 <= i < |h| ==> h[i].key.Str? && h[i].key.str in allowed by {
          forall i | 0 <= i < |h|
            ensures h[i].key.Str? && h[i].key.str in allowed
          {
            assert h[i].key == Str(h[i].key.str);
            assert (h[i].key.str in keys) == (h[i].key.str !in allowed);
          }
        }
        Ok(Unit)
  }

  /** The loop of `check_unexpected_keys`, collecting unexpected keys one
      entry at a time. */
  method CheckUnexpectedKeys(allowed: seq<string>, h: Mapping) returns (r: Result<Unit>)
    ensures r == KeyCheck(allowed, h)
  {
    var unexpected: seq<string> := [];
    var i := 0;
    while i < |h|
      invariant 0 <= i <= |h|
      invariant UnexpectedKeys(h[..i], allowed) == Some(unexpected)
    {
      UnexpectedKeysAppend(h[..i], h[i], allowed);
      assert h[..i + 1] == h[..i] + [h[i]];
      if !h[i].key.Str? {
        assert !h[i].key.Str?;
        return Panic(UNWRAP_NONE);
      }
      var key := h[i].key.str;
      if key !in allowed {
        unexpected := unexpected + [key];
      }
      i := i + 1;
    }
    assert h[..i] == h;
    if |unexpected| > 0 {
      r := Err(UnexpectedKeysMessage(unexpected));
    } else {
      r := Ok(Unit);
    }
  }
}
