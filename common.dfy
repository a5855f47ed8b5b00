/// Values shared by the card renderer and the viewer: optional and fallible
/// results, the JSON values vocabulary entries are made of, and the foreign
/// functions (speech synthesis, MD5, Python's str() of a container) that the
/// model takes as parameters instead of defining.
module Common {

  datatype Option<+T> = None | Some(value: T)

  datatype Result<+T, +E> = Ok(value: T) | Err(error: E)

  /** The bytes of one synthesized MP3 clip. */
  type Clip = seq<bv8>

  /** A JSON value as the program holds it after parsing: a string, any other
      scalar (a number, a boolean or null, carried with the text Python's str()
      prints for it), a list, or a dict given by its items in insertion order.
      A Python dict holds each key once; the type does not enforce it, and
      `DistinctKeys` states it where a property depends on it. */
  datatype Json =
    | Str(s: string)
    | Atom(text: string)
    | List(items: seq<Json>)
    | Dict(fields: seq<(string, Json)>)

  /** The collaborators the program calls but does not define:
      synth  - the speech engine: text to MP3 bytes, or None when it fails;
      digest - the MD5 hex digest of a text;
      repr   - the text Python's str() prints for a list or a dict. */
  datatype Oracles = Oracles(
    synth: string -> Option<Clip>,
    digest: string -> string,
    repr: Json -> string)

  /** `dict.get(key, default)`: the value bound to `key`, or `default`. */
  function Get(fields: seq<(string, Json)>, key: string, default: Json): Json
  {
    if |fields| == 0 then default
    else if fields[0].0 == key then fields[0].1
    else Get(fields[1..], key, default)
  }

  /** `get` finds the first binding of the key, and the default when there is none. */
  lemma {:induction false} GetFirstBinding(fields: seq<(string, Json)>, key: string, default: Json)
    ensures (forall i :: 0 <= i < |fields| ==> fields[i].0 != key) ==> Get(fields, key, default) == default
    ensures (exists i :: 0 <= i < |fields| && fields[i].0 == key) ==>
              exists i :: 0 <= i < |fields| && fields[i] == (key, Get(fields, key, default)) &&
                          forall j :: 0 <= j < i ==> fields[j].0 != key
  {
    if |fields| > 0 {
      var v := Get(fields, key, default);
      if fields[0].0 == key {
        assert fields[0] == (key, v);
      } else {
        GetFirstBinding(fields[1..], key, default);
        assert (forall i :: 0 <= i < |fields| ==> fields[i].0 != key) ==> v == default by {
          if forall i :: 0 <= i < |fields| ==> fields[i].0 != key {
            assert forall i :: 0 <= i < |fields[1..]| ==> fields[1..][i].0 != key by {
              forall i | 0 <= i < |fields[1..]| ensures fields[1..][i].0 != key {
                assert fields[1..][i] == fields[i + 1];
              }
            }
          }
        }
        if exists i :: 0 <= i < |fields| && fields[i].0 == key {
          var k :| 0 <= k < |fields| && fields[k].0 == key;
          assert fields[1..][k - 1].0 == key;
          var i :| 0 <= i < |fields[1..]| && fields[1..][i] == (key, v) &&
                   forall j :: 0 <= j < i ==> fields[1..][j].0 != key;
          assert fields[i + 1] == (key, v);
          forall j | 0 <= j < i + 1 ensures fields[j].0 != key {
            if j > 0 { assert fields[j] == fields[1..][j - 1]; }
          }
        }
      }
    }
  }

  /** Each key bound at most once, as in a Python dict. */
  predicate DistinctKeys(fields: seq<(string, Json)>)
  {
    forall i, j :: 0 <= i < j < |fields| ==> fields[i].0 != fields[j].0
  }

  /** In a dict, `get` of a bound key is the value bound to it. */
  lemma GetBoundValue(fields: seq<(string, Json)>, key: string, default: Json, i: nat)
    requires DistinctKeys(fields) && i < |fields| && fields[i].0 == key
    ensures Get(fields, key, default) == fields[i].1
  {
    GetFirstBinding(fields, key, default);
    var k :| 0 <= k < |fields| && fields[k] == (key, Get(fields, key, default)) &&
             forall j :: 0 <= j < k ==> fields[j].0 != key;
    assert k == i;
  }

  /** The text an f-string interpolation `{v}` produces for the value `v`. */
  function Show(v: Json, o: Oracles): string
  {
    match v
    case Str(s) => s
    case Atom(t) => t
    case _ => o.repr(v)
  }
}
