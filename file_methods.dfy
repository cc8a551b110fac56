/**
 * The immutable records that msgpack files are decoded into: a record is a
 * namedtuple whose class is cached per tuple of field names, read like a
 * dict, copied with some fields replaced or added, and turned back into
 * plain msgpack values when saved.
 *
 * Decoded values are the datatype Obj; a record carries the identity of its
 * class, so that "the same class" is observable.
 */
module FileMethods {
  import opened Wrappers
  import opened PySeq

  datatype Obj =
    | Record(cls: nat, fields: seq<string>, values: seq<Obj>)
    | Tuple(items: seq<Obj>)
    | List(items: seq<Obj>)
    /** A float; `exact` is false for a float subclass such as numpy's float64. */
    | Float(x: real, exact: bool)
    /** An insertion-ordered dict. */
    | Dict(pairs: seq<(string, Obj)>)
    | Str(s: string)
    | Int(i: int)
    | NoneObj

  /** A record whose values line up with its fields. */
  predicate WellFormed(r: Obj) {
    r.Record? && |r.fields| == |r.values|
  }

  /** How a record is indexed: by field name or by position. */
  datatype Key = StrKey(name: string) | IntKey(index: int)

  const AttributeError: string := "AttributeError"
  const IndexError: string := "IndexError: tuple index out of range"
  const ValueError: string := "ValueError"

  /** The position of the first occurrence of `x`, as tuple.index finds it. */
  function IndexOf(s: seq<string>, x: string): (i: nat)
    requires x in s
    ensures i < |s| && s[i] == x && x !in s[..i]
  {
    if s[0] == x then 0 else 1 + IndexOf(s[1..], x)
  }

  /** __getitem__: a name is looked up as an attribute, an integer as a tuple position (negative from the end). */
  function GetItem(r: Obj, key: Key): (v: Result<Obj, string>)
    requires WellFormed(r)
    ensures key.StrKey? ==> (v.Ok? <==> key.name in r.fields)
    ensures key.StrKey? && key.name in r.fields ==> v == Ok(r.values[IndexOf(r.fields, key.name)])
    ensures key.IntKey? ==> (v.Ok? <==> -|r.values| <= key.index < |r.values|)
    ensures key.IntKey? && 0 <= key.index < |r.values| ==> v == Ok(r.values[key.index])
    ensures key.IntKey? && -|r.values| <= key.index < 0 ==> v == Ok(r.values[|r.values| + key.index])
  {
    match key
    case StrKey(name) => if name in r.fields then Ok(r.values[IndexOf(r.fields, name)]) else Err(AttributeError)
    case IntKey(i) =>
      if 0 <= i < |r.values| then Ok(r.values[i])
      else if -|r.values| <= i < 0 then Ok(r.values[|r.values| + i])
      else Err(IndexError)
  }

  /** keys(): the field names, in order. */
  function RecordKeys(r: Obj): (ks: seq<string>)
    requires r.Record?
    ensures ks == r.fields
  {
    r.fields
  }

  /** get(key, default): the default exactly when the key is not one of the field names. */
  function Get(r: Obj, key: Key, default: Obj): (v: Result<Obj, string>)
    requires WellFormed(r)
    ensures !(key.StrKey? && key.name in r.fields) ==> v == Ok(default)
    ensures key.StrKey? && key.name in r.fields ==> v == GetItem(r, key) && v.Ok?
  {
    if key.StrKey? && key.name in r.fields then GetItem(r, key) else Ok(default)
  }

  /** The dict of a record, zip(fields, values). */
  function Zip(fields: seq<string>, values: seq<Obj>): (z: seq<(string, Obj)>)
    requires |fields| == |values|
    ensures |z| == |fields| && forall i :: 0 <= i < |z| ==> z[i] == (fields[i], values[i])
  {
    seq(|fields|, i requires 0 <= i < |fields| => (fields[i], values[i]))
  }

  function KeysOf(pairs: seq<(string, Obj)>): (ks: seq<string>)
    ensures |ks| == |pairs| && forall i :: 0 <= i < |ks| ==> ks[i] == pairs[i].0
  {
    if pairs == [] then [] else [pairs[0].0] + KeysOf(pairs[1..])
  }

  lemma {:induction false} KeysOfAppend(a: seq<(string, Obj)>, b: seq<(string, Obj)>)
    ensures KeysOf(a + b) == KeysOf(a) + KeysOf(b)
  {
    if a != [] {
      assert (a + b)[1..] == a[1..] + b;
      KeysOfAppend(a[1..], b);
    }
  }

  /** d[k] = v on an insertion-ordered dict: an existing key keeps its place, a new key goes last. */
  function Assign(d: seq<(string, Obj)>, k: string, v: Obj): (r: seq<(string, Obj)>)
    ensures k in KeysOf(d) ==> KeysOf(r) == KeysOf(d)
    ensures k !in KeysOf(d) ==> r == d + [(k, v)]
  {
    if d == [] then [(k, v)]
    else if d[0].0 == k then [(k, v)] + d[1..]
    else
      var r := [d[0]] + Assign(d[1..], k, v);
      assert r[1..] == Assign(d[1..], k, v);
      r
  }

  /** dict(pairs): later pairs overwrite earlier ones with the same key. */
  function DictFromPairs(pairs: seq<(string, Obj)>): (d: seq<(string, Obj)>)
    ensures |pairs| > 0 ==> |d| > 0
  {
    if pairs == [] then []
    else Assign(DictFromPairs(pairs[..|pairs| - 1]), pairs[|pairs| - 1].0, pairs[|pairs| - 1].1)
  }

  /** Pairs with pairwise different keys make a dict holding exactly those pairs, in order. */
  lemma {:induction false} DictFromDistinctPairs(pairs: seq<(string, Obj)>)
    requires Distinct(KeysOf(pairs))
    ensures DictFromPairs(pairs) == pairs
  {
    if pairs != [] {
      var init := pairs[..|pairs| - 1];
      var last := pairs[|pairs| - 1];
      assert init + [last] == pairs;
      KeysOfAppend(init, [last]);
      assert KeysOf(pairs) == KeysOf(init) + [last.0];
      assert Distinct(KeysOf(init)) by {
        assert forall i :: 0 <= i < |init| ==> KeysOf(init)[i] == KeysOf(pairs)[i];
      }
      DictFromDistinctPairs(init);
      assert last.0 !in KeysOf(init) by {
        assert forall i :: 0 <= i < |init| ==> KeysOf(init)[i] == KeysOf(pairs)[i] != KeysOf(pairs)[|pairs| - 1];
      }
    }
  }

  /** _asdict_strict */
  function AsDictStrict(r: Obj): Obj
    requires WellFormed(r)
  {
    Dict(DictFromPairs(Zip(r.fields, r.values)))
  }

  /** The msgpack `default` hook: records become dicts, other tuples lists, float subclasses plain floats. */
  function Serialize(o: Obj): (r: Obj)
    requires o.Record? ==> WellFormed(o)
    ensures !r.Record? && !r.Tuple? && (r.Float? ==> r.exact)
    ensures o.Tuple? ==> r == List(o.items)
    ensures o.Float? ==> r == Float(o.x, true)
    ensures !o.Record? && !o.Tuple? && !o.Float? ==> r == o
  {
    match o
    case Record(_, _, _) => AsDictStrict(o)
    case Tuple(items) => List(items)
    case Float(x, _) => Float(x, true)
    case _ => o
  }

  /** A record with distinct fields serialises to the dict mapping each field, in order, to its value. */
  lemma SerializeRecord(r: Obj)
    requires WellFormed(r) && Distinct(r.fields)
    ensures Serialize(r) == Dict(Zip(r.fields, r.values))
    ensures KeysOf(Serialize(r).pairs) == r.fields
  {
    assert KeysOf(Zip(r.fields, r.values)) == r.fields;
    DictFromDistinctPairs(Zip(r.fields, r.values));
  }

  /** Serialising what is already serialised changes nothing. */
  lemma SerializeIdempotent(o: Obj)
    requires o.Record? ==> WellFormed(o)
    ensures Serialize(Serialize(o)) == Serialize(o)
  {
  }

  /** Python 3.6's keyword.kwlist; async and await only became reserved in 3.7. */
  const Keywords: set<string> := {
    "False", "None", "True", "and", "as", "assert", "break", "class", "continue",
    "def", "del", "elif", "else", "except", "finally", "for", "from", "global", "if", "import", "in",
    "is", "lambda", "nonlocal", "not", "or", "pass", "raise", "return", "try", "while", "with", "yield"}

  predicate IsIdentStart(c: char) {
    'a' <= c <= 'z' || 'A' <= c <= 'Z' || c == '_'
  }

  predicate IsIdentChar(c: char) {
    IsIdentStart(c) || '0' <= c <= '9'
  }

  /** str.isidentifier() restricted to ASCII, and not a keyword. */
  predicate IsFieldName(name: string) {
    |name| > 0 && IsIdentStart(name[0]) && (forall i :: 1 <= i < |name| ==> IsIdentChar(name[i])) &&
    name !in Keywords
  }

  /** What namedtuple accepts: identifiers, none starting with '_', none twice. */
  predicate ValidFieldNames(names: seq<string>) {
    (forall n :: n in names ==> IsFieldName(n) && n[0] != '_') && Distinct(names)
  }

  lemma KeywordRefused()
    ensures !ValidFieldNames(["class"])
  {
    assert "class" in Keywords;
    assert !IsFieldName("class");
  }

  lemma SpaceRefused()
    ensures !ValidFieldNames(["two words"])
  {
    assert "two words"[3] == ' ' && !IsIdentChar(' ');
    assert !IsFieldName("two words");
  }

  lemma SimpleNamesAccepted()
    ensures ValidFieldNames(["a", "b"])
  {
    assert "a" !in Keywords && "b" !in Keywords;
    assert IsFieldName("a") && IsFieldName("b");
  }

  /** Names namedtuple refuses: a keyword, a leading underscore, a repeated name, a space. */
  lemma InvalidFieldNames()
    ensures !ValidFieldNames(["class"]) && !ValidFieldNames(["_x"]) && !ValidFieldNames(["a", "a"])
    ensures !ValidFieldNames(["two words"]) && ValidFieldNames(["a", "b"])
  {
    KeywordRefused();
    SpaceRefused();
    SimpleNamesAccepted();
    assert "_x"[0] == '_';
    assert ["a", "a"][0] == ["a", "a"][1];
  }

  /**
   * The record classes created so far, one per tuple of field names, and
   * the module-level cache that maps each tuple to its class.
   */
  class RecordClasses {
    var cache: map<seq<string>, nat>
    var created: nat

    /** Every cached class has its own identity, and only valid names are cached. */
    predicate Valid()
      reads this
    {
      (forall f :: f in cache ==> cache[f] < created && ValidFieldNames(f)) &&
      (forall f, g :: f in cache && g in cache && f != g ==> cache[f] != cache[g])
    }

    constructor ()
      ensures Valid() && cache == map[] && created == 0
    {
      cache := map[];
      created := 0;
    }

    /**
     * create_Immutable_Dict: valid field names give a record of the cached
     * class for those names, creating and caching the class the first time;
     * invalid ones fall back to dict(pairs). When the pairs come as a
     * one-shot iterator (`oneShot`), splitting them into names and values
     * has already used them up: an empty iterator cannot be split and
     * raises ValueError, and the fallback dict is empty.
     */
    method Create(pairs: seq<(string, Obj)>, oneShot: bool) returns (r: Result<Obj, string>)
      requires Valid()
      modifies this
      ensures Valid()
      ensures oneShot && pairs == [] ==> r == Err(ValueError) && cache == old(cache) && created == old(created)
      ensures !(oneShot && pairs == []) && ValidFieldNames(KeysOf(pairs)) ==>
                KeysOf(pairs) in cache && r == Ok(Record(cache[KeysOf(pairs)], KeysOf(pairs), Values(pairs)))
      ensures !(oneShot && pairs == []) && ValidFieldNames(KeysOf(pairs)) && KeysOf(pairs) in old(cache) ==>
                cache == old(cache) && created == old(created)
      ensures !(oneShot && pairs == []) && ValidFieldNames(KeysOf(pairs)) && KeysOf(pairs) !in old(cache) ==>
                cache == old(cache)[KeysOf(pairs) := old(created)] && created == old(created) + 1
      ensures !(oneShot && pairs == []) && !ValidFieldNames(KeysOf(pairs)) ==>
                r == Ok(Dict(if oneShot then [] else DictFromPairs(pairs))) && cache == old(cache) && created == old(created)
    {
      if oneShot && pairs == [] {
        return Err(ValueError);
      }
      var names := KeysOf(pairs);
      if !ValidFieldNames(names) {
        return Ok(Dict(if oneShot then [] else DictFromPairs(pairs)));
      }
      if names !in cache {
        cache := cache[names := created];
        created := created + 1;
      }
      r := Ok(Record(cache[names], names, Values(pairs)));
    }

    /**
     * extend_copy, as written: the old fields followed by the new ones,
     * handed to create_Immutable_Dict as a zip iterator.
     */
    method ExtendCopyAsWritten(r: Obj, extensions: seq<(string, Obj)>) returns (e: Result<Obj, string>)
      requires Valid() && WellFormed(r)
      modifies this
      ensures Valid()
      ensures r.fields == [] && extensions == [] ==> e == Err(ValueError)
      ensures (r.fields != [] || extensions != []) && ValidFieldNames(r.fields + KeysOf(extensions)) ==>
                e.Ok? && e.value.Record? && e.value.fields == r.fields + KeysOf(extensions) &&
                e.value.values == r.values + Values(extensions)
      ensures !ValidFieldNames(r.fields + KeysOf(extensions)) ==> e == Ok(Dict([]))
    {
      var pairs := Zip(r.fields, r.values) + extensions;
      KeysOfAppend(Zip(r.fields, r.values), extensions);
      assert KeysOf(Zip(r.fields, r.values)) == r.fields;
      ValuesOfExtended(r.fields, r.values, extensions);
      e := Create(pairs, true);
    }

    /**
     * extend_copy with the pairs handed over as a list: the old fields and
     * values followed by the new ones, of the cached class for the combined
     * names; names that namedtuple refuses, such as a duplicate of an
     * existing field, give the dict of all pairs, the later value winning.
     */
    method ExtendCopy(r: Obj, extensions: seq<(string, Obj)>) returns (e: Result<Obj, string>)
      requires Valid() && WellFormed(r)
      modifies this
      ensures Valid() && e.Ok?
      ensures ValidFieldNames(r.fields + KeysOf(extensions)) ==>
                e.value.Record? && e.value.fields == r.fields + KeysOf(extensions) &&
                e.value.values == r.values + Values(extensions) && e.value.fields in cache && e.value.cls == cache[e.value.fields]
      ensures !ValidFieldNames(r.fields + KeysOf(extensions)) ==>
                e.value == Dict(DictFromPairs(Zip(r.fields, r.values) + extensions))
    {
      var pairs := Zip(r.fields, r.values) + extensions;
      KeysOfAppend(Zip(r.fields, r.values), extensions);
      assert KeysOf(Zip(r.fields, r.values)) == r.fields;
      ValuesOfExtended(r.fields, r.values, extensions);
      e := Create(pairs, false);
    }
  }

  function Values(pairs: seq<(string, Obj)>): (vs: seq<Obj>)
    ensures |vs| == |pairs| && forall i :: 0 <= i < |vs| ==> vs[i] == pairs[i].1
  {
    seq(|pairs|, i requires 0 <= i < |pairs| => pairs[i].1)
  }

  lemma ValuesOfExtended(fields: seq<string>, values: seq<Obj>, ext: seq<(string, Obj)>)
    requires |fields| == |values|
    ensures Values(Zip(fields, values) + ext) == values + Values(ext)
  {
    var z := Zip(fields, values) + ext;
    forall i | 0 <= i < |z|
      ensures Values(z)[i] == (values + Values(ext))[i]
    {
      if i < |fields| {
        assert z[i] == (fields[i], values[i]);
      } else {
        assert z[i] == ext[i - |fields|];
      }
    }
  }

  /** Creating twice from the same valid names gives records of one and the same class. */
  method CreateReusesClass(classes: RecordClasses, a: seq<(string, Obj)>, b: seq<(string, Obj)>)
    returns (ra: Result<Obj, string>, rb: Result<Obj, string>)
    requires classes.Valid() && KeysOf(a) == KeysOf(b) && ValidFieldNames(KeysOf(a))
    modifies classes
    ensures ra.Ok? && rb.Ok? && ra.value.Record? && rb.value.Record? && ra.value.cls == rb.value.cls
  {
    ra := classes.Create(a, false);
    rb := classes.Create(b, false);
  }

  /** Records of different field names never share a class. */
  method DifferentNamesDifferentClasses(classes: RecordClasses, a: seq<(string, Obj)>, b: seq<(string, Obj)>)
    returns (ra: Result<Obj, string>, rb: Result<Obj, string>)
    requires classes.Valid() && KeysOf(a) != KeysOf(b) && ValidFieldNames(KeysOf(a)) && ValidFieldNames(KeysOf(b))
    modifies classes
    ensures ra.Ok? && rb.Ok? && ra.value.Record? && rb.value.Record? && ra.value.cls != rb.value.cls
  {
    ra := classes.Create(a, false);
    rb := classes.Create(b, false);
  }

  /** The value the last update of `key` gives it, if any. */
  function LastUpdate(updates: seq<(string, Obj)>, key: string): Option<Obj> {
    if updates == [] then None
    else
      var later := LastUpdate(updates[1..], key);
      if later.Some? then later else if updates[0].0 == key then Some(updates[0].1) else None
  }

  /** The assignments update_copy makes, in order; a name that is no field raises ValueError from tuple.index. */
  function ApplyUpdates(fields: seq<string>, copy: seq<Obj>, updates: seq<(string, Obj)>): (r: Result<seq<Obj>, string>)
    requires |copy| == |fields|
    ensures r.Ok? ==> |r.value| == |fields|
    decreases |updates|
  {
    if updates == [] then Ok(copy)
    else if updates[0].0 !in fields then Err(ValueError)
    else ApplyUpdates(fields, copy[IndexOf(fields, updates[0].0) := updates[0].1], updates[1..])
  }

  /**
   * With distinct fields, the updates succeed exactly when every name is a
   * field, and then every field holds its last update, or its old value.
   */
  lemma {:induction false} ApplyUpdatesMeaning(fields: seq<string>, copy: seq<Obj>, updates: seq<(string, Obj)>)
    requires |copy| == |fields| && Distinct(fields)
    decreases |updates|
    ensures ApplyUpdates(fields, copy, updates).Ok? <==> forall u :: u in updates ==> u.0 in fields
    ensures ApplyUpdates(fields, copy, updates).Ok? ==>
              forall i :: 0 <= i < |fields| ==>
                ApplyUpdates(fields, copy, updates).value[i] == LastUpdate(updates, fields[i]).GetOr(copy[i])
  {
    if updates != [] {
      assert forall u :: u in updates <==> u == updates[0] || u in updates[1..];
      if updates[0].0 in fields {
        var j := IndexOf(fields, updates[0].0);
        ApplyUpdatesMeaning(fields, copy[j := updates[0].1], updates[1..]);
        if ApplyUpdates(fields, copy, updates).Ok? {
          forall i | 0 <= i < |fields|
            ensures ApplyUpdates(fields, copy, updates).value[i] == LastUpdate(updates, fields[i]).GetOr(copy[i])
          {
            if i != j {
              assert fields[i] != updates[0].0 by {
                if i < j { assert fields[i] != fields[j]; } else { assert fields[j] != fields[i]; }
              }
            }
          }
        }
      }
    }
  }

  /**
   * update_copy: the record's values copied into a list, each update
   * written to its field's position, and a record of the same class and
   * fields built from the list. The original record is a value and stays
   * as it is.
   */
  method UpdateCopy(r: Obj, updates: seq<(string, Obj)>) returns (u: Result<Obj, string>)
    requires WellFormed(r)
    ensures ApplyUpdates(r.fields, r.values, updates).Err? ==> u == Err(ValueError)
    ensures ApplyUpdates(r.fields, r.values, updates).Ok? ==>
              u == Ok(Record(r.cls, r.fields, ApplyUpdates(r.fields, r.values, updates).value))
  {
    var copy := r.values;
    var k := 0;
    while k < |updates|
      invariant k <= |updates| && |copy| == |r.fields|
      invariant ApplyUpdates(r.fields, copy, updates[k..]) == ApplyUpdates(r.fields, r.values, updates)
    {
      assert updates[k..][1..] == updates[k + 1..];
      var key := updates[k].0;
      if key !in r.fields {
        return Err(ValueError);
      }
      copy := copy[IndexOf(r.fields, key) := updates[k].1];
      k := k + 1;
    }
    u := Ok(Record(r.cls, r.fields, copy));
  }

  /** Updating no field copies the record unchanged. */
  lemma UpdateNothing(fields: seq<string>, values: seq<Obj>)
    requires |fields| == |values|
    ensures ApplyUpdates(fields, values, []) == Ok(values)
  {
  }

  /** A name the record already has makes the combined names invalid, so extend_copy falls back to a dict. */
  lemma ExtendDuplicateNames(fields: seq<string>, ext: seq<(string, Obj)>, i: nat, j: nat)
    requires i < |ext| && j < |fields| && fields[j] == ext[i].0
    ensures !ValidFieldNames(fields + KeysOf(ext))
  {
    var names := fields + KeysOf(ext);
    assert names[j] == fields[j];
    assert names[|fields| + i] == KeysOf(ext)[i];
    assert !Distinct(names);
  }

  /**
   * Extending the record {a: 1} with a=2: the list fallback is the dict
   * {a: 2}, while the fallback of extend_copy as written is the empty dict.
   */
  lemma ExtendWithDuplicateFallback()
    ensures DictFromPairs([("a", Int(1)), ("a", Int(2))]) == [("a", Int(2))]
    ensures !ValidFieldNames(["a", "a"])
  {
    assert [("a", Int(1)), ("a", Int(2))][..1] == [("a", Int(1))];
    assert ["a", "a"][0] == ["a", "a"][1];
  }
}
