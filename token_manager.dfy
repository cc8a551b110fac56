/**
 * TokenManger: remembers the token last seen on each input and hands out a
 * new token on every output once an unseen input token has been acted on;
 * the tokens persist in '<directory>/<name>.tokens'.
 *
 * Python dicts keep insertion order, which decides the order outputs are
 * announced in, so a dict is its key order plus a map.
 */
module TokenManagers {
  import opened Wrappers
  import opened PyPath
  import opened PySeq

  /**
   * A token: a uuid.UUID drawn by a UUID manager, or the string name a
   * constant manager hands out. Only strings can be packed into a token file.
   */
  datatype Token = Uuid(id: nat) | Name(text: string)

  /** An insertion-ordered dict from names to optional tokens. */
  datatype Dict = Dict(keys: seq<string>, values: map<string, Option<Token>>) {
    predicate Valid() {
      Distinct(keys) && values.Keys == set k | k in keys
    }
  }

  /** The keys of `ks` in first-occurrence order. */
  function Dedup(ks: seq<string>): (r: seq<string>)
    ensures forall k :: k in r <==> k in ks
    ensures forall i, j :: 0 <= i < j < |r| ==> r[i] != r[j]
  {
    if ks == [] then []
    else
      var init := Dedup(ks[..|ks| - 1]);
      assert forall k :: k in ks <==> k in ks[..|ks| - 1] || k == ks[|ks| - 1];
      if ks[|ks| - 1] in init then init else init + [ks[|ks| - 1]]
  }

  /** A dict that maps every key to None. */
  function NoneDict(ks: seq<string>): (d: Dict)
    ensures d.Valid() && (forall k :: k in d.values ==> d.values[k].None?)
  {
    Dict(Dedup(ks), map k | k in ks :: None)
  }

  /** The keys of `b` missing from `a`, in `b`'s order. */
  function NewKeys(a: map<string, Option<Token>>, b: seq<string>): (r: seq<string>)
    requires Distinct(b)
    ensures forall k :: k in r <==> k in b && k !in a
    ensures Distinct(r)
  {
    if b == [] then []
    else
      var init := NewKeys(a, b[..|b| - 1]);
      assert forall k :: k in b <==> k in b[..|b| - 1] || k == b[|b| - 1];
      if b[|b| - 1] in a then init else init + [b[|b| - 1]]
  }

  /** dict.update: values of `b` win; keys new to `a` are appended in `b`'s order. */
  function Update(a: Dict, b: Dict): (r: Dict)
    requires a.Valid() && b.Valid()
    ensures r.Valid()
    ensures r.values == a.values + b.values
    ensures |r.keys| >= |a.keys| && r.keys[..|a.keys|] == a.keys
  {
    var extra := NewKeys(a.values, b.keys);
    DistinctAppend(a.keys, extra);
    var r := Dict(a.keys + extra, a.values + b.values);
    assert (a.keys + extra)[..|a.keys|] == a.keys;
    r
  }

  /** No key of `b` is new when all of them are already in `a`. */
  lemma {:induction false} NewKeysAllKnown(a: map<string, Option<Token>>, b: seq<string>)
    requires Distinct(b) && forall k :: k in b ==> k in a
    ensures NewKeys(a, b) == []
  {
    if b != [] {
      assert b[|b| - 1] in b;
      assert forall k :: k in b[..|b| - 1] ==> k in b;
      NewKeysAllKnown(a, b[..|b| - 1]);
    }
  }

  /**
   * Updating a dict from one with the same keys keeps the key order and
   * takes every value from the update; in particular a dict updated with
   * itself is unchanged.
   */
  lemma UpdateSameKeys(a: Dict, b: Dict)
    requires a.Valid() && b.Valid()
    requires a.values.Keys == b.values.Keys
    ensures Update(a, b) == Dict(a.keys, b.values)
  {
    var extra := NewKeys(a.values, b.keys);
    assert forall k :: k in b.keys ==> k in b.values.Keys;
    NewKeysAllKnown(a.values, b.keys);
    assert a.keys + extra == a.keys;
  }

  /** What save_to_file writes. */
  datatype SavedTokens = SavedTokens(inputs: Dict, outputs: Dict, version: int)

  const TokenFileVersion: int := 1

  /** msgpack with strict types has no encoding for a UUID; the default hook returns it unchanged. */
  const UnpackableTokenError := "TypeError: can not serialize 'UUID' object"

  /** A dict msgpack can write: it holds no UUID token. */
  predicate Packable(d: Dict) {
    forall k :: k in d.values && d.values[k].Some? ==> d.values[k].value.Name?
  }

  /** Where each kind of manager gets its tokens from. */
  datatype TokenSource = UuidTokens | ConstantTokens

  /** The path of the token file: `<directory>/<name>.tokens`. */
  function TokenFilePath(directory: string, name: string): (p: string)
    ensures |p| >= |name| + 7 && p[|p| - 7..] == ".tokens"
  {
    var p := Join(directory, name + ".tokens");
    assert (name + ".tokens")[|name|..] == ".tokens";
    if name + ".tokens" != [] && (name + ".tokens")[0] == '/' then p
    else
      assert p[|p| - |name + ".tokens"|..] == name + ".tokens";
      assert p[|p| - 7..] == (name + ".tokens")[|name|..];
      p
  }

  class TokenManager {
    const name: string
    const source: TokenSource
    var inputs: Dict
    var outputs: Dict
    /** The act_on_new_output_token calls, oldest first. */
    var announced: seq<(string, Token)>

    predicate Valid()
      reads this
    {
      inputs.Valid() && outputs.Valid()
    }

    /** Every input key and every output key starts out with no token. */
    constructor (name: string, source: TokenSource, inputKeys: seq<string>, outputKeys: seq<string>)
      ensures Valid() && this.name == name && this.source == source
      ensures inputs == NoneDict(inputKeys) && outputs == NoneDict(outputKeys) && announced == []
    {
      this.name := name;
      this.source := source;
      inputs := NoneDict(inputKeys);
      outputs := NoneDict(outputKeys);
      announced := [];
    }

    /** generate_token: the k-th token a UUID manager draws, or the manager's name. */
    function GenerateToken(uuids: nat -> nat, k: nat): Token
    {
      match source
      case UuidTokens => Uuid(uuids(k))
      case ConstantTokens => Name(name)
    }

    /**
     * acted_on_input_token: every output, in dict order, is announced with a
     * newly generated token and then holds it; the set of outputs stays.
     */
    method ActedOnInputToken(uuids: nat -> nat)
      requires Valid()
      modifies this`outputs, this`announced
      ensures Valid() && outputs.keys == old(outputs.keys) && outputs.values.Keys == old(outputs.values.Keys)
      ensures forall i :: 0 <= i < |outputs.keys| ==> outputs.values[outputs.keys[i]] == Some(GenerateToken(uuids, i))
      ensures |announced| == |old(announced)| + |outputs.keys| && announced[..|old(announced)|] == old(announced)
      ensures forall i :: 0 <= i < |outputs.keys| ==>
                announced[|old(announced)| + i] == (outputs.keys[i], GenerateToken(uuids, i))
      ensures Packable(outputs) <==> outputs.keys == [] || source == ConstantTokens
    {
      var keys := outputs.keys;
      var i := 0;
      while i < |keys|
        invariant i <= |keys| && outputs.keys == keys && outputs.Valid()
        invariant outputs.values.Keys == old(outputs.values.Keys)
        invariant forall j :: 0 <= j < i ==> outputs.values[keys[j]] == Some(GenerateToken(uuids, j))
        invariant |announced| == |old(announced)| + i && announced[..|old(announced)|] == old(announced)
        invariant forall j :: 0 <= j < i ==> announced[|old(announced)| + j] == (keys[j], GenerateToken(uuids, j))
      {
        var token := GenerateToken(uuids, i);
        announced := announced + [(keys[i], token)];
        outputs := outputs.(values := outputs.values[keys[i] := Some(token)]);
        i := i + 1;
      }
      if keys != [] && source == UuidTokens {
        assert outputs.values[keys[0]] == Some(Uuid(uuids(0)));
      }
      if source == ConstantTokens {
        forall k | k in outputs.values && outputs.values[k].Some?
          ensures outputs.values[k].value.Name?
        {
          var j :| 0 <= j < |keys| && keys[j] == k;
        }
      }
    }

    /**
     * on_input_token: an unknown input raises KeyError; the token already
     * stored for the input does nothing; any other token is acted on. The
     * stored input tokens are never updated here.
     */
    method OnInputToken(input: string, token: Token, uuids: nat -> nat) returns (raised: bool, acted: bool)
      requires Valid()
      modifies this`outputs, this`announced
      ensures Valid() && inputs == old(inputs)
      ensures raised <==> input !in inputs.values
      ensures acted <==> input in inputs.values && inputs.values[input] != Some(token)
      ensures !acted ==> outputs == old(outputs) && announced == old(announced)
      ensures acted ==> outputs.keys == old(outputs.keys) &&
                        forall i :: 0 <= i < |outputs.keys| ==> outputs.values[outputs.keys[i]] == Some(GenerateToken(uuids, i))
      ensures acted ==> |announced| == |old(announced)| + |outputs.keys| && announced[..|old(announced)|] == old(announced)
      ensures acted ==> forall i :: 0 <= i < |outputs.keys| ==>
                          announced[|old(announced)| + i] == (outputs.keys[i], GenerateToken(uuids, i))
    {
      if input !in inputs.values {
        return true, false;
      }
      raised := false;
      if inputs.values[input] == Some(token) {
        return raised, false;
      }
      ActedOnInputToken(uuids);
      acted := true;
    }

    /**
     * save_to_file: the inputs, the outputs and the file version, at the
     * manager's path; a UUID token in either dict raises TypeError.
     */
    method SaveToFile(directory: string, files: map<string, SavedTokens>)
      returns (r: Result<map<string, SavedTokens>, string>)
      ensures r.Ok? <==> Packable(inputs) && Packable(outputs)
      ensures r.Ok? ==> r.value == files[TokenFilePath(directory, name) := SavedTokens(inputs, outputs, TokenFileVersion)]
      ensures r.Err? ==> r.error == UnpackableTokenError
    {
      if !Packable(inputs) || !Packable(outputs) {
        return Err(UnpackableTokenError);
      }
      r := Ok(files[TokenFilePath(directory, name) := SavedTokens(inputs, outputs, TokenFileVersion)]);
    }

    /**
     * update_from_file: a missing file or a saved version other than 1
     * changes nothing; otherwise both dicts are updated from the saved ones.
     */
    method UpdateFromFile(directory: string, files: map<string, SavedTokens>)
      requires Valid()
      requires forall p :: p in files ==> files[p].inputs.Valid() && files[p].outputs.Valid()
      modifies this`inputs, this`outputs
      ensures Valid()
      ensures var p := TokenFilePath(directory, name);
              if p in files && files[p].version == TokenFileVersion then
                inputs == Update(old(inputs), files[p].inputs) && outputs == Update(old(outputs), files[p].outputs)
              else inputs == old(inputs) && outputs == old(outputs)
    {
      var p := TokenFilePath(directory, name);
      if p !in files {
        return;
      }
      var loaded := files[p];
      if loaded.version != TokenFileVersion {
        return;
      }
      inputs := Update(inputs, loaded.inputs);
      outputs := Update(outputs, loaded.outputs);
    }
  }

  /**
   * Saving and then updating from the same directory restores the saved
   * tokens, also after the outputs have been replaced in between. The save
   * succeeds exactly when no UUID token is held; when it raises, nothing
   * after it runs.
   */
  method SaveThenUpdate(tm: TokenManager, directory: string, files: map<string, SavedTokens>, uuids: nat -> nat)
    returns (saved: Result<map<string, SavedTokens>, string>)
    requires tm.Valid()
    requires forall p :: p in files ==> files[p].inputs.Valid() && files[p].outputs.Valid()
    modifies tm`inputs, tm`outputs, tm`announced
    ensures saved.Ok? <==> Packable(old(tm.inputs)) && Packable(old(tm.outputs))
    ensures tm.inputs == old(tm.inputs) && tm.outputs == old(tm.outputs)
  {
    saved := tm.SaveToFile(directory, files);
    if saved.Err? {
      return;
    }
    tm.ActedOnInputToken(uuids);
    UpdateSameKeys(old(tm.outputs), old(tm.outputs));
    UpdateSameKeys(tm.outputs, old(tm.outputs));
    UpdateSameKeys(tm.inputs, tm.inputs);
    tm.UpdateFromFile(directory, saved.value);
  }

  /**
   * A UUID manager that has acted on an input token cannot save its tokens
   * any more, while a constant manager's own tokens always pack, so its save
   * succeeds whenever the input tokens it loaded do.
   */
  method ActThenSave(tm: TokenManager, directory: string, files: map<string, SavedTokens>, uuids: nat -> nat)
    returns (saved: Result<map<string, SavedTokens>, string>)
    requires tm.Valid()
    modifies tm`outputs, tm`announced
    ensures tm.source == UuidTokens && tm.outputs.keys != [] ==> saved == Err(UnpackableTokenError)
    ensures tm.source == ConstantTokens ==> (saved.Ok? <==> Packable(tm.inputs))
  {
    tm.ActedOnInputToken(uuids);
    saved := tm.SaveToFile(directory, files);
  }

  /** A constant manager gives every output its own name as token. */
  lemma ConstantManagerTokens(tm: TokenManager, uuids: nat -> nat, k: nat)
    requires tm.source == ConstantTokens
    ensures tm.GenerateToken(uuids, k) == Name(tm.name)
  {
  }
}
