/** pycordia/utils.py: the two helpers that turn an object's attributes into
    a dict and a dict into constructor keyword arguments. An object is seen
    through its `__dict__` (attribute name to value, in assignment order);
    the constructor's parameter names, which the source reads by
    reflection, are an explicit input here. */
module Utils {
  import opened Py
  import opened Json

  /** Attributes whose name starts with "_" are private and never exported. */
  predicate IsPrivate(name: string) {
    StartsWith(name, "_")
  }

  /** The key an attribute is exported under: its alias when `alias` names
      it, its own name otherwise. An absent alias dict (None) and an empty
      one behave alike, so both are the empty `Dict`. */
  function ExportName(alias: Dict<string>, key: string): (n: string)
    ensures HasKey(alias, key) ==> Some(n) == Lookup(alias, key)
    ensures !HasKey(alias, key) ==> n == key
  {
    match Lookup(alias, key)
    case Some(a) => a
    case None => key
  }

  /** A name that does not start with "_" is public. */
  lemma PublicName(name: string)
    requires name != [] && name[0] != '_'
    ensures !IsPrivate(name)
  {
    assert name[..1] == [name[0]];
  }

  /** The dict `obj_to_dict` has built after visiting `attrs` in order. */
  function Exported<V>(attrs: Dict<V>, alias: Dict<string>): Dict<V> {
    if attrs == [] then []
    else
      var init := Exported(attrs[..|attrs| - 1], alias);
      var (k, v) := attrs[|attrs| - 1];
      if IsPrivate(k) then init else Put(init, ExportName(alias, k), v)
  }

  /** `obj_to_dict(obj, alias)`, given `obj.__dict__` as `attrs`. */
  method ObjToDict<V>(attrs: Dict<V>, alias: Dict<string>) returns (newInf: Dict<V>)
    ensures newInf == Exported(attrs, alias)
  {
    newInf := [];
    if attrs != [] {
      for i := 0 to |attrs|
        invariant newInf == Exported(attrs[..i], alias)
      {
        assert attrs[..i + 1][..i] == attrs[..i];
        var (key, value) := attrs[i];
        if !IsPrivate(key) {
          newInf := Put(newInf, ExportName(alias, key), value);
        }
      }
      assert attrs[..|attrs|] == attrs;
    }
  }

  /** Every exported key is the export name of some public attribute: private
      attributes never show up under their own name, and nothing is invented. */
  lemma {:induction false} ExportedKeysFromPublic<V>(attrs: Dict<V>, alias: Dict<string>, n: string)
    requires HasKey(Exported(attrs, alias), n)
    ensures exists i :: 0 <= i < |attrs| && !IsPrivate(attrs[i].0) && ExportName(alias, attrs[i].0) == n
  {
    var init := attrs[..|attrs| - 1];
    var (k, v) := attrs[|attrs| - 1];
    if !IsPrivate(k) && ExportName(alias, k) == n {
      assert attrs[|attrs| - 1].0 == k;
    } else {
      if !IsPrivate(k) {
        assert Lookup(Exported(attrs, alias), n) == Lookup(Exported(init, alias), n);
      }
      ExportedKeysFromPublic(init, alias, n);
      var i :| 0 <= i < |init| && !IsPrivate(init[i].0) && ExportName(alias, init[i].0) == n;
      assert attrs[i] == init[i];
    }
  }

  /** Without aliases, no private name is exported. */
  lemma NoPrivateExported<V>(attrs: Dict<V>, n: string)
    requires IsPrivate(n)
    ensures !HasKey(Exported(attrs, []), n)
  {
    if HasKey(Exported(attrs, []), n) {
      ExportedKeysFromPublic(attrs, [], n);
    }
  }

  /** A public attribute that no later public attribute shadows is exported
      under its export name with its value unchanged. */
  lemma {:induction false} ExportedValue<V>(attrs: Dict<V>, alias: Dict<string>, i: nat)
    requires i < |attrs| && !IsPrivate(attrs[i].0)
    requires forall j :: i < j < |attrs| && !IsPrivate(attrs[j].0) ==>
      ExportName(alias, attrs[j].0) != ExportName(alias, attrs[i].0)
    ensures Lookup(Exported(attrs, alias), ExportName(alias, attrs[i].0)) == Some(attrs[i].1)
  {
    var init := attrs[..|attrs| - 1];
    if i < |attrs| - 1 {
      assert init[i] == attrs[i];
      forall j | i < j < |init| && !IsPrivate(init[j].0)
        ensures ExportName(alias, init[j].0) != ExportName(alias, init[i].0)
      {
        assert init[j] == attrs[j];
      }
      ExportedValue(init, alias, i);
    }
  }

  /** With unique attribute names and no aliases, every public attribute
      keeps its own name and value. */
  lemma PublicKeepsName<V>(attrs: Dict<V>, i: nat)
    requires UniqueKeys(attrs) && i < |attrs| && !IsPrivate(attrs[i].0)
    ensures Lookup(Exported(attrs, []), attrs[i].0) == Some(attrs[i].1)
  {
    ExportedValue(attrs, [], i);
  }

  /** An aliased public attribute appears under its alias, value unchanged,
      when no later attribute is exported under the same name. */
  lemma AliasedKeepsValue<V>(attrs: Dict<V>, alias: Dict<string>, i: nat)
    requires i < |attrs| && !IsPrivate(attrs[i].0) && HasKey(alias, attrs[i].0)
    requires forall j :: i < j < |attrs| && !IsPrivate(attrs[j].0) ==>
      ExportName(alias, attrs[j].0) != ExportName(alias, attrs[i].0)
    ensures Lookup(Exported(attrs, alias), Lookup(alias, attrs[i].0).value) == Some(attrs[i].1)
  {
    ExportedValue(attrs, alias, i);
  }

  /** The public attributes, in order: what `obj_to_dict` keeps when names
      are unique and nothing is aliased. */
  function PublicOnly<V>(attrs: Dict<V>): (r: Dict<V>)
    ensures forall x :: x in r ==> x in attrs && !IsPrivate(x.0)
  {
    if attrs == [] then []
    else
      var init := PublicOnly(attrs[..|attrs| - 1]);
      assert forall x :: x in attrs[..|attrs| - 1] ==> x in attrs;
      if IsPrivate(attrs[|attrs| - 1].0) then init else init + [attrs[|attrs| - 1]]
  }

  /** With unique names and no aliases, `obj_to_dict` is exactly the public
      attributes in assignment order. */
  lemma {:induction false} ExportedDistinct<V>(attrs: Dict<V>)
    requires UniqueKeys(attrs)
    ensures Exported(attrs, []) == PublicOnly(attrs)
  {
    if attrs != [] {
      var init := attrs[..|attrs| - 1];
      var (k, v) := attrs[|attrs| - 1];
      ExportedDistinct(init);
      if !IsPrivate(k) {
        var p := PublicOnly(init);
        forall i | 0 <= i < |p| ensures p[i].0 != k {
          assert p[i] in p;
          var j :| 0 <= j < |init| && init[j] == p[i];
        }
        NoSuchKey(p, k);
        PutNew(p, k, v);
      }
    }
  }

  /** A leading private attribute is dropped and the rest is filtered as
      before. */
  lemma {:induction false} PublicOnlyCons<V>(a: (string, V), rest: Dict<V>)
    ensures PublicOnly([a] + rest) == (if IsPrivate(a.0) then [] else [a]) + PublicOnly(rest)
  {
    if rest != [] {
      var init := rest[..|rest| - 1];
      assert ([a] + rest)[..|[a] + rest| - 1] == [a] + init;
      PublicOnlyCons(a, init);
    } else {
      assert [a][..0] == [];
    }
  }

  /** Attributes that are all public are all kept. */
  lemma {:induction false} PublicOnlyAllPublic<V>(attrs: Dict<V>)
    requires forall i :: 0 <= i < |attrs| ==> !IsPrivate(attrs[i].0)
    ensures PublicOnly(attrs) == attrs
  {
    if attrs != [] {
      var init := attrs[..|attrs| - 1];
      assert forall i :: 0 <= i < |init| ==> init[i] == attrs[i];
      PublicOnlyAllPublic(init);
      assert !IsPrivate(attrs[|attrs| - 1].0);
      assert init + [attrs[|attrs| - 1]] == attrs;
    }
  }

  /** Attributes whose key list is all public are all kept. */
  lemma PublicKeysAllPublic<V>(attrs: Dict<V>, ks: seq<string>)
    requires Keys(attrs) == ks && forall i :: 0 <= i < |ks| ==> !IsPrivate(ks[i])
    ensures PublicOnly(attrs) == attrs
  {
    forall i | 0 <= i < |attrs| ensures !IsPrivate(attrs[i].0) {
      KeysAt(attrs, i);
    }
    PublicOnlyAllPublic(attrs);
  }

  // ---------------------------------------------------------------------
  // obj_from_dict

  /** The keyword arguments `obj_from_dict` has collected after visiting the
      parameters `params` in order. */
  function Kwargs(data: Dict<Json>, params: seq<string>, alias: Dict<string>): Result<Dict<Json>> {
    if params == [] then Ok([])
    else
      var init :- Kwargs(data, params[..|params| - 1], alias);
      var p := params[|params| - 1];
      if HasKey(alias, p) then
        var key := Lookup(alias, p).value;
        (match Lookup(data, key)
         case Some(v) => Ok(Put(init, p, v))
         case None => Err(KeyError(key)))
      else if HasKey(data, p) then Ok(Put(init, p, Lookup(data, p).value))
      else Ok(init)
  }

  /** `obj_from_dict(data, obj, alias)` up to the final call `obj(**new_inf)`:
      the keyword arguments it passes, with `params` the names of `obj`'s
      parameters in signature order. */
  method ObjFromDict(data: Dict<Json>, params: seq<string>, alias: Dict<string>) returns (r: Result<Dict<Json>>)
    ensures r == Kwargs(data, params, alias)
  {
    var newInf: Dict<Json> := [];
    for i := 0 to |params|
      invariant Kwargs(data, params[..i], alias) == Ok(newInf)
    {
      assert params[..i + 1][..i] == params[..i];
      var param := params[i];
      if HasKey(alias, param) {
        var key := Lookup(alias, param).value;
        if !HasKey(data, key) {
          r := Err(KeyError(key));
          assert Kwargs(data, params[..i + 1], alias) == r;
          KwargsErrSticks(data, params, alias, i + 1);
          return;
        }
        newInf := Put(newInf, param, Lookup(data, key).value);
      } else if HasKey(data, param) {
        newInf := Put(newInf, param, Lookup(data, param).value);
      }
    }
    assert params[..|params|] == params;
    r := Ok(newInf);
  }

  /** Once a parameter has raised, the whole call raises the same error. */
  lemma {:induction false} KwargsErrSticks(data: Dict<Json>, params: seq<string>, alias: Dict<string>, k: nat)
    requires k <= |params| && Kwargs(data, params[..k], alias).Err?
    ensures Kwargs(data, params, alias) == Kwargs(data, params[..k], alias)
    decreases |params| - k
  {
    if k < |params| {
      assert params[..k + 1][..k] == params[..k];
      KwargsErrSticks(data, params, alias, k + 1);
    } else {
      assert params[..k] == params;
    }
  }

  /** The call fails exactly when some aliased parameter's alias is missing
      from `data`. */
  lemma {:induction false} KwargsFailsIff(data: Dict<Json>, params: seq<string>, alias: Dict<string>)
    ensures Kwargs(data, params, alias).Err? <==>
      exists i :: 0 <= i < |params| && HasKey(alias, params[i]) && !HasKey(data, Lookup(alias, params[i]).value)
  {
    if params != [] {
      var init := params[..|params| - 1];
      KwargsFailsIff(data, init, alias);
      forall i | 0 <= i < |init| ensures init[i] == params[i] { }
    }
  }

  /** On success only parameters are passed (extra keys of `data` are
      ignored); an aliased parameter gets `data[alias[p]]`, any other one
      `data[p]` when present and nothing when absent. */
  lemma {:induction false} KwargsValues(data: Dict<Json>, params: seq<string>, alias: Dict<string>, n: string)
    requires Kwargs(data, params, alias).Ok?
    ensures HasKey(Kwargs(data, params, alias).value, n) ==> n in params
    ensures n in params && HasKey(alias, n) ==>
      Lookup(Kwargs(data, params, alias).value, n) == Lookup(data, Lookup(alias, n).value)
    ensures n in params && !HasKey(alias, n) ==>
      Lookup(Kwargs(data, params, alias).value, n) == Lookup(data, n)
  {
    if params != [] {
      var init := params[..|params| - 1];
      var p := params[|params| - 1];
      assert params == init + [p];
      KwargsValues(data, init, alias, n);
      var r := Kwargs(data, params, alias).value;
      var r0 := Kwargs(data, init, alias).value;
      if n != p {
        assert Lookup(r, n) == Lookup(r0, n);
        assert HasKey(r, n) ==> HasKey(r0, n);
        assert n in init ==> n in params;
      }
    }
  }
}
