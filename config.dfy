/** The configuration store: a nested dictionary addressed by dotted keys,
    with recursive merging of an override document into the defaults. */
module Config {
  import opened Models

  /** A configuration value: a scalar or a nested dictionary. */
  datatype Value = Num(r: real) | Bool(b: bool) | Str(s: string) | Dict(entries: map<string, Value>)

  /** `key.split('.')`: never empty, and no component holds a dot. */
  function SplitDots(key: string): (r: seq<string>)
    ensures |r| >= 1
    ensures forall i :: 0 <= i < |r| ==> '.' !in r[i]
  {
    if key == [] then [""]
    else
      var rest := SplitDots(key[1..]);
      if key[0] == '.' then [""] + rest
      else [[key[0]] + rest[0]] + rest[1..]
  }

  /** The components joined back with dots. */
  function JoinDots(parts: seq<string>): string
    requires |parts| >= 1
  {
    if |parts| == 1 then parts[0] else parts[0] + "." + JoinDots(parts[1..])
  }

  /** Splitting loses nothing: joining the components gives the key back. */
  lemma {:induction false} JoinSplitDots(key: string)
    ensures JoinDots(SplitDots(key)) == key
  {
    if key != [] {
      var rest := SplitDots(key[1..]);
      JoinSplitDots(key[1..]);
      if key[0] == '.' {
        assert SplitDots(key)[1..] == rest;
        assert key == "." + key[1..];
      } else if |rest| == 1 {
        assert key == [key[0]] + rest[0];
      } else {
        assert SplitDots(key)[1..] == rest[1..];
        assert JoinDots(rest) == rest[0] + "." + JoinDots(rest[1..]);
        assert key == [key[0]] + key[1..];
      }
    }
  }

  /** The value reached by walking the path from `v`, descending only into
      dictionaries; None when a component is missing or a non-dictionary is met. */
  function Lookup(v: Value, path: seq<string>): Option<Value>
  {
    if path == [] then Some(v)
    else match v
      case Dict(m) => if path[0] in m then Lookup(m[path[0]], path[1..]) else None
      case _ => None
  }

  /** The walk fails exactly when, at some step, the value reached so far is not
      a dictionary holding the next component. */
  lemma {:induction false} LookupNoneIff(v: Value, path: seq<string>)
    ensures Lookup(v, path).None? <==>
      exists i :: 0 <= i < |path| && Lookup(v, path[..i]).Some? &&
        !(Lookup(v, path[..i]).value.Dict? && path[i] in Lookup(v, path[..i]).value.entries)
  {
    if path != [] {
      assert path[..0] == [];
      if v.Dict? && path[0] in v.entries {
        var w := v.entries[path[0]];
        LookupNoneIff(w, path[1..]);
        forall i | 1 <= i <= |path|
          ensures Lookup(v, path[..i]) == Lookup(w, path[1..][..i - 1])
        {
          assert path[..i][0] == path[0] && path[..i][1..] == path[1..][..i - 1];
        }
        if Lookup(v, path).None? {
          var j :| 0 <= j < |path[1..]| && Lookup(w, path[1..][..j]).Some? &&
            !(Lookup(w, path[1..][..j]).value.Dict? && path[1..][j] in Lookup(w, path[1..][..j]).value.entries);
          assert Lookup(v, path[..j + 1]) == Lookup(w, path[1..][..j]);
        } else {
          forall i | 0 <= i < |path| && Lookup(v, path[..i]).Some?
            ensures Lookup(v, path[..i]).value.Dict? && path[i] in Lookup(v, path[..i]).value.entries
          {
            if i > 0 {
              assert path[1..][i - 1] == path[i];
            }
          }
        }
      }
    }
  }

  /** `set`'s effect on the top-level dictionary: walk the path, creating an
      empty dictionary for every missing intermediate component, and bind the
      last component. None when an existing intermediate value is not a
      dictionary, where the source raises and changes nothing. */
  function Assign(m: map<string, Value>, path: seq<string>, v: Value): Option<map<string, Value>>
    requires |path| >= 1
    decreases |path|
  {
    if |path| == 1 then Some(m[path[0] := v])
    else
      var next := if path[0] in m then m[path[0]] else Dict(map[]);
      match next
      case Dict(sub) =>
        (match Assign(sub, path[1..], v)
         case Some(sub') => Some(m[path[0] := Dict(sub')])
         case None => None)
      case _ => None
  }

  /** `set` succeeds exactly when every intermediate prefix of the path that
      already exists is a dictionary. */
  lemma {:induction false} AssignSucceedsIff(m: map<string, Value>, path: seq<string>, v: Value)
    requires |path| >= 1
    ensures Assign(m, path, v).Some? <==>
      forall i :: 1 <= i < |path| && Lookup(Dict(m), path[..i]).Some? ==> Lookup(Dict(m), path[..i]).value.Dict?
    decreases |path|
  {
    if |path| > 1 {
      var rest := path[1..];
      forall i | 1 <= i <= |path|
        ensures Lookup(Dict(m), path[..i]) == if path[0] in m then Lookup(m[path[0]], rest[..i - 1]) else None
      {
        assert path[..i][0] == path[0] && path[..i][1..] == rest[..i - 1];
      }
      if path[0] !in m {
        AssignSucceedsIff(map[], rest, v);
        forall j | 1 <= j < |rest| ensures Lookup(Dict(map[]), rest[..j]) == None {
          var empty: map<string, Value> := map[];
          assert rest[..j][0] !in empty;
        }
      } else if m[path[0]].Dict? {
        var sub := m[path[0]].entries;
        AssignSucceedsIff(sub, rest, v);
        assert Lookup(Dict(m), path[..1]) == Some(Dict(sub)) by { assert rest[..0] == []; }
        if Assign(m, path, v).Some? {
          forall i | 1 <= i < |path| && Lookup(Dict(m), path[..i]).Some?
            ensures Lookup(Dict(m), path[..i]).value.Dict?
          {
            if i > 1 {
              assert Lookup(Dict(m), path[..i]) == Lookup(Dict(sub), rest[..i - 1]);
            }
          }
        } else {
          var j :| 1 <= j < |rest| && Lookup(Dict(sub), rest[..j]).Some? && !Lookup(Dict(sub), rest[..j]).value.Dict?;
          assert Lookup(Dict(m), path[..j + 1]) == Lookup(Dict(sub), rest[..j]);
        }
      } else {
        assert Lookup(Dict(m), path[..1]) == Some(m[path[0]]);
      }
    }
  }

  /** After a successful `set`, `get` of the same key returns the value stored. */
  lemma {:induction false} LookupAfterAssign(m: map<string, Value>, path: seq<string>, v: Value)
    requires |path| >= 1 && Assign(m, path, v).Some?
    ensures Lookup(Dict(Assign(m, path, v).value), path) == Some(v)
    decreases |path|
  {
    if |path| > 1 {
      var next := if path[0] in m then m[path[0]] else Dict(map[]);
      LookupAfterAssign(next.entries, path[1..], v);
    }
  }

  /** `set` creates nothing beyond its path: a path that parts from the key
      at some component looks up the same before and after. */
  lemma {:induction false} AssignKeepsOtherPaths(m: map<string, Value>, path: seq<string>, v: Value,
                                                 other: seq<string>, i: nat)
    requires |path| >= 1 && Assign(m, path, v).Some?
    requires i < |path| && i < |other| && other[..i] == path[..i] && other[i] != path[i]
    ensures Lookup(Dict(Assign(m, path, v).value), other) == Lookup(Dict(m), other)
    decreases i
  {
    var m' := Assign(m, path, v).value;
    if i > 0 {
      assert other[0] == path[0];
      var next := if path[0] in m then m[path[0]] else Dict(map[]);
      var sub' := Assign(next.entries, path[1..], v).value;
      assert m'[path[0]] == Dict(sub');
      AssignKeepsOtherPaths(next.entries, path[1..], v, other[1..], i - 1);
      if path[0] !in m {
        assert Lookup(Dict(map[]), other[1..]) == None by {
          assert other[1..] != [];
        }
      }
    }
  }

  /** After a successful `set` every intermediate component of the key holds
      a dictionary; one that was missing holds a fresh dictionary whose only
      key is the next component. */
  lemma {:induction false} AssignMakesIntermediateDicts(m: map<string, Value>, path: seq<string>, v: Value, i: nat)
    requires |path| >= 1 && Assign(m, path, v).Some? && 1 <= i < |path|
    ensures Lookup(Dict(Assign(m, path, v).value), path[..i]).Some?
    ensures Lookup(Dict(Assign(m, path, v).value), path[..i]).value.Dict?
    ensures Lookup(Dict(m), path[..i]).None? ==>
      Lookup(Dict(Assign(m, path, v).value), path[..i]).value.entries.Keys == {path[i]}
    decreases i
  {
    var next := if path[0] in m then m[path[0]] else Dict(map[]);
    var sub' := Assign(next.entries, path[1..], v).value;
    assert path[..i][0] == path[0] && path[..i][1..] == path[1..][..i - 1];
    AssignKeepsSiblings(next.entries, path[1..], v);
    if i > 1 {
      AssignMakesIntermediateDicts(next.entries, path[1..], v, i - 1);
    } else {
      assert path[1..][..0] == [] && path[1..][0] == path[1];
      assert Lookup(Dict(Assign(m, path, v).value), path[..1]) == Some(Dict(sub'));
      if path[0] !in m {
        assert Lookup(Dict(m), path[..1]).None?;
        assert sub'.Keys == {path[1]};
      } else {
        assert Lookup(Dict(m), path[..1]) == Some(m[path[0]]);
      }
    }
  }

  /** `set` leaves every other top-level key alone and adds only the first component. */
  lemma AssignKeepsSiblings(m: map<string, Value>, path: seq<string>, v: Value)
    requires |path| >= 1 && Assign(m, path, v).Some?
    ensures Assign(m, path, v).value.Keys == m.Keys + {path[0]}
    ensures forall k :: k in m && k != path[0] ==> Assign(m, path, v).value[k] == m[k]
  {
  }

  /** `_deep_merge`'s result: a key of the override replaces the base value,
      unless both are dictionaries, which are merged recursively; a base key
      the override lacks is kept. */
  function Merged(base: map<string, Value>, override: map<string, Value>): (r: map<string, Value>)
    decreases Dict(override)
    ensures r.Keys == base.Keys + override.Keys
    ensures forall k :: k in base && k !in override ==> r[k] == base[k]
    ensures forall k :: k in override && !(k in base && base[k].Dict? && override[k].Dict?) ==> r[k] == override[k]
    ensures forall k :: k in override && k in base && base[k].Dict? && override[k].Dict? ==> r[k].Dict?
  {
    map k | k in base.Keys + override.Keys ::
      if k in override then
        if k in base && base[k].Dict? && override[k].Dict? then
          Dict(Merged(base[k].entries, override[k].entries))
        else override[k]
      else base[k]
  }

  /** Every scalar of the override document ends up at its path in the merge. */
  lemma {:induction false} MergedKeepsOverrideScalar(base: map<string, Value>, override: map<string, Value>,
                                                     path: seq<string>)
    requires Lookup(Dict(override), path).Some? && !Lookup(Dict(override), path).value.Dict?
    ensures Lookup(Dict(Merged(base, override)), path) == Lookup(Dict(override), path)
    decreases |path|
  {
    var k := path[0];
    var r := Merged(base, override);
    if k in base && base[k].Dict? && override[k].Dict? {
      MergedKeepsOverrideScalar(base[k].entries, override[k].entries, path[1..]);
    }
  }

  /** A base value survives the merge when the override binds nothing along
      its path except dictionaries. */
  lemma {:induction false} MergedKeepsBaseValue(base: map<string, Value>, override: map<string, Value>,
                                                path: seq<string>)
    requires Lookup(Dict(base), path).Some? && path != []
    requires Lookup(Dict(override), path).None?
    requires forall i :: 1 <= i < |path| && Lookup(Dict(override), path[..i]).Some? ==>
      Lookup(Dict(override), path[..i]).value.Dict?
    ensures Lookup(Dict(Merged(base, override)), path) == Lookup(Dict(base), path)
    decreases |path|
  {
    var k := path[0];
    if k in override {
      assert Lookup(Dict(override), path[..1]) == Some(override[k]) by {
        assert path[..1][1..] == [];
      }
      forall i | 1 <= i < |path[1..]| && Lookup(override[k], path[1..][..i]).Some?
        ensures Lookup(override[k], path[1..][..i]).value.Dict?
      {
        assert path[..i + 1][0] == k && path[..i + 1][1..] == path[1..][..i];
        assert Lookup(Dict(override), path[..i + 1]) == Lookup(override[k], path[1..][..i]);
      }
      MergedKeepsBaseValue(base[k].entries, override[k].entries, path[1..]);
    }
  }

  /** The configuration manager: the loaded document, rewritten in place. */
  class Config {
    var data: map<string, Value>

    constructor (data: map<string, Value>)
      ensures this.data == data
    {
      this.data := data;
    }

    /** `get`: walk the dotted key one component at a time; the default when
        a component is missing or the walk meets a non-dictionary. */
    method Get(key: string, default: Value) returns (r: Value)
      ensures Lookup(Dict(data), SplitDots(key)).Some? ==> r == Lookup(Dict(data), SplitDots(key)).value
      ensures Lookup(Dict(data), SplitDots(key)).None? ==> r == default
    {
      var keys := SplitDots(key);
      var value := Dict(data);
      for i := 0 to |keys|
        invariant Lookup(Dict(data), keys) == Lookup(value, keys[i..])
      {
        if value.Dict? && keys[i] in value.entries {
          value := value.entries[keys[i]];
        } else {
          return default;
        }
      }
      return value;
    }

    /** `get_section`: `get` with an empty dictionary as the default. */
    method GetSection(section: string) returns (r: Value)
      ensures Lookup(Dict(data), SplitDots(section)).None? ==> r == Dict(map[])
      ensures Lookup(Dict(data), SplitDots(section)).Some? ==> r == Lookup(Dict(data), SplitDots(section)).value
    {
      r := Get(section, Dict(map[]));
    }

    /** `set`: bind the dotted key, creating intermediate dictionaries; `ok` is
        false, and nothing changes, where the source raises on a non-dictionary. */
    method Set(key: string, v: Value) returns (ok: bool)
      modifies this
      ensures ok == Assign(old(data), SplitDots(key), v).Some?
      ensures ok ==> data == Assign(old(data), SplitDots(key), v).value
      ensures ok ==> Lookup(Dict(data), SplitDots(key)) == Some(v)
      ensures !ok ==> data == old(data)
    {
      var r := Assign(data, SplitDots(key), v);
      ok := r.Some?;
      if ok {
        LookupAfterAssign(data, SplitDots(key), v);
        data := r.value;
      }
    }

    /** `_deep_merge(self._config, override)`, as the loader applies a custom file. */
    method MergeOverride(override: map<string, Value>)
      modifies this
      ensures data == Merged(old(data), override)
    {
      data := DeepMerge(data, override);
    }
  }

  /** The recursive merge as the source runs it: one pass over the override's
      keys, descending where both sides hold dictionaries. */
  method DeepMerge(base: map<string, Value>, override: map<string, Value>) returns (r: map<string, Value>)
    decreases Dict(override)
    ensures r == Merged(base, override)
  {
    r := base;
    var todo := override.Keys;
    while todo != {}
      invariant todo <= override.Keys
      invariant r.Keys == base.Keys + (override.Keys - todo)
      invariant forall k :: k in r ==> r[k] == if k in override && k !in todo then Merged(base, override)[k] else base[k]
      decreases todo
    {
      var k :| k in todo;
      if k in r && r[k].Dict? && override[k].Dict? {
        var sub := DeepMerge(r[k].entries, override[k].entries);
        r := r[k := Dict(sub)];
      } else {
        r := r[k := override[k]];
      }
      todo := todo - {k};
    }
  }
}
