/** The configuration store of the camera manager (src/utils/Camera.py):
    defaults merged under the stored file, dotted-path reads, and dotted-path
    writes that create missing levels as they go. The configuration is a JSON
    object; writes mutate it in place, so a write that fails half-way keeps
    whatever it changed before failing. */
module CameraConfig {
  import opened Wrappers
  import opened JsonValue
  import Strings

  /** `DEFAULT_CONFIG`. */
  const Default: map<string, Json> :=
    map["camera_index" := JInt(0), "frame_width" := JInt(640), "frame_height" := JInt(480), "fps" := JInt(30)]

  /** `_merge_configs(default, custom)`: every key of either side; a key both
      sides hold as objects is merged recursively, any other key of `custom`
      replaces the default. */
  function MergeConfigs(default: map<string, Json>, custom: map<string, Json>): (r: map<string, Json>)
    ensures r.Keys == default.Keys + custom.Keys
    ensures forall k :: k in default && k !in custom ==> r[k] == default[k]
    ensures forall k :: k in custom && !(k in default && default[k].JObj? && custom[k].JObj?) ==> r[k] == custom[k]
    ensures forall k :: k in custom && k in default && default[k].JObj? && custom[k].JObj? ==>
              r[k] == JObj(MergeConfigs(default[k].fields, custom[k].fields))
    decreases JObj(custom)
  {
    map k | k in default.Keys + custom.Keys ::
      if k !in custom then default[k]
      else if k in default && default[k].JObj? && custom[k].JObj? then
        JObj(MergeConfigs(default[k].fields, custom[k].fields))
      else custom[k]
  }

  /** Merging a configuration under itself changes nothing. */
  lemma {:induction false} MergeSelf(c: map<string, Json>)
    ensures MergeConfigs(c, c) == c
    decreases JObj(c)
  {
    var r := MergeConfigs(c, c);
    forall k | k in c ensures r[k] == c[k] {
      if c[k].JObj? {
        MergeSelf(c[k].fields);
      }
    }
  }

  /** Merging nothing over the defaults gives the defaults. */
  lemma MergeEmpty(default: map<string, Json>)
    ensures MergeConfigs(default, map[]) == default
  {
  }

  /** The state of `camera_config.json` when the manager starts. */
  datatype Stored = Missing | Unparsable | Parsed(value: Json)

  /** `_load_config`: a missing file or one `json.loads` rejects gives the
      defaults; a parsed object is merged over them; any other parsed value
      makes `.items()` raise, which also gives the defaults. */
  function LoadConfig(stored: Stored): (r: map<string, Json>)
    ensures Default.Keys <= r.Keys
    ensures !(stored.Parsed? && stored.value.JObj?) ==> r == Default
    ensures stored.Parsed? && stored.value.JObj? ==> r.Keys == Default.Keys + stored.value.fields.Keys
    // every stored key wins (no default is an object), every other default stays
    ensures stored.Parsed? && stored.value.JObj? ==>
              forall k :: k in r ==> r[k] == if k in stored.value.fields then stored.value.fields[k] else Default[k]
  {
    match stored
    case Parsed(JObj(custom)) => MergeOverDefault(custom); MergeConfigs(Default, custom)
    case _ => Default
  }

  /** No default is an object, so merging over the defaults is a plain
      override: every stored key wins and every other default stays. */
  lemma MergeOverDefault(custom: map<string, Json>)
    ensures forall k :: k in MergeConfigs(Default, custom) ==>
              MergeConfigs(Default, custom)[k] == if k in custom then custom[k] else Default[k]
  {
    assert forall k :: k in Default ==> !Default[k].JObj?;
  }

  /** The value at `keys` below `j`: each step needs an object holding the key;
      anything else is the `KeyError` or `TypeError` `get_config` catches. */
  function Lookup(j: Json, keys: seq<string>): (r: Option<Json>)
    ensures |keys| == 0 ==> r == Some(j)
    ensures |keys| > 0 && !(j.JObj? && keys[0] in j.fields) ==> r == None
    decreases |keys|
  {
    if |keys| == 0 then Some(j)
    else if j.JObj? && keys[0] in j.fields then Lookup(j.fields[keys[0]], keys[1..])
    else None
  }

  /** A lookup along `a + b` is a lookup along `a`, then along `b`. */
  lemma {:induction false} LookupAppend(j: Json, a: seq<string>, b: seq<string>)
    ensures Lookup(j, a + b) == match Lookup(j, a) case None => None case Some(v) => Lookup(v, b)
    decreases |a|
  {
    if |a| == 0 {
      assert a + b == b;
    } else if j.JObj? && a[0] in j.fields {
      assert (a + b)[0] == a[0];
      assert (a + b)[1..] == a[1..] + b;
      LookupAppend(j.fields[a[0]], a[1..], b);
    }
  }

  /** Every non-object value the stored file holds at some path is what the
      merged configuration holds there: defaults fill gaps, never override. */
  lemma {:induction false} MergeKeepsCustomLeaves(d: map<string, Json>, c: map<string, Json>, keys: seq<string>)
    requires Lookup(JObj(c), keys).Some? && !Lookup(JObj(c), keys).value.JObj?
    ensures Lookup(JObj(MergeConfigs(d, c)), keys) == Lookup(JObj(c), keys)
    decreases |keys|
  {
    var k := keys[0];
    var r := MergeConfigs(d, c);
    if k in d && d[k].JObj? && c[k].JObj? {
      MergeKeepsCustomLeaves(d[k].fields, c[k].fields, keys[1..]);
    } else {
      assert r[k] == c[k];
    }
  }

  /** `get_config(path, default)`. */
  function GetConfig(config: map<string, Json>, path: string, default: Json): (r: Json)
    ensures Lookup(JObj(config), Strings.Split(path, '.')).None? ==> r == default
    ensures Lookup(JObj(config), Strings.Split(path, '.')).Some? ==>
              r == Lookup(JObj(config), Strings.Split(path, '.')).value
  {
    Lookup(JObj(config), Strings.Split(path, '.')).GetOr(default)
  }

  /** The loop and the final store of `update_config` on the dict `m`:
      `setdefault` each of `parts`, then set `last`. A level that exists but is
      not an object makes the next `setdefault` or the final store raise.
      Returns the dict as mutated so far and whether the store happened. */
  function Assign(m: map<string, Json>, parts: seq<string>, last: string, value: Json): (r: (map<string, Json>, bool))
    // without intermediate levels the store always happens
    ensures |parts| == 0 ==> r == (m[last := value], true)
    // an existing first level that is not an object stops the write at once
    ensures |parts| > 0 && parts[0] in m && !m[parts[0]].JObj? ==> r == (m, false)
    decreases |parts|
  {
    if |parts| == 0 then (m[last := value], true)
    else
      var child := if parts[0] in m then m[parts[0]] else JObj(map[]);
      if !child.JObj? then (m, false)
      else
        var inner := Assign(child.fields, parts[1..], last, value);
        (m[parts[0] := JObj(inner.0)], inner.1)
  }

  /** A write, whether it completes or raises, never removes a top-level key. */
  lemma {:induction false} AssignKeepsKeys(m: map<string, Json>, parts: seq<string>, last: string, value: Json)
    ensures m.Keys <= Assign(m, parts, last, value).0.Keys
  {
    if |parts| > 0 && parts[0] in m && m[parts[0]].JObj? {
      assert parts[0] in Assign(m, parts, last, value).0;
    }
  }

  /** Below a freshly created level nothing can fail. */
  lemma {:induction false} AssignFreshSucceeds(parts: seq<string>, last: string, value: Json)
    ensures Assign(map[], parts, last, value).1
    decreases |parts|
  {
    if |parts| > 0 {
      AssignFreshSucceeds(parts[1..], last, value);
    }
  }

  /** Some level named by `parts` already exists and is not an object. */
  predicate Blocked(m: map<string, Json>, parts: seq<string>)
  {
    exists i :: 0 < i <= |parts| && Lookup(JObj(m), parts[..i]).Some? && !Lookup(JObj(m), parts[..i]).value.JObj?
  }

  /** A failed write changed nothing: it can only fail on an existing level,
      before it created or stored anything. */
  lemma {:induction false} AssignFailsCleanly(m: map<string, Json>, parts: seq<string>, last: string, value: Json)
    ensures !Assign(m, parts, last, value).1 ==> Assign(m, parts, last, value).0 == m
    decreases |parts|
  {
    if |parts| > 0 {
      var p := parts[0];
      if p !in m {
        AssignFreshSucceeds(parts[1..], last, value);
      } else if m[p].JObj? {
        AssignFailsCleanly(m[p].fields, parts[1..], last, value);
        if !Assign(m, parts, last, value).1 {
          assert m[p := JObj(m[p].fields)] == m;
        }
      }
    }
  }

  /** A write fails exactly when some level on its path exists and is not an object. */
  lemma {:induction false} AssignFailsIffBlocked(m: map<string, Json>, parts: seq<string>, last: string, value: Json)
    ensures !Assign(m, parts, last, value).1 <==> Blocked(m, parts)
    decreases |parts|
  {
    if |parts| > 0 {
      var p := parts[0];
      assert parts[..1] == [p];
      assert Lookup(JObj(m), [p]) == if p in m then Some(m[p]) else None by {
        assert [p][1..] == [];
      }
      if p !in m {
        AssignFreshSucceeds(parts[1..], last, value);
        forall i | 0 < i <= |parts| ensures Lookup(JObj(m), parts[..i]).None? {
          assert parts[..i][0] == p;
        }
      } else if !m[p].JObj? {
        assert Lookup(JObj(m), parts[..1]) == Some(m[p]);
      } else {
        var rest := parts[1..];
        AssignFailsIffBlocked(m[p].fields, rest, last, value);
        forall i | 0 < i <= |parts|
          ensures Lookup(JObj(m), parts[..i]) == Lookup(JObj(m[p].fields), rest[..i - 1])
        {
          assert parts[..i] == [p] + rest[..i - 1];
          LookupAppend(JObj(m), [p], rest[..i - 1]);
        }
        if Blocked(m[p].fields, rest) {
          var i :| 0 < i <= |rest| && Lookup(JObj(m[p].fields), rest[..i]).Some?
                   && !Lookup(JObj(m[p].fields), rest[..i]).value.JObj?;
          assert Lookup(JObj(m), parts[..i + 1]) == Lookup(JObj(m[p].fields), rest[..i]);
        }
        if Blocked(m, parts) {
          var i :| 0 < i <= |parts| && Lookup(JObj(m), parts[..i]).Some? && !Lookup(JObj(m), parts[..i]).value.JObj?;
          assert i > 1;
          assert Lookup(JObj(m[p].fields), rest[..i - 1]) == Lookup(JObj(m), parts[..i]);
        }
      }
    }
  }

  /** After a successful write, reading the same path gives the written value. */
  lemma {:induction false} AssignThenLookup(m: map<string, Json>, parts: seq<string>, last: string, value: Json)
    requires Assign(m, parts, last, value).1
    ensures Lookup(JObj(Assign(m, parts, last, value).0), parts + [last]) == Some(value)
    decreases |parts|
  {
    var r := Assign(m, parts, last, value).0;
    if |parts| == 0 {
      assert parts + [last] == [last];
      assert [last][1..] == [];
    } else {
      var p := parts[0];
      var child := if p in m then m[p] else JObj(map[]);
      AssignThenLookup(child.fields, parts[1..], last, value);
      assert (parts + [last])[0] == p;
      assert (parts + [last])[1..] == parts[1..] + [last];
    }
  }

  /** A write leaves every other top-level key alone. */
  lemma AssignFrame(m: map<string, Json>, parts: seq<string>, last: string, value: Json, k: string)
    requires k != (if |parts| == 0 then last else parts[0])
    ensures k in Assign(m, parts, last, value).0 <==> k in m
    ensures k in m ==> Assign(m, parts, last, value).0[k] == m[k]
  {
  }

  /** A dotted path cut into its intermediate levels and its final key. */
  function DottedPath(path: string): (p: (seq<string>, string))
    ensures p.0 + [p.1] == Strings.Split(path, '.')
    ensures '.' !in p.1
  {
    var fields := Strings.Split(path, '.');
    assert fields[..|fields| - 1] + [fields[|fields| - 1]] == fields;
    (fields[..|fields| - 1], fields[|fields| - 1])
  }

  /** `update_config(path, value)`: the configuration afterwards and the
      result, which on a completed store is what saving the file answered
      (`saveOk`) and on a raised write is `false`. */
  function UpdateConfig(config: map<string, Json>, path: string, value: Json, saveOk: bool): (r: (map<string, Json>, bool))
    ensures var written := Assign(config, DottedPath(path).0, DottedPath(path).1, value);
            && r.0 == written.0
            && (r.1 <==> written.1 && saveOk)
  {
    var written := Assign(config, DottedPath(path).0, DottedPath(path).1, value);
    (written.0, written.1 && saveOk)
  }

  /** Writing a path and reading it back gives the written value, whether or
      not the file could be saved, unless a level on the path already exists
      and is not an object; then the write fails and the configuration is as
      it was. */
  lemma UpdateThenGet(config: map<string, Json>, path: string, value: Json, saveOk: bool, default: Json)
    ensures var fields := Strings.Split(path, '.');
            var r := UpdateConfig(config, path, value, saveOk);
            !Blocked(config, fields[..|fields| - 1]) ==> GetConfig(r.0, path, default) == value && r.1 == saveOk
    ensures var fields := Strings.Split(path, '.');
            Blocked(config, fields[..|fields| - 1]) ==> UpdateConfig(config, path, value, saveOk) == (config, false)
  {
    var fields := Strings.Split(path, '.');
    var parts := DottedPath(path).0;
    var last := DottedPath(path).1;
    assert parts == fields[..|fields| - 1] by {
      assert fields[..|fields| - 1] == (parts + [last])[..|parts|];
    }
    AssignFailsCleanly(config, parts, last, value);
    AssignFailsIffBlocked(config, parts, last, value);
    if Assign(config, parts, last, value).1 {
      AssignThenLookup(config, parts, last, value);
    }
  }
}
