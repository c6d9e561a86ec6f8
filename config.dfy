/** The process-wide configuration store: a tree of nested dictionaries
    addressed by dotted paths such as "agent.max_iterations". */
module Config {
  import opened Values

  // ---------------------------------------------------------------------------
  // Dotted keys
  // ---------------------------------------------------------------------------

  /** Joins path segments with '.', the inverse of `Split`. */
  function Join(path: seq<string>): string
    requires |path| >= 1
    decreases |path|
  {
    if |path| == 1 then path[0] else path[0] + "." + Join(path[1..])
  }

  /** No segment of the path contains a dot. */
  predicate Undotted(path: seq<string>) {
    forall i :: 0 <= i < |path| ==> '.' !in path[i]
  }

  /** Python's `key.split(".")`: never empty ("" splits into [""]), the
      segments hold no dot, and joining them gives the key back. */
  function Split(key: string): (r: seq<string>)
    ensures |r| >= 1
    ensures Undotted(r)
    ensures Join(r) == key
    decreases |key|
  {
    if key == [] then [""]
    else if key[0] == '.' then [""] + Split(key[1..])
    else
      var rest := Split(key[1..]);
      var r := [[key[0]] + rest[0]] + rest[1..];
      assert Join(r) == key by {
        if |rest| > 1 {
          assert r[1..] == rest[1..];
          assert Join(r) == [key[0]] + rest[0] + "." + Join(rest[1..]);
        }
      }
      r
  }

  /** Splitting a joined dot-free path gives the path back. */
  lemma {:induction false} SplitJoin(path: seq<string>)
    requires |path| >= 1 && Undotted(path)
    ensures Split(Join(path)) == path
    decreases |path|, |path[0]|
  {
    if |path[0]| > 0 {
      var c := path[0][0];
      var tail := [path[0][1..]] + path[1..];
      assert Undotted(tail) by {
        forall i | 0 <= i < |tail| ensures '.' !in tail[i] {
          if i == 0 {
            assert forall j :: 0 <= j < |path[0][1..]| ==> path[0][1..][j] == path[0][j + 1];
          } else {
            assert tail[i] == path[i];
          }
        }
      }
      assert Join(tail) == Join(path)[1..] by {
        if |path| == 1 {
        } else {
          assert tail[1..] == path[1..];
        }
      }
      assert path[0] == [c] + path[0][1..];
      assert Join(path)[0] == c;
      SplitJoin(tail);
      assert [[c] + tail[0]] + tail[1..] == path;
    } else if |path| > 1 {
      assert Join(path) == "." + Join(path[1..]);
      assert Undotted(path[1..]) by {
        forall i | 0 <= i < |path[1..]| ensures '.' !in path[1..][i] {
          assert path[1..][i] == path[i + 1];
        }
      }
      SplitJoin(path[1..]);
      assert (Join(path))[1..] == Join(path[1..]);
      assert [""] + path[1..] == path;
    }
  }

  // ---------------------------------------------------------------------------
  // Lookup
  // ---------------------------------------------------------------------------

  /** What `get_config` does with a path: the value found, `None` returned
      because a segment is missing, or a TypeError raised because the walk
      reached a value that is not a dict (`in` on a str or list may succeed,
      and the subscript that follows then raises). */
  datatype Resolution = Found(value: Value) | Missing | Raised

  /** The result of walking `path` down from `node`. */
  function Resolve(node: Value, path: seq<string>): Resolution
    decreases |path|
  {
    if path == [] then Found(node)
    else
      match node
      case Obj(m) => if path[0] in m then Resolve(m[path[0]], path[1..]) else Missing
      case Str(s) => if IsSubstring(path[0], s) then Raised else Missing
      case Arr(xs) => if Str(path[0]) in xs then Raised else Missing
      case _ => Raised
  }

  /** The walk answers `None` as soon as a segment is missing from a dict,
      whatever the segments after it are. */
  lemma {:induction false} ResolveStopsAtMissing(node: Value, path: seq<string>, i: nat)
    requires i < |path|
    requires Resolve(node, path[..i]).Found? && Resolve(node, path[..i]).value.Obj?
    requires path[i] !in Resolve(node, path[..i]).value.fields
    ensures Resolve(node, path) == Missing
    decreases i
  {
    if i > 0 {
      assert path[..i][0] == path[0];
      assert path[..i][1..] == path[1..][..i - 1];
      ResolveStopsAtMissing(node.fields[path[0]], path[1..], i - 1);
    }
  }

  // ---------------------------------------------------------------------------
  // Update
  // ---------------------------------------------------------------------------

  /** Every intermediate node that already exists along `path` is a dict, so
      that an update along it cannot raise. */
  predicate Open(node: Dict, path: seq<string>)
    requires |path| >= 1
    decreases |path|
  {
    |path| == 1 ||
    path[0] !in node ||
    (node[path[0]].Obj? && Open(node[path[0]].fields, path[1..]))
  }

  /** What `update_config` does to a dict: walk the intermediate segments,
      inserting an empty dict for each missing one, and set the last segment
      to `v`. None when the walk meets an existing node that is not a dict
      (Python raises a TypeError there, before anything has been inserted). */
  function Put(node: Dict, path: seq<string>, v: Value): Option<Dict>
    requires |path| >= 1
    decreases |path|
  {
    if |path| == 1 then Some(node[path[0] := v])
    else if path[0] !in node then
      match Put(map[], path[1..], v)
      case Some(child) => Some(node[path[0] := Obj(child)])
      case None => None
    else
      match node[path[0]]
      case Obj(m) =>
        (match Put(m, path[1..], v)
         case Some(child) => Some(node[path[0] := Obj(child)])
         case None => None)
      case _ => None
  }

  /** An update raises exactly when an existing intermediate node is not a dict. */
  lemma {:induction false} PutSucceedsIffOpen(node: Dict, path: seq<string>, v: Value)
    requires |path| >= 1
    ensures Put(node, path, v).Some? <==> Open(node, path)
    decreases |path|
  {
    if |path| > 1 {
      if path[0] !in node {
        PutSucceedsIffOpen(map[], path[1..], v);
        EmptyIsOpen(path[1..]);
      } else if node[path[0]].Obj? {
        PutSucceedsIffOpen(node[path[0]].fields, path[1..], v);
      }
    }
  }

  lemma {:induction false} EmptyIsOpen(path: seq<string>)
    requires |path| >= 1
    ensures Open(map[], path)
  {
  }

  /** Round trip: after `update_config(p, v)`, `get_config(p)` returns `v`. */
  lemma {:induction false} PutThenResolve(node: Dict, path: seq<string>, v: Value)
    requires |path| >= 1
    requires Put(node, path, v).Some?
    ensures Resolve(Obj(Put(node, path, v).value), path) == Found(v)
    decreases |path|
  {
    if |path| > 1 {
      var child := if path[0] in node then node[path[0]].fields else map[];
      PutThenResolve(child, path[1..], v);
    }
  }

  /** Every proper prefix of an updated path leads to a dict afterwards: the
      missing intermediate nodes have been created. */
  lemma {:induction false} PutCreatesIntermediates(node: Dict, path: seq<string>, v: Value, i: nat)
    requires |path| >= 1 && i < |path|
    requires Put(node, path, v).Some?
    ensures Resolve(Obj(Put(node, path, v).value), path[..i]).Found?
    ensures Resolve(Obj(Put(node, path, v).value), path[..i]).value.Obj?
    decreases |path|
  {
    if i > 0 {
      var child := if path[0] in node then node[path[0]].fields else map[];
      assert path[..i][0] == path[0];
      assert path[..i][1..] == path[1..][..i - 1];
      PutCreatesIntermediates(child, path[1..], v, i - 1);
    }
  }

  /** `p` is a prefix of `q`. */
  predicate Prefix(p: seq<string>, q: seq<string>) {
    |p| <= |q| && q[..|p|] == p
  }

  lemma PrefixStep(p: seq<string>, q: seq<string>)
    requires |p| >= 1 && |q| >= 1 && p[0] == q[0]
    ensures Prefix(p, q) <==> Prefix(p[1..], q[1..])
  {
    if Prefix(p[1..], q[1..]) {
      assert q[..|p|] == [q[0]] + q[1..][..|p| - 1];
      assert p == [p[0]] + p[1..];
    }
  }

  /** Frame: an update leaves every path that is unrelated to the updated one
      (neither a prefix of it nor extending it) resolving as before. */
  lemma {:induction false} PutFrame(node: Dict, path: seq<string>, v: Value, other: seq<string>)
    requires |path| >= 1
    requires Put(node, path, v).Some?
    requires !Prefix(other, path) && !Prefix(path, other)
    ensures Resolve(Obj(Put(node, path, v).value), other) == Resolve(Obj(node), other)
    decreases |path|
  {
    var after := Put(node, path, v).value;
    assert other != [] by { assert Prefix([], path); }
    if other[0] != path[0] {
      assert Lookup(after, other[0]) == Lookup(node, other[0]);
    } else {
      PrefixStep(path, other);
      PrefixStep(other, path);
      assert Prefix([], path[1..]) && Prefix([], other[1..]);
      assert |path| > 1 && |other| > 1;
      if path[0] in node && !node[path[0]].Obj? {
        assert false;
      }
      var child := if path[0] in node then node[path[0]].fields else map[];
      PutFrame(child, path[1..], v, other[1..]);
      if path[0] !in node {
        assert Resolve(Obj(child), other[1..]) == Missing;
        assert Resolve(Obj(node), other) == Missing;
      }
    }
  }

  /** Repeating an update changes nothing more. */
  lemma {:induction false} PutIdempotent(node: Dict, path: seq<string>, v: Value)
    requires |path| >= 1
    requires Put(node, path, v).Some?
    ensures Put(Put(node, path, v).value, path, v) == Put(node, path, v)
    decreases |path|
  {
    if |path| > 1 {
      var child := if path[0] in node then node[path[0]].fields else map[];
      PutIdempotent(child, path[1..], v);
      var after := Put(node, path, v).value;
      assert after[path[0]] == Obj(Put(child, path[1..], v).value);
      assert after[path[0] := Obj(Put(child, path[1..], v).value)] == after;
    } else {
      assert node[path[0] := v][path[0] := v] == node[path[0] := v];
    }
  }

  // ---------------------------------------------------------------------------
  // Defaults and the store
  // ---------------------------------------------------------------------------

  /** DEFAULT_CONFIG. `apiKey` is what the ANTHROPIC_API_KEY environment
      variable holds ("" when unset); the float `llm.temperature` is left out. */
  function DefaultConfig(apiKey: string): (d: Dict)
    ensures Resolve(Obj(d), ["agent", "max_iterations"]) == Found(Int(10))
    ensures Resolve(Obj(d), ["agent", "memory_size"]) == Found(Int(100))
    ensures Resolve(Obj(d), ["browser", "type"]) == Found(Str("playwright"))
    ensures Resolve(Obj(d), ["browser", "headless"]) == Found(Bool(true))
    ensures Resolve(Obj(d), ["server", "port"]) == Found(Int(54656))
    ensures Resolve(Obj(d), ["llm", "api_key"]) == Found(Str(apiKey))
  {
    map[
      "llm" := Obj(map[
        "model" := Str("claude-3-sonnet-20240229"),
        "max_tokens" := Int(2000),
        "api_key" := Str(apiKey)]),
      "browser" := Obj(map[
        "type" := Str("playwright"),
        "headless" := Bool(true),
        "timeout" := Int(30000)]),
      "agent" := Obj(map[
        "name" := Str("ポケットAI"),
        "description" := Str("A Doraemon-inspired AI assistant that helps with programming tasks"),
        "max_iterations" := Int(10),
        "memory_size" := Int(100)]),
      "server" := Obj(map[
        "host" := Str("0.0.0.0"),
        "port" := Int(54656)])
    ]
  }

  /** The module-level `config` dictionary and the two functions over it. */
  class ConfigStore {
    var tree: Dict

    /** `config = {**DEFAULT_CONFIG, **user_config}` with an empty `user_config`. */
    constructor (apiKey: string)
      ensures tree == DefaultConfig(apiKey)
    {
      tree := DefaultConfig(apiKey);
    }

    /** `get_config(key)`: the whole tree for no key, otherwise a read-only
        walk down the dotted segments. */
    method GetConfig(key: Option<string>) returns (r: Resolution)
      ensures key.None? ==> r == Found(Obj(tree))
      ensures key.Some? ==> r == Resolve(Obj(tree), Split(key.value))
    {
      if key.None? {
        return Found(Obj(tree));
      }
      var keys := Split(key.value);
      var value := Obj(tree);
      var i := 0;
      while i < |keys|
        invariant 0 <= i <= |keys|
        invariant Resolve(Obj(tree), keys) == Resolve(value, keys[i..])
      {
        var k := keys[i];
        assert keys[i..][0] == k && keys[i..][1..] == keys[i + 1..];
        match value {
          case Obj(m) =>
            if k in m {
              value := m[k];
            } else {
              return Missing;
            }
          case Str(s) =>
            if IsSubstring(k, s) {
              return Raised;
            } else {
              return Missing;
            }
          case Arr(xs) =>
            if Str(k) in xs {
              return Raised;
            } else {
              return Missing;
            }
          case _ =>
            return Raised;
        }
        i := i + 1;
      }
      r := Found(value);
    }

    /** `update_config(key, value)`. `raised` reports the TypeError the
        source raises when an existing intermediate node is not a dict; the
        tree is then unchanged. */
    method UpdateConfig(key: string, value: Value) returns (raised: bool)
      modifies this
      ensures raised <==> !Open(old(tree), Split(key))
      ensures raised ==> tree == old(tree)
      ensures !raised ==> Some(tree) == Put(old(tree), Split(key), value)
    {
      PutSucceedsIffOpen(tree, Split(key), value);
      var updated := Put(tree, Split(key), value);
      if updated.None? {
        raised := true;
      } else {
        raised := false;
        tree := updated.value;
      }
    }
  }

  /** The worked example: setting "server.port" to 9000 and reading it back
      gives 9000, on the default tree. */
  lemma ServerPortExample(apiKey: string)
    ensures Put(DefaultConfig(apiKey), Split("server.port"), Int(9000)).Some?
    ensures Resolve(Obj(Put(DefaultConfig(apiKey), Split("server.port"), Int(9000)).value),
                    Split("server.port")) == Found(Int(9000))
  {
    var path := ["server", "port"];
    assert Join(path) == "server.port" by {
      assert Join(path[1..]) == "port";
    }
    assert Undotted(path) by {
      assert '.' !in path[0] && '.' !in path[1];
    }
    SplitJoin(path);
    var d := DefaultConfig(apiKey);
    assert "server" in d && d["server"].Obj?;
    assert Open(d, path);
    PutSucceedsIffOpen(d, path, Int(9000));
    PutThenResolve(d, path, Int(9000));
  }
}
