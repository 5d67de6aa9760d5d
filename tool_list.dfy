/**
 * The `Tool` record and the three pure list transformations behind the tool store:
 * spread-append (addTool), `map` with an object-spread merge (updateTool) and
 * `filter` (deleteTool), plus the `find` lookup the admin page uses.
 */
module ToolList {
  import opened Wrappers

  /** A tool entry: an opaque id and three text fields. */
  datatype Tool = Tool(id: string, name: string, description: string, url: string)

  /** `Omit<Tool, "id">`: the fields a caller supplies when adding a tool. */
  datatype ToolFields = ToolFields(name: string, description: string, url: string)

  /** `Partial<Tool>`: `None` is a key absent from the patch object. */
  datatype Patch = Patch(id: Option<string>, name: Option<string>, description: Option<string>, url: Option<string>)

  /** Some element of `ts` has id `id`. */
  predicate HasId(ts: seq<Tool>, id: string) {
    exists i :: 0 <= i < |ts| && ts[i].id == id
  }

  /** No two elements of `ts` share an id. */
  predicate DistinctIds(ts: seq<Tool>) {
    forall i, j :: 0 <= i < j < |ts| ==> ts[i].id != ts[j].id
  }

  /** `{ ...tool, id }`: the record addTool builds from the supplied fields and a generated id. */
  function WithId(f: ToolFields, id: string): Tool {
    Tool(id, f.name, f.description, f.url)
  }

  /** `[...prev, newTool]`: the list after addTool. */
  function Added(ts: seq<Tool>, f: ToolFields, id: string): (r: seq<Tool>)
    ensures |r| == |ts| + 1 && r[..|ts|] == ts
    ensures r[|ts|].id == id && r[|ts|].name == f.name
    ensures r[|ts|].description == f.description && r[|ts|].url == f.url
  {
    ts + [WithId(f, id)]
  }

  /** `{ ...tool, ...patch }`: keys present in the patch win, the rest keep the tool's values. */
  function Merge(t: Tool, p: Patch): (r: Tool)
    ensures p.id.Some? ==> r.id == p.id.value
    ensures p.id.None? ==> r.id == t.id
    ensures p.name.Some? ==> r.name == p.name.value
    ensures p.name.None? ==> r.name == t.name
    ensures p.description.Some? ==> r.description == p.description.value
    ensures p.description.None? ==> r.description == t.description
    ensures p.url.Some? ==> r.url == p.url.value
    ensures p.url.None? ==> r.url == t.url
  {
    Tool(
      if p.id.Some? then p.id.value else t.id,
      if p.name.Some? then p.name.value else t.name,
      if p.description.Some? then p.description.value else t.description,
      if p.url.Some? then p.url.value else t.url)
  }

  /** `prev.map(tool => tool.id === id ? { ...tool, ...patch } : tool)`. */
  function Updated(ts: seq<Tool>, id: string, p: Patch): (r: seq<Tool>)
    ensures |r| == |ts|
    ensures forall i :: 0 <= i < |ts| ==> r[i] == if ts[i].id == id then Merge(ts[i], p) else ts[i]
  {
    if ts == [] then []
    else [if ts[0].id == id then Merge(ts[0], p) else ts[0]] + Updated(ts[1..], id, p)
  }

  /** `prev.filter(tool => tool.id !== id)`. */
  function Deleted(ts: seq<Tool>, id: string): (r: seq<Tool>)
    ensures |r| <= |ts|
    ensures forall t :: t in r <==> t in ts && t.id != id
  {
    if ts == [] then []
    else if ts[0].id != id then [ts[0]] + Deleted(ts[1..], id)
    else Deleted(ts[1..], id)
  }

  /** `tools.findIndex(t => t.id === id)`, as an option: the first position holding `id`. */
  function FindIndex(ts: seq<Tool>, id: string): (r: Option<nat>)
    ensures r.None? <==> !HasId(ts, id)
    ensures r.Some? ==> r.value < |ts| && ts[r.value].id == id
    ensures r.Some? ==> forall j :: 0 <= j < r.value ==> ts[j].id != id
  {
    if ts == [] then None
    else if ts[0].id == id then Some(0)
    else
      var k := FindIndex(ts[1..], id);
      assert HasId(ts, id) ==> HasId(ts[1..], id) by {
        if HasId(ts, id) {
          var i :| 0 <= i < |ts| && ts[i].id == id;
          assert ts[1..][i - 1].id == id;
        }
      }
      if k.None? then None else Some(k.value + 1)
  }

  /** `tools.find(t => t.id === id)`: the first tool with that id, if any. */
  function FindById(ts: seq<Tool>, id: string): (r: Option<Tool>)
    ensures r.None? <==> !HasId(ts, id)
    ensures r.Some? ==> r.value in ts && r.value.id == id
    ensures r.Some? ==> exists k :: 0 <= k < |ts| && ts[k] == r.value && forall j :: 0 <= j < k ==> ts[j].id != id
  {
    var k := FindIndex(ts, id);
    if k.None? then None else Some(ts[k.value])
  }

  // ---------------------------------------------------------------- addTool

  /** A fresh id keeps the ids pairwise distinct. */
  lemma AddedKeepsIdsDistinct(ts: seq<Tool>, f: ToolFields, id: string)
    requires DistinctIds(ts) && !HasId(ts, id)
    ensures DistinctIds(Added(ts, f, id))
  {
    var r := Added(ts, f, id);
    forall i, j | 0 <= i < j < |r| ensures r[i].id != r[j].id {
      if j == |ts| {
        assert r[i] == ts[i];
      } else {
        assert r[i] == ts[i] && r[j] == ts[j];
      }
    }
  }

  /** The added tool can be found again by its id. */
  lemma AddedIsFound(ts: seq<Tool>, f: ToolFields, id: string)
    requires !HasId(ts, id)
    ensures FindById(Added(ts, f, id), id) == Some(WithId(f, id))
  {
    var r := Added(ts, f, id);
    assert r[|ts|].id == id;
    var k := FindIndex(r, id);
    forall j | 0 <= j < |ts| ensures r[j].id != id {
      assert r[j] == ts[j];
    }
    assert k == Some(|ts|);
  }

  // ------------------------------------------------------------- updateTool

  /** Updating an id that is not in the list changes nothing. */
  lemma {:induction false} UpdatedAbsent(ts: seq<Tool>, id: string, p: Patch)
    requires !HasId(ts, id)
    ensures Updated(ts, id, p) == ts
  {
    var r := Updated(ts, id, p);
    forall i | 0 <= i < |ts| ensures r[i] == ts[i] {
      assert ts[i].id != id;
    }
  }

  /** A patch without an `id` key keeps every id, position by position. */
  lemma UpdatedKeepsIds(ts: seq<Tool>, id: string, p: Patch)
    requires p.id.None?
    ensures forall i :: 0 <= i < |ts| ==> Updated(ts, id, p)[i].id == ts[i].id
    ensures DistinctIds(ts) ==> DistinctIds(Updated(ts, id, p))
  {
  }

  /** Patching only the name keeps description and url of every matching element. */
  lemma UpdatedNameOnly(ts: seq<Tool>, id: string, name: string, i: nat)
    requires i < |ts| && ts[i].id == id
    ensures Updated(ts, id, Patch(None, Some(name), None, None))[i]
         == Tool(id, name, ts[i].description, ts[i].url)
  {
  }

  /** Applying the same update twice is applying it once. */
  lemma UpdatedIdempotent(ts: seq<Tool>, id: string, p: Patch)
    ensures Updated(Updated(ts, id, p), id, p) == Updated(ts, id, p)
  {
    var once := Updated(ts, id, p);
    var twice := Updated(once, id, p);
    forall i | 0 <= i < |ts| ensures twice[i] == once[i] {
      if ts[i].id == id {
        assert Merge(Merge(ts[i], p), p) == Merge(ts[i], p);
      }
    }
  }

  /** With distinct ids, an update of an existing id rewrites that one element and only it. */
  lemma UpdatedExisting(ts: seq<Tool>, k: nat, p: Patch)
    requires DistinctIds(ts) && k < |ts|
    ensures Updated(ts, ts[k].id, p) == ts[k := Merge(ts[k], p)]
  {
    var r := Updated(ts, ts[k].id, p);
    forall i | 0 <= i < |ts| ensures r[i] == ts[k := Merge(ts[k], p)][i] {
      if i != k {
        assert ts[i].id != ts[k].id;
      }
    }
  }

  /** Create `{X, Y, u}` and then update its name only: the description and url survive. */
  lemma AddThenRename(ts: seq<Tool>, f: ToolFields, id: string, name: string)
    requires !HasId(ts, id)
    ensures var r := Updated(Added(ts, f, id), id, Patch(None, Some(name), None, None));
            r[..|ts|] == ts && r[|ts|] == Tool(id, name, f.description, f.url)
  {
    var a := Added(ts, f, id);
    var r := Updated(a, id, Patch(None, Some(name), None, None));
    assert r[..|ts|] == Updated(ts, id, Patch(None, Some(name), None, None)) by {
      assert a[..|ts|] == ts;
    }
    UpdatedAbsent(ts, id, Patch(None, Some(name), None, None));
  }

  // ------------------------------------------------------------- deleteTool

  /** Deleting an id that is not in the list changes nothing. */
  lemma {:induction false} DeletedAbsent(ts: seq<Tool>, id: string)
    requires !HasId(ts, id)
    ensures Deleted(ts, id) == ts
  {
    if ts != [] {
      assert ts[0].id != id;
      forall i | 0 <= i < |ts[1..]| ensures ts[1..][i].id != id {
        assert ts[1..][i] == ts[i + 1];
      }
      DeletedAbsent(ts[1..], id);
      assert ts == [ts[0]] + ts[1..];
    }
  }

  /** No element with the deleted id is left. */
  lemma DeletedRemovesId(ts: seq<Tool>, id: string)
    ensures !HasId(Deleted(ts, id), id)
  {
    var r := Deleted(ts, id);
    forall i | 0 <= i < |r| ensures r[i].id != id {
      assert r[i] in r;
    }
  }

  /** Deleting twice is deleting once. */
  lemma DeletedIdempotent(ts: seq<Tool>, id: string)
    ensures Deleted(Deleted(ts, id), id) == Deleted(ts, id)
  {
    DeletedRemovesId(ts, id);
    DeletedAbsent(Deleted(ts, id), id);
  }

  /** Deletion works piecewise, so the kept elements keep their relative order. */
  lemma {:induction false} DeletedAppend(a: seq<Tool>, b: seq<Tool>, id: string)
    ensures Deleted(a + b, id) == Deleted(a, id) + Deleted(b, id)
  {
    if a == [] {
      assert a + b == b;
    } else {
      assert (a + b)[0] == a[0];
      assert (a + b)[1..] == a[1..] + b;
      DeletedAppend(a[1..], b, id);
    }
  }

  /** With distinct ids, the id at position `k` occurs neither before nor after it. */
  lemma IdOnlyAt(ts: seq<Tool>, k: nat)
    requires DistinctIds(ts) && k < |ts|
    ensures !HasId(ts[..k], ts[k].id) && !HasId(ts[k + 1..], ts[k].id)
  {
    var pre, post := ts[..k], ts[k + 1..];
    forall i | 0 <= i < |pre| ensures pre[i].id != ts[k].id {
      assert pre[i] == ts[i];
    }
    forall i | 0 <= i < |post| ensures post[i].id != ts[k].id {
      assert post[i] == ts[k + 1 + i];
    }
  }

  /** Deleting the id of a lone middle element removes exactly it. */
  lemma DeletedAround(pre: seq<Tool>, x: Tool, post: seq<Tool>)
    requires !HasId(pre, x.id) && !HasId(post, x.id)
    ensures Deleted(pre + [x] + post, x.id) == pre + post
  {
    calc {
      Deleted(pre + [x] + post, x.id);
      { assert pre + [x] + post == pre + ([x] + post); DeletedAppend(pre, [x] + post, x.id); }
      Deleted(pre, x.id) + Deleted([x] + post, x.id);
      { DeletedAbsent(pre, x.id); assert ([x] + post)[1..] == post; }
      pre + Deleted(post, x.id);
      { DeletedAbsent(post, x.id); }
      pre + post;
    }
  }

  /** With distinct ids, deleting the id at position `k` removes exactly that element. */
  lemma DeletedExisting(ts: seq<Tool>, k: nat)
    requires DistinctIds(ts) && k < |ts|
    ensures Deleted(ts, ts[k].id) == ts[..k] + ts[k + 1..]
  {
    var pre, x, post := ts[..k], ts[k], ts[k + 1..];
    IdOnlyAt(ts, k);
    assert ts == pre + [x] + post;
    DeletedAround(pre, x, post);
  }

  /** Deletion keeps ids pairwise distinct. */
  lemma {:induction false} DeletedKeepsIdsDistinct(ts: seq<Tool>, id: string)
    requires DistinctIds(ts)
    ensures DistinctIds(Deleted(ts, id))
  {
    if ts != [] {
      var rest := Deleted(ts[1..], id);
      assert DistinctIds(ts[1..]) by {
        forall i, j | 0 <= i < j < |ts[1..]| ensures ts[1..][i].id != ts[1..][j].id {
          assert ts[1..][i] == ts[i + 1] && ts[1..][j] == ts[j + 1];
        }
      }
      DeletedKeepsIdsDistinct(ts[1..], id);
      if ts[0].id != id {
        var r := [ts[0]] + rest;
        forall i, j | 0 <= i < j < |r| ensures r[i].id != r[j].id {
          if i == 0 {
            assert r[j] in rest;
            assert r[j] in ts[1..];
            var m :| 0 <= m < |ts[1..]| && ts[1..][m] == r[j];
            assert ts[m + 1] == r[j];
          } else {
            assert r[i] == rest[i - 1] && r[j] == rest[j - 1];
          }
        }
      }
    }
  }

  // ------------------------------------------------------------------ find

  /** With distinct ids, looking up the id at position `k` yields that very tool. */
  lemma FindByIdDistinct(ts: seq<Tool>, k: nat)
    requires DistinctIds(ts) && k < |ts|
    ensures FindById(ts, ts[k].id) == Some(ts[k])
  {
    var r := FindIndex(ts, ts[k].id);
    assert HasId(ts, ts[k].id);
    assert ts[r.value].id == ts[k].id;
    assert r.value == k;
  }
}
