// What a deep copy is for: the copy and its source can be changed independently.
module Independence {
  import opened GoMemory
  import opened Pointers
  import opened Copies
  import opened ConfigTypes
  import opened DeepCopy

  // One in-place change of memory: a cell gets new contents, whatever they are, or a new cell appears.
  datatype Write = Change(addr: nat, cell: Cell) | Alloc(cell: Cell)

  function After(h: Heap, w: Write): Heap {
    match w
    case Change(a, c) => if a < |h| then h[a := c] else h
    case Alloc(c) => h + [c]
  }

  function Written(h: Heap, ws: seq<Write>): Heap
    decreases |ws|
  {
    if ws == [] then h else Written(After(h, ws[0]), ws[1..])
  }

  // Changes of cells a value does not reach do not show in it.
  lemma {:induction false} WritesElsewhere(h: Heap, v: Value, t: Type, ws: seq<Write>)
    requires Typed(h, v, t)
    requires forall i :: 0 <= i < |ws| && ws[i].Change? ==> !Reaches(h, v, t, ws[i].addr)
    ensures Looks(h, Written(h, ws), v, t)
    decreases |ws|
  {
    if ws != [] {
      var g := After(h, ws[0]);
      TypedBound(h, v, t);
      Frame(h, g, v, t);
      WritesElsewhere(g, v, t, ws[1..]);
    }
  }

  // w is the copy of v made when the heap grew from h to g.
  ghost predicate Made(h: Heap, v: Value, g: Heap, w: Value, t: Type) {
    Typed(h, v, t) && h <= g && IsCopy(h, v, |h|, g, w, t)
  }

  lemma CopyLeavesSource(h: Heap, v: Value, g: Heap, w: Value, t: Type)
    requires Made(h, v, g, w, t)
    ensures Looks(h, g, v, t) && Apart(g, v, t, w, t)
  {
    TypedBound(h, v, t);
    Frame(h, g, v, t);
  }

  // Any sequence of changes to cells the copy reaches leaves the source as it was.
  lemma WritesThroughCopy(h: Heap, v: Value, g: Heap, w: Value, t: Type, ws: seq<Write>)
    requires Made(h, v, g, w, t)
    requires forall i :: 0 <= i < |ws| && ws[i].Change? ==> Reaches(g, w, t, ws[i].addr) || |g| <= ws[i].addr
    ensures View(Written(g, ws), v, t) == View(h, v, t)
  {
    CopyLeavesSource(h, v, g, w, t);
    TypedBound(g, v, t);
    WritesElsewhere(g, v, t, ws);
  }

  // Any sequence of changes to cells the source reaches leaves the copy with the source's first look.
  lemma WritesThroughSource(h: Heap, v: Value, g: Heap, w: Value, t: Type, ws: seq<Write>)
    requires Made(h, v, g, w, t)
    requires forall i :: 0 <= i < |ws| && ws[i].Change? ==> Reaches(g, v, t, ws[i].addr) || |g| <= ws[i].addr
    ensures View(Written(g, ws), w, t) == View(h, v, t)
  {
    CopyLeavesSource(h, v, g, w, t);
    TypedBound(g, w, t);
    WritesElsewhere(g, w, t, ws);
  }

  // Within the copy, changes under one field do not show under another, however much the source shared.
  lemma WritesUnderOneField(h: Heap, v: Value, g: Heap, w: Value, ts: seq<Type>, i: nat, j: nat, ws: seq<Write>)
    requires Made(h, v, g, w, TStruct(ts)) && i < |ts| && j < |ts| && i != j
    requires forall k :: 0 <= k < |ws| && ws[k].Change? ==> Reaches(g, w.fields[i], ts[i], ws[k].addr) || |g| <= ws[k].addr
    ensures View(Written(g, ws), w.fields[j], ts[j]) == View(h, v.fields[j], ts[j])
  {
    assert Apart(g, w.fields[i], ts[i], w.fields[j], ts[j]);
    TypedBound(g, w.fields[j], ts[j]);
    WritesElsewhere(g, w.fields[j], ts[j], ws);
    var t := TStruct(ts);
    assert View(g, w, t).fields[j] == View(h, v, t).fields[j];
  }

  // Without the copy the same change does show: two fields of a struct may share a map.
  lemma SharedFieldsShowThrough()
    ensures exists h: Heap, v: Value, ts: seq<Type>, ws: seq<Write> ::
      && Typed(h, v, TStruct(ts)) && |ts| == 2 && |ws| == 1 && ws[0].Change?
      && Reaches(h, v.fields[0], ts[0], ws[0].addr)
      && View(Written(h, ws), v.fields[1], ts[1]) != View(h, v.fields[1], ts[1])
  {
    var h: Heap := [Dict(map[])];
    var v := Struct([Whole(0, h[0]), Whole(0, h[0])]);
    var ts := [TMap(TPlain), TMap(TPlain)];
    var ws := [Change(0, Dict(map["k" := Plain("x")]))];
    assert Written(h, ws) == Written(After(h, ws[0]), []);
    assert "k" in View(Written(h, ws), v.fields[1], ts[1]).entries;
    assert Typed(h, v, TStruct(ts));
  }

  // What Create does to a copy

  lemma ParametersType()
    ensures TypeOf(ClusterParameters) == TStruct([TPlain, TypeOf(RKEClusterConfigSpec), TSlice(POOL)])
  {
    assert TypeOf(RKENodePool) == POOL;
    assert TypeOf(ClusterParameters).fields == [TPlain, TypeOf(RKEClusterConfigSpec), TSlice(POOL)];
  }

  // The template id is among the scalars of a pool, its field 0.
  function TemplatePointer(v: Value, index: nat): Pointer
    requires v.Ref?
  {
    Pointer(v.addr, v.from + index, [0])
  }

  function WithTemplate(pool: Tree, id: string): Tree {
    if pool.Fields? && pool.fields != [] then Fields(pool.fields[0 := Leaf(id)]) else pool
  }

  // The view of a list of pools with the template id of one of them set.
  function PoolsWith(t: Tree, index: nat, id: string): Tree {
    if t.Items? && index < |t.items| then Items(t.items[index := WithTemplate(t.items[index], id)]) else t
  }

  // The same in the view of a pointer to cluster parameters.
  function ParametersWith(t: Tree, index: nat, id: string): Tree {
    if t.Target? && t.tree.Fields? && |t.tree.fields| == 3
    then Target(Fields(t.tree.fields[2 := PoolsWith(t.tree.fields[2], index, id)]))
    else t
  }

  // What w is in f looks as given, and it reaches what v reached in g.
  ghost predicate Became(g: Heap, v: Value, f: Heap, w: Value, t: Type, look: Tree) {
    && Typed(f, w, t) && View(f, w, t) == look
    && forall a: nat :: Reaches(f, w, t, a) == Reaches(g, v, t, a)
  }

  lemma StructBecame(g: Heap, x: Value, f: Heap, y: Value, ts: seq<Type>, looks: seq<Tree>)
    requires x.Struct? && y.Struct? && |x.fields| == |y.fields| == |ts| == |looks|
    requires forall i :: 0 <= i < |ts| ==> Became(g, x.fields[i], f, y.fields[i], ts[i], looks[i])
    ensures Became(g, x, f, y, TStruct(ts), Fields(looks))
  {
    hide Unshared, Agree;
    forall i | 0 <= i < |ts|
      ensures Typed(f, y.fields[i], ts[i]) && View(f, y.fields[i], ts[i]) == looks[i]
      ensures forall a: nat :: Reaches(f, y.fields[i], ts[i], a) == Reaches(g, x.fields[i], ts[i], a)
    {
      assert Became(g, x.fields[i], f, y.fields[i], ts[i], looks[i]);
    }
    assert View(f, y, TStruct(ts)).fields == looks;
    forall a: nat ensures Reaches(f, y, TStruct(ts), a) == Reaches(g, x, TStruct(ts), a) {
    }
  }

  lemma SliceBecame(g: Heap, v: Value, f: Heap, e: Type, looks: seq<Tree>)
    requires IsSlice(g, v) && IsSlice(f, v) && |looks| == v.len
    requires forall j :: 0 <= j < v.len ==> Became(g, Elements(g, v)[j], f, Elements(f, v)[j], e, looks[j])
    ensures Became(g, v, f, v, TSlice(e), Items(looks))
  {
    hide Unshared, Agree;
    var s, r := Elements(g, v), Elements(f, v);
    forall j | 0 <= j < v.len
      ensures Typed(f, r[j], e) && View(f, r[j], e) == looks[j]
      ensures forall a: nat :: Reaches(f, r[j], e, a) == Reaches(g, s[j], e, a)
    {
      assert Became(g, s[j], f, r[j], e, looks[j]);
    }
    assert View(f, v, TSlice(e)).items == looks;
    forall a: nat ensures Reaches(f, v, TSlice(e), a) == Reaches(g, v, TSlice(e), a) {
    }
  }

  lemma PoolBecame(g: Heap, f: Heap, x: Value, id: string)
    requires Typed(g, x, POOL) && Agree(g, f, x, POOL)
    ensures Became(g, x, f, Struct(x.fields[0 := Plain(id)]), POOL, WithTemplate(View(g, x, POOL), id))
  {
    var y, looks := Struct(x.fields[0 := Plain(id)]), WithTemplate(View(g, x, POOL), id).fields;
    forall i | 0 <= i < 3 ensures Became(g, x.fields[i], f, y.fields[i], POOL.fields[i], looks[i]) {
      assert Typed(g, x.fields[i], POOL.fields[i]);
      if i > 0 {
        FramePart(g, f, x, POOL, x.fields[i], POOL.fields[i]);
      }
    }
    StructBecame(g, x, f, y, POOL.fields, looks);
  }

  lemma PoolScalars(h: Heap, v: Value, index: nat)
    requires Typed(h, v, TSlice(POOL)) && v.Ref? && index < v.len
    ensures InBounds(h, TemplatePointer(v, index))
    ensures var f := Store(h, TemplatePointer(v, index), Plain("")); |f| == |h|
  {
    FieldPath(Elements(h, v)[index], [], 0, Nil);
    assert [] + [0] == [0];
  }

  lemma ElementBecame(g: Heap, f: Heap, v: Value, j: nat, index: nat, id: string)
    requires Typed(g, v, TSlice(POOL)) && v.Ref? && j < v.len && index < v.len && Unshared(g, v, TSlice(POOL))
    requires |f| == |g| && forall a: nat :: a < |g| && a != v.addr ==> f[a] == g[a]
    ensures var x := Elements(g, v)[j];
      var look := View(g, x, POOL);
      if j == index then Became(g, x, f, Struct(x.fields[0 := Plain(id)]), POOL, WithTemplate(look, id))
      else Became(g, x, f, x, POOL, look)
  {
    var x := Elements(g, v)[j];
    assert Typed(g, x, POOL) && !Reaches(g, x, POOL, v.addr);
    TypedBound(g, x, POOL);
    if j == index {
      PoolBecame(g, f, x, id);
    } else {
      Frame(g, f, x, POOL);
    }
  }

  // A write through one element of a slice
  lemma ElementStored(g: Heap, v: Value, j: nat, path: seq<nat>, w: Value)
    requires IsSlice(g, v) && j < v.len && InBounds(g, Pointer(v.addr, v.from + j, path))
    ensures var f := Store(g, Pointer(v.addr, v.from + j, path), w);
      && (forall a: nat :: a < |g| && a != v.addr ==> f[a] == g[a])
      && IsSlice(f, v) && Elements(f, v) == Elements(g, v)[j := Put(Elements(g, v)[j], path, w)]
  {
  }

  lemma TemplateStored(g: Heap, v: Value, index: nat, id: string)
    requires Typed(g, v, TSlice(POOL)) && v.Ref? && index < v.len && InBounds(g, TemplatePointer(v, index))
    ensures var f := Store(g, TemplatePointer(v, index), Plain(id));
      var s := Elements(g, v);
      && |f| == |g| && (forall a: nat :: a < |g| && a != v.addr ==> f[a] == g[a])
      && IsSlice(f, v) && s[index].Struct? && |s[index].fields| == 3
      && Elements(f, v) == s[index := Struct(s[index].fields[0 := Plain(id)])]
  {
    hide View, Reaches, Store;
    assert Typed(g, Elements(g, v)[index], POOL);
    FieldPath(Elements(g, v)[index], [], 0, Plain(id));
    assert [] + [0] == [0];
    ElementStored(g, v, index, [0], Plain(id));
  }

  // Setting the template id of one pool changes the look of the list there and nowhere else.
  lemma PoolsBecame(g: Heap, v: Value, index: nat, id: string)
    requires Typed(g, v, TSlice(POOL)) && v.Ref? && index < v.len && Unshared(g, v, TSlice(POOL))
    requires InBounds(g, TemplatePointer(v, index))
    ensures var f := Store(g, TemplatePointer(v, index), Plain(id));
      Became(g, v, f, v, TSlice(POOL), PoolsWith(View(g, v, TSlice(POOL)), index, id))
  {
    hide Unshared, Agree, Became, InBounds, Store;
    var f := Store(g, TemplatePointer(v, index), Plain(id));
    TemplateStored(g, v, index, id);
    var s, r := Elements(g, v), Elements(f, v);
    var looks := PoolsWith(View(g, v, TSlice(POOL)), index, id).items;
    forall j | 0 <= j < |s| ensures Became(g, s[j], f, r[j], POOL, looks[j]) {
      ElementBecame(g, f, v, j, index, id);
    }
    SliceBecame(g, v, f, POOL, looks);
  }

  // A non-nil pointer to cluster parameters, and its list of node pools.
  lemma PoolsField(h: Heap, v: Value)
    requires Typed(h, v, TPtr(TypeOf(ClusterParameters))) && v != Nil && v.path == []
    ensures var p := Pointer(v.addr, v.from, [2]);
      && InBounds(h, p) && Load(h, p) == Deref(h, v).fields[2] && Typed(h, Load(h, p), TSlice(POOL))
  {
    ParametersType();
    var t := h[v.addr].slots[v.from];
    FieldPath(t, [], 2, Nil);
    assert [] + [2] == [2];
    assert Typed(h, t.fields[2], TypeOf(ClusterParameters).fields[2]);
  }

  lemma ParametersBecame(g: Heap, v: Value, index: nat, id: string)
    requires Typed(g, v, TPtr(TypeOf(ClusterParameters))) && v.Ref? && v.path == []
    requires Unshared(g, v, TPtr(TypeOf(ClusterParameters)))
    requires var pools := Deref(g, v).fields[2];
      && Typed(g, pools, TSlice(POOL)) && pools.Ref? && index < pools.len && InBounds(g, TemplatePointer(pools, index))
    ensures var t := TPtr(TypeOf(ClusterParameters));
      Became(g, v, Store(g, TemplatePointer(Deref(g, v).fields[2], index), Plain(id)), v, t,
             ParametersWith(View(g, v, t), index, id))
  {
    ParametersType();
    var ts := [TPlain, TypeOf(RKEClusterConfigSpec), TSlice(POOL)];
    var x := Deref(g, v);
    var f := Store(g, TemplatePointer(x.fields[2], index), Plain(id));
    FieldsBecame(g, x, ts, index, id);
    assert Reaches(g, x.fields[2], ts[2], x.fields[2].addr);
    assert Reaches(g, x, TStruct(ts), x.fields[2].addr);
    assert Deref(f, v) == x;
  }

  lemma FieldsBecame(g: Heap, x: Value, ts: seq<Type>, index: nat, id: string)
    requires |ts| == 3 && ts[2] == TSlice(POOL) && Typed(g, x, TStruct(ts)) && Unshared(g, x, TStruct(ts))
    requires x.fields[2].Ref? && index < x.fields[2].len && InBounds(g, TemplatePointer(x.fields[2], index))
    ensures var look := View(g, x, TStruct(ts)).fields;
      Became(g, x, Store(g, TemplatePointer(x.fields[2], index), Plain(id)), x, TStruct(ts),
             Fields(look[2 := PoolsWith(look[2], index, id)]))
  {
    var v := x.fields[2];
    var f := Store(g, TemplatePointer(v, index), Plain(id));
    var look := View(g, x, TStruct(ts)).fields;
    var now := look[2 := PoolsWith(look[2], index, id)];
    forall i | 0 <= i < 3 ensures Became(g, x.fields[i], f, x.fields[i], ts[i], now[i]) {
      assert Typed(g, x.fields[i], ts[i]) && Unshared(g, x.fields[i], ts[i]);
      if i == 2 {
        PoolsBecame(g, v, index, id);
      } else {
        OtherFieldBecame(g, f, x, ts, i);
      }
    }
    StructBecame(g, x, f, x, ts, now);
  }

  lemma OtherFieldBecame(g: Heap, f: Heap, x: Value, ts: seq<Type>, i: nat)
    requires |ts| == 3 && ts[2] == TSlice(POOL) && Typed(g, x, TStruct(ts)) && Unshared(g, x, TStruct(ts)) && i < 2
    requires x.fields[2].Ref? && |f| == |g| && forall a: nat :: a < |g| && a != x.fields[2].addr ==> f[a] == g[a]
    ensures Became(g, x.fields[i], f, x.fields[i], ts[i], View(g, x.fields[i], ts[i]))
  {
    assert Typed(g, x.fields[i], ts[i]) && Typed(g, x.fields[2], ts[2]);
    assert Apart(g, x.fields[i], ts[i], x.fields[2], ts[2]);
    assert Reaches(g, x.fields[2], ts[2], x.fields[2].addr);
    TypedBound(g, x.fields[i], ts[i]);
    Frame(g, f, x.fields[i], ts[i]);
  }

  // cr.Spec.ForProvider.DeepCopy(), and then NodePools[index].NodeTemplateID = id through the copy if there is such a
  // pool: the result is a copy with the id set there, all of it in new cells, and the source looks as it did. (The
  // scalars of a pool are one field here, and the id stands for all of them.)
  method CopyAndResolve(m: Memory, src: Value, index: nat, id: string) returns (out: Value)
    requires Typed(m.cells, src, TPtr(TypeOf(ClusterParameters))) && src != Nil
    modifies m
    ensures var t := TPtr(TypeOf(ClusterParameters));
      && View(m.cells, src, t) == View(old(m.cells), src, t)
      && Typed(m.cells, out, t)
      && View(m.cells, out, t) == ParametersWith(View(old(m.cells), src, t), index, id)
      && forall a: nat :: Reaches(m.cells, out, t, a) ==> |old(m.cells)| <= a
  {
    ghost var h, t := m.cells, TPtr(TypeOf(ClusterParameters));
    out := m.DeepCopy(ClusterParameters, src);
    ghost var g := m.cells;
    PoolsField(g, out);
    var pools := Load(m.cells, Pointer(out.addr, out.from, [2]));
    if pools != Nil && index < pools.len {
      PoolScalars(m.cells, pools, index);
      ParametersBecame(g, out, index, id);
      m.Assign(TemplatePointer(pools, index), Plain(id));
    } else {
      PoolsSame(g, out, index, id);
    }
    TypedBound(h, src, t);
    PoolsReached(g, out);
    Frame(h, m.cells, src, t);
  }

  lemma PoolsReached(g: Heap, v: Value)
    requires Typed(g, v, TPtr(TypeOf(ClusterParameters))) && v.Ref?
    ensures Deref(g, v).Struct? && |Deref(g, v).fields| == 3
    ensures var pools := Deref(g, v).fields[2];
      pools.Ref? ==> Reaches(g, v, TPtr(TypeOf(ClusterParameters)), pools.addr)
  {
    ParametersType();
    var x, ts := Deref(g, v), TypeOf(ClusterParameters).fields;
    assert Typed(g, x.fields[2], ts[2]);
    if x.fields[2].Ref? {
      assert Reaches(g, x.fields[2], ts[2], x.fields[2].addr);
      assert Reaches(g, x, TypeOf(ClusterParameters), x.fields[2].addr);
    }
  }

  lemma PoolsSame(g: Heap, v: Value, index: nat, id: string)
    requires Typed(g, v, TPtr(TypeOf(ClusterParameters))) && v.Ref? && v.path == []
    requires var pools := Deref(g, v).fields[2]; pools == Nil || pools.len <= index
    ensures var t := TPtr(TypeOf(ClusterParameters)); ParametersWith(View(g, v, t), index, id) == View(g, v, t)
  {
    ParametersType();
    var x, ts := Deref(g, v), TypeOf(ClusterParameters).fields;
    var fs := View(g, x, TypeOf(ClusterParameters)).fields;
    assert fs[2] == View(g, x.fields[2], ts[2]);
    assert fs[2 := PoolsWith(fs[2], index, id)] == fs;
  }
}
