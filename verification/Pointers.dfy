// Pointers to variables: a slot of a cell, or a field nested inside one, as in &out.Services.Etcd.
module Pointers {
  import opened GoMemory

  datatype Pointer = Pointer(addr: nat, index: nat, path: seq<nat>) {
    function Field(k: nat): Pointer { this.(path := path + [k]) }
  }

  function Put(v: Value, path: seq<nat>, w: Value): (r: Value)
    requires HasPath(v, path)
    ensures HasPath(r, path) && Get(r, path) == w
    decreases |path|
  {
    if path == [] then w
    else v.(fields := v.fields[path[0] := Put(v.fields[path[0]], path[1..], w)])
  }

  lemma {:induction false} PutTwice(v: Value, path: seq<nat>, w: Value, u: Value)
    requires HasPath(v, path)
    ensures Put(Put(v, path, w), path, u) == Put(v, path, u)
    decreases |path|
  {
    if path != [] {
      PutTwice(v.fields[path[0]], path[1..], w, u);
    }
  }

  lemma {:induction false} PutBack(v: Value, path: seq<nat>)
    requires HasPath(v, path)
    ensures Put(v, path, Get(v, path)) == v
    decreases |path|
  {
    if path != [] {
      PutBack(v.fields[path[0]], path[1..]);
    }
  }

  lemma {:induction false} FieldPath(v: Value, path: seq<nat>, k: nat, w: Value)
    requires HasPath(v, path) && Get(v, path).Struct? && k < |Get(v, path).fields|
    ensures HasPath(v, path + [k]) && Get(v, path + [k]) == Get(v, path).fields[k]
    ensures Put(v, path + [k], w) == Put(v, path, Struct(Get(v, path).fields[k := w]))
    decreases |path|
  {
    if path == [] {
      assert [k][1..] == [];
    } else {
      assert (path + [k])[1..] == path[1..] + [k];
      FieldPath(v.fields[path[0]], path[1..], k, w);
    }
  }

  // Neither path leads to a part of what the other leads to.
  predicate Diverge(p: seq<nat>, q: seq<nat>)
    decreases |p|
  {
    p != [] && q != [] && (p[0] != q[0] || Diverge(p[1..], q[1..]))
  }

  lemma {:induction false} PutApart(v: Value, p: seq<nat>, q: seq<nat>, w: Value)
    requires HasPath(v, p) && HasPath(v, q) && Diverge(p, q)
    ensures HasPath(Put(v, q, w), p) && Get(Put(v, q, w), p) == Get(v, p)
    decreases |p|
  {
    if p[0] == q[0] {
      PutApart(v.fields[p[0]], p[1..], q[1..], w);
    }
  }

  lemma {:induction false} DivergeFurther(p: seq<nat>, q: seq<nat>, j: nat, k: nat)
    requires Diverge(p, q)
    ensures Diverge(p + [j], q + [k])
    decreases |p|
  {
    if p[0] == q[0] {
      assert (p + [j])[1..] == p[1..] + [j] && (q + [k])[1..] == q[1..] + [k];
      DivergeFurther(p[1..], q[1..], j, k);
    }
  }

  // Two variables, neither inside the other.
  predicate Separate(p: Pointer, q: Pointer) { p.addr != q.addr || p.index != q.index || Diverge(p.path, q.path) }

  // Sibling fields are separate, and so are fields of separate variables.
  lemma {:induction false} SiblingsDiverge(p: seq<nat>, i: nat, j: nat)
    requires i != j
    ensures Diverge(p + [i], p + [j])
    decreases |p|
  {
    if p != [] {
      assert (p + [i])[1..] == p[1..] + [i] && (p + [j])[1..] == p[1..] + [j];
      SiblingsDiverge(p[1..], i, j);
    }
  }

  lemma SeparateFields(p: Pointer, q: Pointer, j: nat, k: nat)
    requires Separate(p, q) || (p == q && j != k)
    ensures Separate(p.Field(j), q.Field(k))
  {
    if Diverge(p.path, q.path) {
      DivergeFurther(p.path, q.path, j, k);
    } else if p == q {
      SiblingsDiverge(p.path, j, k);
    }
  }

  predicate InBounds(h: Heap, p: Pointer) {
    p.addr < |h| && h[p.addr].Slots? && p.index < |h[p.addr].slots| && HasPath(h[p.addr].slots[p.index], p.path)
  }

  function Load(h: Heap, p: Pointer): Value
    requires InBounds(h, p)
  {
    Get(h[p.addr].slots[p.index], p.path)
  }

  function Store(h: Heap, p: Pointer, w: Value): (g: Heap)
    requires InBounds(h, p)
    ensures |g| == |h| && InBounds(g, p) && Load(g, p) == w
  {
    var s := h[p.addr].slots;
    h[p.addr := Slots(s[p.index := Put(s[p.index], p.path, w)])]
  }

  // g differs from h in what p points to and in cells allocated since, nothing else.
  ghost predicate Extends(h: Heap, p: Pointer, g: Heap)
    requires InBounds(h, p)
  {
    && |h| <= |g|
    && (forall a: nat :: a < |h| && a != p.addr ==> g[a] == h[a])
    && InBounds(g, p)
    && g[p.addr] == Store(h, p, Load(g, p))[p.addr]
  }

  // What is behind a separate pointer stays.
  lemma LoadStays(h: Heap, p: Pointer, out: Pointer, g: Heap)
    requires InBounds(h, p) && InBounds(h, out) && Separate(p, out) && Extends(h, out, g)
    ensures InBounds(g, p) && Load(g, p) == Load(h, p)
  {
    var s := h[out.addr].slots;
    assert g[out.addr] == Slots(s[out.index := Put(s[out.index], out.path, Load(g, out))]);
    if p.addr == out.addr && p.index == out.index {
      PutApart(s[p.index], p.path, out.path, Load(g, out));
    }
  }

  lemma FieldPointer(h: Heap, p: Pointer, k: nat, w: Value)
    requires InBounds(h, p) && Load(h, p).Struct? && k < |Load(h, p).fields|
    ensures InBounds(h, p.Field(k)) && Load(h, p.Field(k)) == Load(h, p).fields[k]
    ensures Store(h, p.Field(k), w) == Store(h, p, Struct(Load(h, p).fields[k := w]))
  {
    FieldPath(h[p.addr].slots[p.index], p.path, k, w);
  }

  lemma ExtendsField(h: Heap, p: Pointer, g: Heap, k: nat, f: Heap)
    requires InBounds(h, p) && Extends(h, p, g)
    requires Load(g, p).Struct? && k < |Load(g, p).fields|
    requires InBounds(g, p.Field(k)) && Extends(g, p.Field(k), f)
    ensures Extends(h, p, f)
    ensures Load(f, p) == Struct(Load(g, p).fields[k := Load(f, p.Field(k))])
  {
    var w := Load(f, p.Field(k));
    var u := Struct(Load(g, p).fields[k := w]);
    FieldPointer(g, p, k, w);
    assert f[p.addr] == Store(g, p, u)[p.addr];
    PutTwice(h[p.addr].slots[p.index], p.path, Load(g, p), u);
  }

  lemma ExtendsSame(h: Heap, p: Pointer)
    requires InBounds(h, p)
    ensures Extends(h, p, h) && Store(h, p, Load(h, p)) == h
  {
    PutBack(h[p.addr].slots[p.index], p.path);
  }
}
