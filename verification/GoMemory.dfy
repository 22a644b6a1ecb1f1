// The part of Go's memory that sharing is about: values, the cells that references lead to, and the types that say
// how a value is to be followed.
module GoMemory {
  // A struct holds its fields; a pointer, slice or map is Nil or a reference to a cell. A pointer leads to one slot of
  // the cell, or along a path of fields into it; a slice is a stretch of slots. Plain is any scalar.
  datatype Value =
    | Plain(text: string) | Nil | Ref(addr: nat, from: nat, len: nat, path: seq<nat>) | Struct(fields: seq<Value>)

  // What is behind a pointer (one slot) or a slice, and what is behind a map.
  datatype Cell = Slots(slots: seq<Value>) | Dict(entries: map<string, Value>)

  type Heap = seq<Cell>

  datatype Type = TPlain | TPtr(to: Type) | TSlice(of: Type) | TMap(val: Type) | TStruct(fields: seq<Type>)

  // What a value looks like when every reference is followed; nil is Absent and not the same as empty.
  datatype Tree =
    | Leaf(text: string) | Absent | Target(tree: Tree)
    | Items(items: seq<Tree>) | Entries(entries: map<string, Tree>) | Fields(fields: seq<Tree>)

  predicate HasPath(v: Value, path: seq<nat>)
    decreases |path|
  {
    path == [] || (v.Struct? && path[0] < |v.fields| && HasPath(v.fields[path[0]], path[1..]))
  }

  function Get(v: Value, path: seq<nat>): Value
    requires HasPath(v, path)
    decreases |path|
  {
    if path == [] then v else Get(v.fields[path[0]], path[1..])
  }

  predicate IsPtr(h: Heap, v: Value) {
    v.Ref? && v.addr < |h| && h[v.addr].Slots? && v.from < |h[v.addr].slots| && HasPath(h[v.addr].slots[v.from], v.path)
  }

  function Deref(h: Heap, v: Value): Value
    requires IsPtr(h, v)
  {
    Get(h[v.addr].slots[v.from], v.path)
  }

  predicate IsSlice(h: Heap, v: Value) {
    v.Ref? && v.addr < |h| && h[v.addr].Slots? && v.from + v.len <= |h[v.addr].slots|
  }

  function Elements(h: Heap, v: Value): (s: seq<Value>)
    requires IsSlice(h, v)
    ensures |s| == v.len
  {
    h[v.addr].slots[v.from..v.from + v.len]
  }

  // A reference to all of a cell.
  function Whole(a: nat, c: Cell): Value { Ref(a, 0, if c.Slots? then |c.slots| else 0, []) }

  predicate IsMap(h: Heap, v: Value) { v.Ref? && v.addr < |h| && h[v.addr].Dict? }

  ghost predicate Typed(h: Heap, v: Value, t: Type)
    decreases t
  {
    match t
    case TPlain => v.Plain?
    case TPtr(e) => v.Nil? || (IsPtr(h, v) && Typed(h, Deref(h, v), e))
    case TSlice(e) => v.Nil? || (IsSlice(h, v) && var s := Elements(h, v); forall i :: 0 <= i < |s| ==> Typed(h, s[i], e))
    case TMap(e) => v.Nil? || (IsMap(h, v) && var m := h[v.addr].entries; forall k :: k in m ==> Typed(h, m[k], e))
    case TStruct(ts) => v.Struct? && |v.fields| == |ts| && forall i :: 0 <= i < |ts| ==> Typed(h, v.fields[i], ts[i])
  }

  ghost function View(h: Heap, v: Value, t: Type): Tree
    decreases t
  {
    match t
    case TPlain => if v.Plain? then Leaf(v.text) else Absent
    case TPtr(e) => if IsPtr(h, v) then Target(View(h, Deref(h, v), e)) else Absent
    case TSlice(e) =>
      if !IsSlice(h, v) then Absent else
      var s := Elements(h, v);
      Items(seq(|s|, i requires 0 <= i < |s| => View(h, s[i], e)))
    case TMap(e) =>
      if !IsMap(h, v) then Absent else
      var m := h[v.addr].entries;
      Entries(map k | k in m :: View(h, m[k], e))
    case TStruct(ts) =>
      if !(v.Struct? && |v.fields| == |ts|) then Absent else
      Fields(seq(|ts|, i requires 0 <= i < |ts| => View(h, v.fields[i], ts[i])))
  }

  // Following v leads through cell a.
  ghost predicate Reaches(h: Heap, v: Value, t: Type, a: nat)
    decreases t
  {
    match t
    case TPlain => false
    case TPtr(e) => IsPtr(h, v) && (a == v.addr || Reaches(h, Deref(h, v), e, a))
    case TSlice(e) => IsSlice(h, v) && (a == v.addr ||
      var s := Elements(h, v); exists i :: 0 <= i < |s| && Reaches(h, s[i], e, a))
    case TMap(e) => IsMap(h, v) && (a == v.addr ||
      var m := h[v.addr].entries; exists k :: k in m && Reaches(h, m[k], e, a))
    case TStruct(ts) => v.Struct? && |v.fields| == |ts| && exists i :: 0 <= i < |ts| && Reaches(h, v.fields[i], ts[i], a)
  }

  // No cell is reached from both.
  ghost predicate Apart(h: Heap, v: Value, t: Type, w: Value, u: Type)
  {
    forall a: nat :: !(Reaches(h, v, t, a) && Reaches(h, w, u, a))
  }

  // No cell is reached from v in two ways: the graph below v is a tree.
  ghost predicate Unshared(h: Heap, v: Value, t: Type)
    decreases t
  {
    match t
    case TPlain => true
    case TPtr(e) => IsPtr(h, v) ==>
        !Reaches(h, Deref(h, v), e, v.addr) && Unshared(h, Deref(h, v), e)
    case TSlice(e) => IsSlice(h, v) ==>
        var s := Elements(h, v);
        && (forall i :: 0 <= i < |s| ==> !Reaches(h, s[i], e, v.addr) && Unshared(h, s[i], e))
        && (forall i, j :: 0 <= i < j < |s| ==> Apart(h, s[i], e, s[j], e))
    case TMap(e) => IsMap(h, v) ==>
        var m := h[v.addr].entries;
        && (forall k :: k in m ==> !Reaches(h, m[k], e, v.addr) && Unshared(h, m[k], e))
        && (forall k, l :: k in m && l in m && k != l ==> Apart(h, m[k], e, m[l], e))
    case TStruct(ts) => v.Struct? && |v.fields| == |ts| ==>
        && (forall i :: 0 <= i < |ts| ==> Unshared(h, v.fields[i], ts[i]))
        && (forall i, j :: 0 <= i < j < |ts| ==> Apart(h, v.fields[i], ts[i], v.fields[j], ts[j]))
  }

  // The cells v reaches are the same in both heaps.
  ghost predicate Agree(h: Heap, g: Heap, v: Value, t: Type)
  {
    forall a: nat :: Reaches(h, v, t, a) ==> a < |h| && a < |g| && g[a] == h[a]
  }

  // What a value looks like in g is what it looked like in h.
  ghost predicate Looks(h: Heap, g: Heap, v: Value, t: Type)
  {
    && Typed(g, v, t) && View(g, v, t) == View(h, v, t)
    && (forall a: nat :: Reaches(g, v, t, a) == Reaches(h, v, t, a))
  }

  // A value keeps its look when the cells it reaches keep their contents.
  lemma {:induction false} Frame(h: Heap, g: Heap, v: Value, t: Type)
    requires Typed(h, v, t) && Agree(h, g, v, t)
    ensures Looks(h, g, v, t)
    decreases t, 1
  {
    if v.Ref? && !t.TPlain? && !t.TStruct? {
      assert Reaches(h, v, t, v.addr);
    }
    match t
    case TPlain =>
    case TPtr(e) => if v.Ref? { FramePart(h, g, v, t, Deref(h, v), e); }
    case TSlice(e) => if v.Ref? { FrameSlice(h, g, v, e); }
    case TMap(e) => if v.Ref? { FrameMap(h, g, v, e); }
    case TStruct(ts) => FrameStruct(h, g, v, ts);
  }

  lemma {:induction false} FramePart(h: Heap, g: Heap, v: Value, t: Type, w: Value, e: Type)
    requires Agree(h, g, v, t) && Typed(h, w, e)
    requires forall a: nat :: Reaches(h, w, e, a) ==> Reaches(h, v, t, a)
    ensures Looks(h, g, w, e)
    decreases e, 2
  {
    Frame(h, g, w, e);
  }

  lemma {:induction false} FrameSlice(h: Heap, g: Heap, v: Value, e: Type)
    requires v.Ref? && Typed(h, v, TSlice(e)) && Agree(h, g, v, TSlice(e)) && v.addr < |g| && g[v.addr] == h[v.addr]
    ensures Looks(h, g, v, TSlice(e))
    decreases TSlice(e), 0
  {
    var s := Elements(h, v);
    forall i | 0 <= i < |s| ensures Looks(h, g, s[i], e) {
      FramePart(h, g, v, TSlice(e), s[i], e);
    }
    assert View(g, v, TSlice(e)).items == View(h, v, TSlice(e)).items;
  }

  lemma {:induction false} FrameMap(h: Heap, g: Heap, v: Value, e: Type)
    requires v.Ref? && Typed(h, v, TMap(e)) && Agree(h, g, v, TMap(e)) && v.addr < |g| && g[v.addr] == h[v.addr]
    ensures Looks(h, g, v, TMap(e))
    decreases TMap(e), 0
  {
    var m := h[v.addr].entries;
    forall k | k in m ensures Looks(h, g, m[k], e) {
      FramePart(h, g, v, TMap(e), m[k], e);
    }
    assert View(g, v, TMap(e)).entries == View(h, v, TMap(e)).entries;
  }

  lemma {:induction false} FrameStruct(h: Heap, g: Heap, v: Value, ts: seq<Type>)
    requires Typed(h, v, TStruct(ts)) && Agree(h, g, v, TStruct(ts))
    ensures Looks(h, g, v, TStruct(ts))
    decreases TStruct(ts), 0
  {
    forall i | 0 <= i < |ts| ensures Looks(h, g, v.fields[i], ts[i]) {
      FramePart(h, g, v, TStruct(ts), v.fields[i], ts[i]);
    }
    assert View(g, v, TStruct(ts)).fields == View(h, v, TStruct(ts)).fields;
  }

  // Values that share nothing still share nothing.
  lemma {:induction false} FrameUnshared(h: Heap, g: Heap, v: Value, t: Type)
    requires Typed(h, v, t) && Agree(h, g, v, t) && Unshared(h, v, t)
    ensures Unshared(g, v, t)
    decreases t, 1
  {
    if v.Ref? && !t.TPlain? && !t.TStruct? {
      assert Reaches(h, v, t, v.addr);
    }
    match t
    case TPlain =>
    case TPtr(e) => if v.Ref? { FrameUnsharedPart(h, g, v, t, Deref(h, v), e); }
    case TSlice(e) => if v.Ref? { FrameUnsharedSlice(h, g, v, e); }
    case TMap(e) => if v.Ref? { FrameUnsharedMap(h, g, v, e); }
    case TStruct(ts) => FrameUnsharedStruct(h, g, v, ts);
  }

  ghost predicate SameUnshared(h: Heap, g: Heap, w: Value, e: Type) {
    Unshared(g, w, e) && forall a: nat :: Reaches(g, w, e, a) == Reaches(h, w, e, a)
  }

  lemma {:induction false} FrameUnsharedPart(h: Heap, g: Heap, v: Value, t: Type, w: Value, e: Type)
    requires Agree(h, g, v, t) && Typed(h, w, e) && Unshared(h, w, e)
    requires forall a: nat :: Reaches(h, w, e, a) ==> Reaches(h, v, t, a)
    ensures SameUnshared(h, g, w, e)
    decreases e, 2
  {
    Frame(h, g, w, e);
    FrameUnshared(h, g, w, e);
  }

  lemma {:induction false} FrameUnsharedSlice(h: Heap, g: Heap, v: Value, e: Type)
    requires v.Ref? && Typed(h, v, TSlice(e)) && Agree(h, g, v, TSlice(e)) && v.addr < |g| && g[v.addr] == h[v.addr]
    requires Unshared(h, v, TSlice(e))
    ensures Unshared(g, v, TSlice(e))
    decreases TSlice(e), 0
  {
    var s := Elements(h, v);
    forall i | 0 <= i < |s| ensures SameUnshared(h, g, s[i], e) {
      FrameUnsharedPart(h, g, v, TSlice(e), s[i], e);
    }
    forall i, j | 0 <= i < j < |s| ensures Apart(g, s[i], e, s[j], e) {
      assert SameUnshared(h, g, s[i], e) && SameUnshared(h, g, s[j], e) && Apart(h, s[i], e, s[j], e);
    }
  }

  lemma {:induction false} FrameUnsharedMap(h: Heap, g: Heap, v: Value, e: Type)
    requires v.Ref? && Typed(h, v, TMap(e)) && Agree(h, g, v, TMap(e)) && v.addr < |g| && g[v.addr] == h[v.addr]
    requires Unshared(h, v, TMap(e))
    ensures Unshared(g, v, TMap(e))
    decreases TMap(e), 0
  {
    var m := h[v.addr].entries;
    forall k | k in m ensures SameUnshared(h, g, m[k], e) {
      FrameUnsharedPart(h, g, v, TMap(e), m[k], e);
    }
    forall k, l | k in m && l in m && k != l ensures Apart(g, m[k], e, m[l], e) {
      assert SameUnshared(h, g, m[k], e) && SameUnshared(h, g, m[l], e) && Apart(h, m[k], e, m[l], e);
    }
  }

  lemma {:induction false} FrameUnsharedStruct(h: Heap, g: Heap, v: Value, ts: seq<Type>)
    requires Typed(h, v, TStruct(ts)) && Agree(h, g, v, TStruct(ts)) && Unshared(h, v, TStruct(ts))
    ensures Unshared(g, v, TStruct(ts))
    decreases TStruct(ts), 0
  {
    var s := v.fields;
    forall i | 0 <= i < |ts| ensures SameUnshared(h, g, s[i], ts[i]) {
      FrameUnsharedPart(h, g, v, TStruct(ts), s[i], ts[i]);
    }
    forall i, j | 0 <= i < j < |ts| ensures Apart(g, s[i], ts[i], s[j], ts[j]) {
      assert SameUnshared(h, g, s[i], ts[i]) && SameUnshared(h, g, s[j], ts[j]) && Apart(h, s[i], ts[i], s[j], ts[j]);
    }
  }

  // A typed value reaches allocated cells only.
  lemma {:induction false} TypedBound(h: Heap, v: Value, t: Type)
    requires Typed(h, v, t)
    ensures forall a: nat :: Reaches(h, v, t, a) ==> a < |h|
    decreases t
  {
    match t
    case TPlain =>
    case TPtr(e) => if v.Ref? { TypedBound(h, Deref(h, v), e); }
    case TSlice(e) => if v.Ref? {
        var s := Elements(h, v);
        forall i | 0 <= i < |s| ensures forall a: nat :: Reaches(h, s[i], e, a) ==> a < |h| { TypedBound(h, s[i], e); } }
    case TMap(e) => if v.Ref? {
        var m := h[v.addr].entries;
        forall k | k in m ensures forall a: nat :: Reaches(h, m[k], e, a) ==> a < |h| { TypedBound(h, m[k], e); } }
    case TStruct(ts) =>
        forall i | 0 <= i < |ts| ensures forall a: nat :: Reaches(h, v.fields[i], ts[i], a) ==> a < |h| {
          TypedBound(h, v.fields[i], ts[i]);
        }
  }
}
