// What it means to be a deep copy, and what the code forms of the generator need to know about fresh cells.
module Copies {
  import opened GoMemory
  import opened Pointers

  // src may be copied to out: neither is inside the other, and nothing src leads to holds out.
  ghost predicate Ready(h: Heap, src: Pointer, out: Pointer, t: Type)
  {
    && InBounds(h, src) && InBounds(h, out)
    && Separate(src, out)
    && Typed(h, Load(h, src), t) && !Reaches(h, Load(h, src), t, out.addr)
  }

  // Value w in heap g is a deep copy of v in heap h, all of it in cells at or above base.
  ghost predicate IsCopy(h: Heap, v: Value, base: nat, g: Heap, w: Value, t: Type)
  {
    && Typed(g, w, t) && View(g, w, t) == View(h, v, t) && Unshared(g, w, t)
    && forall a: nat :: Reaches(g, w, t, a) ==> base <= a < |g|
  }

  // The first n of the values ws are deep copies that share no cell.
  ghost predicate Copies(h: Heap, vs: seq<Value>, base: nat, g: Heap, ws: seq<Value>, ts: seq<Type>, n: nat)
  {
    && |vs| == |ws| == |ts| && n <= |ts|
    && (forall i :: 0 <= i < n ==> IsCopy(h, vs[i], base, g, ws[i], ts[i]))
    && (forall i, j :: 0 <= i < j < n ==> Apart(g, ws[i], ts[i], ws[j], ts[j]))
  }

  // The cells from base on are still as they were.
  ghost predicate Keeps(base: nat, g: Heap, f: Heap)
  {
    |g| <= |f| && forall a: nat :: base <= a < |g| ==> f[a] == g[a]
  }

  lemma CopyStays(h: Heap, v: Value, base: nat, g: Heap, w: Value, t: Type, f: Heap)
    requires IsCopy(h, v, base, g, w, t) && Keeps(base, g, f)
    ensures IsCopy(h, v, base, f, w, t)
    ensures forall a: nat :: Reaches(f, w, t, a) == Reaches(g, w, t, a)
  {
    Frame(g, f, w, t);
    FrameUnshared(g, f, w, t);
  }

  lemma CopiesStep(h: Heap, vs: seq<Value>, base: nat, g: Heap, ws: seq<Value>, ts: seq<Type>, n: nat, f: Heap, w: Value)
    requires Copies(h, vs, base, g, ws, ts, n) && n < |ts| && base <= |g|
    requires Keeps(base, g, f)
    requires IsCopy(h, vs[n], |g|, f, w, ts[n])
    ensures Copies(h, vs, base, f, ws[n := w], ts, n + 1)
  {
    var us := ws[n := w];
    forall i | 0 <= i < n
      ensures IsCopy(h, vs[i], base, f, us[i], ts[i]) && Apart(f, us[i], ts[i], w, ts[n])
    {
      CopyStays(h, vs[i], base, g, ws[i], ts[i], f);
    }
    forall i, j | 0 <= i < j < n ensures Apart(f, us[i], ts[i], us[j], ts[j]) {
      CopyStays(h, vs[i], base, g, ws[i], ts[i], f);
      CopyStays(h, vs[j], base, g, ws[j], ts[j], f);
      assert Apart(g, ws[i], ts[i], ws[j], ts[j]);
    }
  }

  // From h to g, out became a deep copy of src, and nothing but out and new cells changed.
  ghost predicate Copied(h: Heap, src: Pointer, g: Heap, out: Pointer, t: Type)
    requires InBounds(h, src) && InBounds(h, out)
  {
    Extends(h, out, g) && IsCopy(h, Load(h, src), |h|, g, Load(g, out), t)
  }

  // The first n fields of out are deep copies, the rest are what the shallow copy left.
  ghost predicate Partial(h: Heap, src: Pointer, g: Heap, out: Pointer, ts: seq<Type>, n: nat)
  {
    && Ready(h, src, out, TStruct(ts)) && Extends(h, out, g)
    && var v, w := Load(h, src), Load(g, out);
    && w.Struct? && Copies(h, v.fields, |h|, g, w.fields, ts, n)
    && (forall i :: n <= i < |ts| ==> w.fields[i] == v.fields[i])
  }

  lemma Begin(h: Heap, src: Pointer, out: Pointer, ts: seq<Type>)
    requires Ready(h, src, out, TStruct(ts))
    ensures Partial(h, src, Store(h, out, Load(h, src)), out, ts, 0)
  {
  }

  lemma Finish(h: Heap, src: Pointer, g: Heap, out: Pointer, ts: seq<Type>)
    requires Partial(h, src, g, out, ts, |ts|)
    ensures Copied(h, src, g, out, TStruct(ts))
  {
    var v, w, t := Load(h, src), Load(g, out), TStruct(ts);
    assert View(g, w, t).fields == View(h, v, t).fields;
  }

  lemma SourceStays(h: Heap, src: Pointer, g: Heap, out: Pointer, t: Type)
    requires Ready(h, src, out, t) && Extends(h, out, g)
    ensures InBounds(g, src) && Load(g, src) == Load(h, src) && Looks(h, g, Load(h, src), t)
  {
    LoadStays(h, src, out, g);
    var v := Load(h, src);
    TypedBound(h, v, t);
    Frame(h, g, v, t);
  }

  lemma FieldReady(h: Heap, src: Pointer, g: Heap, out: Pointer, ts: seq<Type>, n: nat)
    requires Partial(h, src, g, out, ts, n) && n < |ts|
    ensures Ready(g, src.Field(n), out.Field(n), ts[n])
    ensures Load(g, src.Field(n)) == Load(g, out.Field(n)) == Load(h, src).fields[n]
    ensures View(g, Load(g, src.Field(n)), ts[n]) == View(h, Load(h, src).fields[n], ts[n])
  {
    SourceStays(h, src, g, out, TStruct(ts));
    FieldPointer(g, src, n, Nil);
    FieldPointer(g, out, n, Nil);
    SeparateFields(src, out, n, n);
    var v, t := Load(h, src), TStruct(ts);
    assert View(g, v, t).fields[n] == View(h, v, t).fields[n];
    assert !Reaches(g, v, t, out.addr);
  }

  lemma Step(h: Heap, src: Pointer, g: Heap, f: Heap, out: Pointer, ts: seq<Type>, n: nat)
    requires Partial(h, src, g, out, ts, n) && n < |ts|
    requires Ready(g, src.Field(n), out.Field(n), ts[n]) && Copied(g, src.Field(n), f, out.Field(n), ts[n])
    ensures Partial(h, src, f, out, ts, n + 1)
  {
    FieldReady(h, src, g, out, ts, n);
    ExtendsField(h, out, g, n, f);
    CopiesStep(h, Load(h, src).fields, |h|, g, Load(g, out).fields, ts, n, f, Load(f, out.Field(n)));
  }

  // A leading scalar field is copied by the shallow copy.
  lemma ScalarStep(h: Heap, src: Pointer, g: Heap, out: Pointer, ts: seq<Type>)
    requires Partial(h, src, g, out, ts, 0) && ts != [] && ts[0] == TPlain
    ensures Partial(h, src, g, out, ts, 1)
  {
    var x := Load(h, src).fields[0];
    assert Typed(h, x, ts[0]) && x == Load(g, out).fields[0];
    assert IsCopy(h, x, |h|, g, x, TPlain);
  }

  // What a fresh cell must hold to be a copy of scalars.
  ghost function LeafCell(h: Heap, v: Value, t: Type): Cell
    requires t == TPtr(TPlain) || t == TSlice(TPlain) || t == TMap(TPlain)
    requires v.Ref? && Typed(h, v, t)
  {
    if t.TPtr? then Slots([Deref(h, v)]) else if t.TSlice? then Slots(Elements(h, v)) else h[v.addr]
  }

  lemma LeafCopied(h: Heap, src: Pointer, g: Heap, out: Pointer, t: Type)
    requires t == TPtr(TPlain) || t == TSlice(TPlain) || t == TMap(TPlain)
    requires Ready(h, src, out, t) && Load(h, src).Ref? && Extends(h, out, g)
    requires |h| < |g| && Load(g, out) == Whole(|h|, g[|h|]) && g[|h|] == LeafCell(h, Load(h, src), t)
    ensures Copied(h, src, g, out, t)
  {
    LeafIsCopy(h, Load(h, src), g, t);
  }

  lemma LeafIsCopy(h: Heap, v: Value, g: Heap, t: Type)
    requires t == TPtr(TPlain) || t == TSlice(TPlain) || t == TMap(TPlain)
    requires v.Ref? && Typed(h, v, t) && |h| < |g| && g[|h|] == LeafCell(h, v, t)
    ensures IsCopy(h, v, |h|, g, Whole(|h|, g[|h|]), t)
  {
    hide Agree;
    var w := Whole(|h|, g[|h|]);
    if t.TSlice? {
      assert Elements(g, w) == Elements(h, v);
      assert View(g, w, t).items == View(h, v, t).items;
    } else if t.TMap? {
      assert View(g, w, t).entries == View(h, v, t).entries;
    }
  }

  lemma NilCopied(h: Heap, src: Pointer, out: Pointer, t: Type)
    requires Ready(h, src, out, t) && Load(h, src) == Load(h, out) == Nil
    ensures Copied(h, src, h, out, t)
  {
    ExtendsSame(h, out);
  }

  // out refers to a fresh cell, and nothing else has changed
  ghost predicate Renewed(h: Heap, src: Pointer, g: Heap, out: Pointer, t: Type)
  {
    && Ready(h, src, out, t) && Load(h, src).Ref? && !t.TPlain?
    && Extends(h, out, g) && |h| < |g| && Load(g, out) == Whole(|h|, g[|h|])
  }

  // The cells a value hangs on to are the same in g, and are not the fresh one.
  lemma PartReady(h: Heap, src: Pointer, g: Heap, out: Pointer, t: Type, w: Value, e: Type)
    requires Renewed(h, src, g, out, t) && Typed(h, w, e)
    requires forall a: nat :: Reaches(h, w, e, a) ==> Reaches(h, Load(h, src), t, a)
    ensures Looks(h, g, w, e) && !Reaches(g, w, e, |h|)
  {
    TypedBound(h, Load(h, src), t);
    Frame(h, g, w, e);
  }

  lemma PointeeReady(h: Heap, src: Pointer, g: Heap, out: Pointer, e: Type)
    requires Renewed(h, src, g, out, TPtr(e)) && g[|h|].Slots? && |g[|h|].slots| == 1
    ensures var v := Load(h, src);
      var x, y := Pointer(v.addr, v.from, v.path), Pointer(|h|, 0, []);
      && Ready(g, x, y, e)
      && View(g, Load(g, x), e) == View(h, Deref(h, v), e)
  {
    PartReady(h, src, g, out, TPtr(e), Deref(h, Load(h, src)), e);
  }

  lemma PointeeCopied(h: Heap, src: Pointer, g: Heap, f: Heap, out: Pointer, e: Type)
    requires Renewed(h, src, g, out, TPtr(e)) && g[|h|].Slots? && |g[|h|].slots| == 1
    requires |g| == |h| + 1
    requires var v := Load(h, src);
      var x, y := Pointer(v.addr, v.from, v.path), Pointer(|h|, 0, []);
      && Ready(g, x, y, e) && Copied(g, x, f, y, e)
      && View(g, Load(g, x), e) == View(h, Deref(h, v), e)
    ensures Copied(h, src, f, out, TPtr(e))
  {
  }

  // Slices of structs

  function Repeat(t: Type, n: nat): seq<Type> { seq(n, _ => t) }

  ghost predicate SlotsDone(h: Heap, src: Pointer, g: Heap, out: Pointer, e: Type, n: nat)
  {
    && Renewed(h, src, g, out, TSlice(e)) && g[|h|].Slots?
    && var s := Elements(h, Load(h, src));
    && Copies(h, s, |h| + 1, g, g[|h|].slots, Repeat(e, |s|), n)
  }

  lemma SlotReady(h: Heap, src: Pointer, g: Heap, out: Pointer, e: Type, n: nat)
    requires SlotsDone(h, src, g, out, e, n) && n < |g[|h|].slots|
    ensures var v := Load(h, src);
      var x, y := Pointer(v.addr, v.from + n, []), Pointer(|h|, n, []);
      && Ready(g, x, y, e)
      && View(g, Load(g, x), e) == View(h, Elements(h, v)[n], e)
  {
    PartReady(h, src, g, out, TSlice(e), Elements(h, Load(h, src))[n], e);
  }

  lemma SlotStep(h: Heap, src: Pointer, g: Heap, f: Heap, out: Pointer, e: Type, n: nat)
    requires SlotsDone(h, src, g, out, e, n) && n < |g[|h|].slots|
    requires var v := Load(h, src);
      var x, y := Pointer(v.addr, v.from + n, []), Pointer(|h|, n, []);
      Ready(g, x, y, e) && Copied(g, x, f, y, e)
    ensures SlotsDone(h, src, f, out, e, n + 1)
  {
    SlotReady(h, src, g, out, e, n);
    var s := Elements(h, Load(h, src));
    CopiesStep(h, s, |h| + 1, g, g[|h|].slots, Repeat(e, |s|), n, f, Load(f, Pointer(|h|, n, [])));
    assert f[|h|].slots == g[|h|].slots[n := Load(f, Pointer(|h|, n, []))];
  }

  lemma SlotsCopied(h: Heap, src: Pointer, g: Heap, out: Pointer, e: Type, n: nat)
    requires SlotsDone(h, src, g, out, e, n) && n == |g[|h|].slots|
    ensures Copied(h, src, g, out, TSlice(e))
  {
    var t := TSlice(e);
    var v, w := Load(h, src), Whole(|h|, g[|h|]);
    var s, r := Elements(h, v), g[|h|].slots;
    assert Elements(g, w) == r;
    assert forall i :: 0 <= i < |s| ==> IsCopy(h, s[i], |h| + 1, g, r[i], Repeat(e, |s|)[i]);
    assert View(g, w, t).items == View(h, v, t).items;
  }

  // Maps whose values are structs or slices

  // The values of r are deep copies of those m has under the same keys, and share no cell.
  ghost predicate CopiedEntries(h: Heap, m: map<string, Value>, base: nat, g: Heap, r: map<string, Value>, e: Type)
  {
    && (forall k :: k in r ==> k in m && IsCopy(h, m[k], base, g, r[k], e))
    && (forall k, l :: k in r && l in r && k != l ==> Apart(g, r[k], e, r[l], e))
  }

  lemma {:induction false} CopiedEntriesStay(h: Heap, m: map<string, Value>, base: nat, g: Heap, r: map<string, Value>,
                                             e: Type, f: Heap)
    requires CopiedEntries(h, m, base, g, r, e) && Keeps(base, g, f)
    ensures CopiedEntries(h, m, base, f, r, e)
    ensures forall k, a: nat :: k in r ==> Reaches(f, r[k], e, a) == Reaches(g, r[k], e, a)
  {
    forall k | k in r
      ensures IsCopy(h, m[k], base, f, r[k], e) && forall a: nat :: Reaches(f, r[k], e, a) == Reaches(g, r[k], e, a)
    {
      CopyStays(h, m[k], base, g, r[k], e, f);
    }
    forall k, l | k in r && l in r && k != l ensures Apart(f, r[k], e, r[l], e) {
      assert Apart(g, r[k], e, r[l], e);
    }
  }

  // A copy made later shares nothing with one made before.
  lemma LaterApart(h: Heap, v: Value, base: nat, g: Heap, x: Value, e: Type, f: Heap, u: Value, w: Value)
    requires IsCopy(h, v, base, g, x, e) && Keeps(base, g, f) && IsCopy(h, u, |g|, f, w, e)
    ensures Apart(f, x, e, w, e)
  {
    CopyStays(h, v, base, g, x, e, f);
  }

  lemma {:induction false} CopiedEntriesStep(h: Heap, m: map<string, Value>, base: nat, g: Heap, r: map<string, Value>,
                                             e: Type, f: Heap, key: string, w: Value)
    requires CopiedEntries(h, m, base, g, r, e) && Keeps(base, g, f) && base <= |g|
    requires key in m && key !in r && IsCopy(h, m[key], |g|, f, w, e)
    ensures CopiedEntries(h, m, base, f, r[key := w], e)
  {
    hide Agree;
    var t := r[key := w];
    forall k | k in t ensures k in m && IsCopy(h, m[k], base, f, t[k], e) {
      if k != key {
        CopyStays(h, m[k], base, g, r[k], e, f);
      }
    }
    forall k, l | k in t && l in t && k != l ensures Apart(f, t[k], e, t[l], e) {
      if k == key {
        LaterApart(h, m[l], base, g, r[l], e, f, m[key], w);
      } else if l == key {
        LaterApart(h, m[k], base, g, r[k], e, f, m[key], w);
      } else {
        CopiedEntriesStay(h, m, base, g, r, e, f);
      }
    }
  }

  ghost predicate EntriesDone(h: Heap, src: Pointer, g: Heap, out: Pointer, e: Type, todo: set<string>)
  {
    && Renewed(h, src, g, out, TMap(e)) && g[|h|].Dict?
    && var m, r := h[Load(h, src).addr].entries, g[|h|].entries;
    && todo <= m.Keys && r.Keys == m.Keys - todo
    && CopiedEntries(h, m, |h| + 1, g, r, e)
  }

  // A local variable pair in a cell of its own: the loop variable val and what is made of it.
  lemma EntryReady(h: Heap, src: Pointer, g: Heap, out: Pointer, e: Type, todo: set<string>, key: string, f: Heap)
    requires EntriesDone(h, src, g, out, e, todo) && key in todo
    requires f == g + [Slots([h[Load(h, src).addr].entries[key], Nil])]
    ensures Ready(f, Pointer(|g|, 0, []), Pointer(|g|, 1, []), e)
    ensures View(f, h[Load(h, src).addr].entries[key], e) == View(h, h[Load(h, src).addr].entries[key], e)
    ensures EntriesDone(h, src, f, out, e, todo)
  {
    var w := h[Load(h, src).addr].entries[key];
    assert EntriesDone(h, src, f, out, e, todo) by { EntriesStay(h, src, g, f, out, e, todo); }
    PartReady(h, src, f, out, TMap(e), w, e);
    TypedBound(h, w, e);
  }

  lemma EntriesStay(h: Heap, src: Pointer, g: Heap, f: Heap, out: Pointer, e: Type, todo: set<string>)
    requires EntriesDone(h, src, g, out, e, todo)
    requires |g| <= |f| && forall a: nat :: a < |g| ==> f[a] == g[a]
    ensures EntriesDone(h, src, f, out, e, todo)
  {
    CopiedEntriesStay(h, h[Load(h, src).addr].entries, |h| + 1, g, g[|h|].entries, e, f);
  }

  lemma RenewedStays(h: Heap, src: Pointer, g: Heap, f: Heap, out: Pointer, t: Type)
    requires Renewed(h, src, g, out, t)
    requires |g| <= |f| && forall a: nat :: a < |g| && a != |h| ==> f[a] == g[a]
    requires Whole(|h|, f[|h|]) == Whole(|h|, g[|h|])
    ensures Renewed(h, src, f, out, t)
  {
  }

  lemma EntryStep(h: Heap, src: Pointer, g: Heap, out: Pointer, e: Type, todo: set<string>, key: string, f: Heap, w: Value)
    requires EntriesDone(h, src, g, out, e, todo) && key in todo
    requires |g| <= |f| && forall a: nat :: a < |g| && a != |h| ==> f[a] == g[a]
    requires f[|h|] == Dict(g[|h|].entries[key := w])
    requires IsCopy(h, h[Load(h, src).addr].entries[key], |g|, f, w, e)
    ensures EntriesDone(h, src, f, out, e, todo - {key})
  {
    hide CopiedEntries;
    var m, r := h[Load(h, src).addr].entries, g[|h|].entries;
    RenewedStays(h, src, g, f, out, TMap(e));
    CopiedEntriesStep(h, m, |h| + 1, g, r, e, f, key, w);
    assert r[key := w].Keys == m.Keys - (todo - {key});
  }

  // The value made in the variable pair, the last cell of g, is what goes into the entry.
  lemma EntryMade(h: Heap, v: Value, base: nat, g: Heap, f: Heap, e: Type, a: nat, d: Cell)
    requires |g| == base + 1 && View(g, v, e) == View(h, v, e)
    requires InBounds(g, Pointer(base, 0, [])) && InBounds(g, Pointer(base, 1, [])) && Load(g, Pointer(base, 0, [])) == v
    requires Copied(g, Pointer(base, 0, []), f, Pointer(base, 1, []), e)
    requires a < base
    ensures IsCopy(h, v, base, f[a := d], Load(f, Pointer(base, 1, [])), e)
  {
    CopyStays(g, v, |g|, f, Load(f, Pointer(base, 1, [])), e, f[a := d]);
  }

  lemma EntriesCopied(h: Heap, src: Pointer, g: Heap, out: Pointer, e: Type)
    requires EntriesDone(h, src, g, out, e, {})
    ensures Copied(h, src, g, out, TMap(e))
  {
    EntriesAreCopy(h, Load(h, src), g, e);
  }

  ghost predicate AllEntries(h: Heap, v: Value, g: Heap, e: Type) {
    && v.Ref? && Typed(h, v, TMap(e)) && |h| < |g| && g[|h|].Dict?
    && g[|h|].entries.Keys == h[v.addr].entries.Keys
    && CopiedEntries(h, h[v.addr].entries, |h| + 1, g, g[|h|].entries, e)
  }

  lemma EntriesLook(h: Heap, v: Value, g: Heap, e: Type)
    requires AllEntries(h, v, g, e)
    ensures var w := Whole(|h|, g[|h|]); Typed(g, w, TMap(e)) && View(g, w, TMap(e)) == View(h, v, TMap(e))
  {
    hide Agree, Unshared, Reaches;
    assert View(g, Whole(|h|, g[|h|]), TMap(e)).entries == View(h, v, TMap(e)).entries;
  }

  lemma EntriesApart(h: Heap, v: Value, g: Heap, e: Type)
    requires AllEntries(h, v, g, e)
    ensures var w := Whole(|h|, g[|h|]);
      Unshared(g, w, TMap(e)) && forall a: nat :: Reaches(g, w, TMap(e), a) ==> |h| <= a < |g|
  {
    hide Agree, View, Typed;
  }

  lemma EntriesAreCopy(h: Heap, v: Value, g: Heap, e: Type)
    requires AllEntries(h, v, g, e)
    ensures IsCopy(h, v, |h|, g, Whole(|h|, g[|h|]), TMap(e))
  {
    hide Agree, View, Typed, Unshared, Reaches, AllEntries;
    EntriesLook(h, v, g, e);
    EntriesApart(h, v, g, e);
  }

  // new(T) for a pointer that is copied whole

  lemma FreshReady(h: Heap, v: Value, g: Heap, e: Type)
    requires v.Ref? && Typed(h, v, TPtr(e)) && g == h + [Slots([Nil])]
    ensures var x, y := Pointer(v.addr, v.from, v.path), Pointer(|h|, 0, []);
      Ready(g, x, y, e) && View(g, Load(g, x), e) == View(h, Deref(h, v), e)
  {
    var w := Deref(h, v);
    TypedBound(h, w, e);
    assert Agree(h, g, w, e);
    Frame(h, g, w, e);
    assert Load(g, Pointer(v.addr, v.from, v.path)) == w;
  }

  lemma FreshCopied(h: Heap, v: Value, g: Heap, f: Heap, e: Type)
    requires v.Ref? && Typed(h, v, TPtr(e)) && g == h + [Slots([Nil])]
    requires var x, y := Pointer(v.addr, v.from, v.path), Pointer(|h|, 0, []);
      && Ready(g, x, y, e) && View(g, Load(g, x), e) == View(h, Deref(h, v), e)
      && Copied(g, x, f, y, e)
    ensures h <= f && IsCopy(h, v, |h|, f, Ref(|h|, 0, 1, []), TPtr(e))
  {
  }

  // Copying onto itself

  // The view of a struct with the entries of its maps gone.
  function Emptied(t: Tree): Tree {
    if t.Fields? then Fields(seq(|t.fields|, i requires 0 <= i < |t.fields| => EmptiedField(t.fields[i]))) else t
  }

  function EmptiedField(t: Tree): Tree { if t.Entries? then Entries(map[]) else t }

  predicate NoEntries(t: Tree) {
    t.Fields? ==> forall i :: 0 <= i < |t.fields| && t.fields[i].Entries? ==> t.fields[i].entries == map[]
  }

  lemma EmptiedSame(t: Tree)
    ensures Emptied(t) == t <==> NoEntries(t)
  {
    if t.Fields? {
      var s := Emptied(t).fields;
      assert |s| == |t.fields|;
      if NoEntries(t) {
        assert s == t.fields;
      } else {
        var i :| 0 <= i < |t.fields| && t.fields[i].Entries? && t.fields[i].entries != map[];
        assert s[i] != t.fields[i];
      }
    }
  }

  // p now refers to a fresh empty map, unless it was nil
  ghost predicate Cleared(h: Heap, p: Pointer, g: Heap)
    requires InBounds(h, p)
  {
    && Extends(h, p, g)
    && if Load(h, p) == Nil then Load(g, p) == Nil
       else Load(g, p) == Whole(|h|, Dict(map[])) && |h| < |g| && g[|h|] == Dict(map[])
  }

  lemma ClearedView(h: Heap, g: Heap, v: Value, w: Value)
    requires Typed(h, v, TMap(TPlain))
    requires if v == Nil then w == Nil else IsMap(g, w) && g[w.addr] == Dict(map[])
    ensures Typed(g, w, TMap(TPlain))
    ensures var t := View(h, v, TMap(TPlain)); View(g, w, TMap(TPlain)) == EmptiedField(t)
  {
  }

  const POOL: Type := TStruct([TPlain, TMap(TPlain), TMap(TPlain)])

  // One field of a struct is cleared.
  lemma ClearedField(h: Heap, p: Pointer, u: Heap, k: nat, g: Heap)
    requires InBounds(h, p) && Extends(h, p, u) && Load(u, p).Struct? && k < |Load(u, p).fields|
    requires InBounds(u, p.Field(k)) && Cleared(u, p.Field(k), g)
    ensures Extends(h, p, g) && |u| <= |g| && forall a: nat :: a < |u| && a != p.addr ==> g[a] == u[a]
    ensures var x := Load(u, p).fields;
      && Load(g, p) == Struct(x[k := if x[k] == Nil then Nil else Whole(|u|, Dict(map[]))])
      && (x[k] != Nil ==> |u| < |g| && g[|u|] == Dict(map[]))
  {
    FieldPointer(u, p, k, Nil);
    ExtendsField(h, p, u, k, g);
  }

  lemma ClearedPool(h: Heap, p: Pointer, g: Heap, f: Heap)
    requires InBounds(h, p) && Typed(h, Load(h, p), POOL)
    requires InBounds(h, p.Field(1)) && Cleared(h, p.Field(1), g)
    requires InBounds(g, p.Field(2)) && Cleared(g, p.Field(2), f)
    ensures Extends(h, p, f)
    ensures var v, w := Load(h, p).fields, Load(f, p);
      && w.Struct? && |w.fields| == 3 && w.fields[0] == v[0]
      && (forall i :: 1 <= i <= 2 ==>
        if v[i] == Nil then w.fields[i] == Nil else IsMap(f, w.fields[i]) && f[w.fields[i].addr] == Dict(map[]))
  {
    hide Cleared, Extends, View, Reaches;
    assert Load(h, p).Struct? && |Load(h, p).fields| == 3;
    ExtendsSame(h, p);
    ClearedField(h, p, h, 1, g);
    ClearedField(h, p, g, 2, f);
  }

  lemma ClearedPoolView(h: Heap, v: Value, g: Heap, w: Value, ts: seq<Type>)
    requires ts == [TPlain, TMap(TPlain), TMap(TPlain)] && Typed(h, v, TStruct(ts))
    requires w.Struct? && |w.fields| == 3 && w.fields[0] == v.fields[0]
    requires forall i :: 1 <= i <= 2 ==>
      if v.fields[i] == Nil then w.fields[i] == Nil else IsMap(g, w.fields[i]) && g[w.fields[i].addr] == Dict(map[])
    ensures Typed(g, w, TStruct(ts)) && View(g, w, TStruct(ts)) == Emptied(View(h, v, TStruct(ts)))
  {
    forall i | 0 <= i < 3 ensures Typed(g, w.fields[i], ts[i]) && View(g, w.fields[i], ts[i]) ==
                                  EmptiedField(View(h, v.fields[i], ts[i])) {
      assert Typed(h, v.fields[i], ts[i]);
      if i > 0 {
        ClearedView(h, g, v.fields[i], w.fields[i]);
      }
    }
    assert View(g, w, TStruct(ts)).fields == Emptied(View(h, v, TStruct(ts))).fields;
  }

  // The first map of a pool may be replaced, and after that the second.
  lemma PoolMaps(h: Heap, p: Pointer)
    requires InBounds(h, p) && Typed(h, Load(h, p), POOL)
    ensures forall k :: 1 <= k <= 2 ==> InBounds(h, p.Field(k)) && Typed(h, Load(h, p.Field(k)), TMap(TPlain))
  {
    forall k | 1 <= k <= 2 ensures InBounds(h, p.Field(k)) && Typed(h, Load(h, p.Field(k)), TMap(TPlain)) {
      FieldPointer(h, p, k, Nil);
      assert Typed(h, Load(h, p).fields[k], POOL.fields[k]);
    }
  }

  lemma SecondMap(h: Heap, p: Pointer, g: Heap)
    requires InBounds(h, p) && Typed(h, Load(h, p), POOL)
    requires InBounds(h, p.Field(1)) && Cleared(h, p.Field(1), g)
    ensures InBounds(g, p.Field(2)) && Typed(g, Load(g, p.Field(2)), TMap(TPlain))
  {
    ExtendsSame(h, p);
    FieldPointer(h, p, 1, Nil);
    ExtendsField(h, p, h, 1, g);
    FieldPointer(g, p, 2, Nil);
    FieldPointer(h, p, 2, Nil);
    assert Typed(h, Load(h, p).fields[2], POOL.fields[2]);
  }

  lemma PoolCleared(h: Heap, p: Pointer, g: Heap, f: Heap)
    requires InBounds(h, p) && Typed(h, Load(h, p), POOL)
    requires InBounds(h, p.Field(1)) && Cleared(h, p.Field(1), g)
    requires InBounds(g, p.Field(2)) && Cleared(g, p.Field(2), f)
    ensures Extends(h, p, f) && Typed(f, Load(f, p), POOL)
    ensures View(f, Load(f, p), POOL) == Emptied(View(h, Load(h, p), POOL))
  {
    ClearedPool(h, p, g, f);
    ClearedPoolView(h, Load(h, p), f, Load(f, p), POOL.fields);
  }
}
