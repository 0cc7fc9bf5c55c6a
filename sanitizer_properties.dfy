/**
 * What the sanitizer promises, proved about `VarsLimit.Sanitized`: scalars,
 * shape preservation for arrays and plain objects, the `[Circular]` cut, labels
 * for other objects, and that on an acyclic heap the `seen` bookkeeping changes
 * nothing, so a value shared by sibling positions is copied in full each time.
 */
module SanitizerProperties {
  import opened Common
  import opened Json
  import opened VarsLimit

  /** Primitives pass through; bigints and symbols become truncated strings; functions get an untruncated label. */
  lemma SanitizedScalars(h: Heap, v: Value, limit: nat, seen: set<Id>)
    requires WellFormed(h) && !v.Ref?
    ensures v.Null? ==> Sanitized(h, v, limit, seen) == LNull
    ensures v.Num? ==> Sanitized(h, v, limit, seen) == LNum(v.n)
    ensures v.Bool? ==> Sanitized(h, v, limit, seen) == LBool(v.b)
    ensures v.Undefined? ==> Sanitized(h, v, limit, seen) == LUndefined
    ensures v.Str? ==> Sanitized(h, v, limit, seen) == LStr(TruncateStringValue(v.s, limit))
    ensures v.BigInt? ==> Sanitized(h, v, limit, seen) == LStr(TruncateStringValue(DecimalString(v.i), limit))
    ensures v.Symbol? ==> Sanitized(h, v, limit, seen) == LStr(TruncateStringValue(SymbolToString(v.description), limit))
    ensures v.Function? ==> Sanitized(h, v, limit, seen) == LStr(FunctionLabel(v.name))
  {
  }

  /** A string longer than the limit comes back as exactly `limit + 4` characters ending in the marker. */
  lemma {:induction false} LongStringTruncated(h: Heap, s: string, limit: nat, seen: set<Id>)
    requires WellFormed(h) && |s| > limit
    ensures Sanitized(h, Str(s), limit, seen).LStr?
    ensures var r := Sanitized(h, Str(s), limit, seen).s;
      |r| == limit + 4 && r[..limit] == s[..limit] && r[limit..] == TRUNCATION_MARKER
  {
  }

  /** Element `k` of the pushed array is item `k` sanitized under the same `seen` set. */
  lemma {:induction false} SanitizedItemsAt(h: Heap, items: seq<Value>, limit: nat, seen: set<Id>)
    requires WellFormed(h) && forall i :: 0 <= i < |items| ==> RefsIn(items[i], h)
    ensures |SanitizedItems(h, items, limit, seen)| == |items|
    ensures forall k :: 0 <= k < |items| ==>
      SanitizedItems(h, items, limit, seen)[k] == Sanitized(h, items[k], limit, seen)
  {
    if items != [] {
      var n := |items| - 1;
      SanitizedItemsAt(h, items[..n], limit, seen);
      forall k | 0 <= k < n
        ensures SanitizedItems(h, items, limit, seen)[k] == Sanitized(h, items[k], limit, seen)
      {
        assert items[..n][k] == items[k];
      }
    }
  }

  /** Member `k` of the copied object is the `k`-th kept entry, its value sanitized. */
  lemma {:induction false} SanitizedEntriesAt(h: Heap, entries: seq<Entry>, limit: nat, seen: set<Id>)
    requires WellFormed(h) && forall i :: 0 <= i < |entries| ==> RefsIn(entries[i].value, h)
    ensures |SanitizedEntries(h, entries, limit, seen)| == |KeptEntries(entries)|
    ensures forall k :: 0 <= k < |KeptEntries(entries)| ==>
      SanitizedEntries(h, entries, limit, seen)[k]
        == Member(KeptEntries(entries)[k].key, Sanitized(h, KeptEntries(entries)[k].value, limit, seen))
  {
    if entries != [] {
      var n := |entries| - 1;
      SanitizedEntriesAt(h, entries[..n], limit, seen);
    }
  }

  /** Without a `__proto__` key every entry is kept, in order. */
  lemma {:induction false} KeptWithoutProtoKey(entries: seq<Entry>)
    requires forall i :: 0 <= i < |entries| ==> entries[i].key != PROTO_KEY
    ensures KeptEntries(entries) == entries
  {
    if entries != [] {
      var n := |entries| - 1;
      KeptWithoutProtoKey(entries[..n]);
      assert entries[..n] + [entries[n]] == entries;
    }
  }

  /** With distinct keys and `__proto__` at index `i`, the copy keeps every other entry, in order. */
  lemma {:induction false} KeptDropsProtoKey(entries: seq<Entry>, i: nat)
    requires DistinctKeys(entries) && i < |entries| && entries[i].key == PROTO_KEY
    ensures KeptEntries(entries) == entries[..i] + entries[i + 1..]
  {
    var n := |entries| - 1;
    var front := entries[..n];
    assert KeptEntries(entries)
      == KeptEntries(front) + (if entries[n].key == PROTO_KEY then [] else [entries[n]]);
    if i == n {
      forall j | 0 <= j < |front|
        ensures front[j].key != PROTO_KEY
      {
        assert entries[j].key != entries[n].key;
      }
      KeptWithoutProtoKey(front);
      assert entries[..i] == front && entries[i + 1..] == [];
    } else {
      forall j, k | 0 <= j < k < |front|
        ensures front[j].key != front[k].key
      {
        assert entries[j].key != entries[k].key;
      }
      KeptDropsProtoKey(front, i);
      assert entries[i].key != entries[n].key;
      assert front[..i] == entries[..i];
      assert front[i + 1..] + [entries[n]] == entries[i + 1..];
    }
  }

  /** An array not yet on the path becomes an array of the same length whose element `k` is item `k` sanitized. */
  lemma SanitizedArray(h: Heap, id: Id, limit: nat, seen: set<Id>)
    requires WellFormed(h) && id in h && h[id].ArrayObj? && id !in seen
    ensures Sanitized(h, Ref(id), limit, seen).LArray?
    ensures var out := Sanitized(h, Ref(id), limit, seen).items;
      |out| == |h[id].items|
      && forall k :: 0 <= k < |out| ==> out[k] == Sanitized(h, h[id].items[k], limit, seen + {id})
  {
    SanitizedItemsAt(h, h[id].items, limit, seen + {id});
  }

  /**
   * A plain object not yet on the path becomes an object whose members are its
   * entries other than `__proto__`, in order, each value sanitized; with no such
   * key the keys are exactly the object's keys.
   */
  lemma SanitizedPlainObject(h: Heap, id: Id, limit: nat, seen: set<Id>)
    requires WellFormed(h) && id in h && IsPlainObject(h, Ref(id)) && id !in seen
    ensures Sanitized(h, Ref(id), limit, seen).LObject?
    ensures var out := Sanitized(h, Ref(id), limit, seen).members;
      var kept := KeptEntries(h[id].entries);
      |out| == |kept|
      && forall k :: 0 <= k < |out| ==>
        out[k].key == kept[k].key && out[k].value == Sanitized(h, kept[k].value, limit, seen + {id})
    ensures (forall i :: 0 <= i < |h[id].entries| ==> h[id].entries[i].key != PROTO_KEY) ==>
      var out := Sanitized(h, Ref(id), limit, seen).members;
      |out| == |h[id].entries| && forall k :: 0 <= k < |out| ==> out[k].key == h[id].entries[k].key
  {
    assert Sanitized(h, Ref(id), limit, seen) == LObject(SanitizedEntries(h, h[id].entries, limit, seen + {id}));
    SanitizedEntriesAt(h, h[id].entries, limit, seen + {id});
    if forall i :: 0 <= i < |h[id].entries| ==> h[id].entries[i].key != PROTO_KEY {
      KeptWithoutProtoKey(h[id].entries);
    }
  }

  /** An array or plain object that is already on the recursion path yields `"[Circular]"`. */
  lemma SanitizedOnPath(h: Heap, id: Id, limit: nat, seen: set<Id>)
    requires WellFormed(h) && id in h && (h[id].ArrayObj? || IsPlainObject(h, Ref(id))) && id in seen
    ensures Sanitized(h, Ref(id), limit, seen) == LStr(CIRCULAR)
  {
  }

  /** Any other object becomes its bracketed label, truncated like a string. */
  lemma SanitizedOtherObject(h: Heap, id: Id, limit: nat, seen: set<Id>)
    requires WellFormed(h) && id in h && h[id].RecordObj? && h[id].proto == OtherPrototype
    ensures Sanitized(h, Ref(id), limit, seen)
      == LStr(TruncateStringValue("[" + ObjectLabel(h[id].ctorName, h[id].tag) + "]", limit))
    ensures |Sanitized(h, Ref(id), limit, seen).s| <= limit + 4
  {
  }

  /** `a.self = a`: sanitizing `a` gives `{ self: "[Circular]" }`. */
  lemma SelfReferenceIsCircular(h: Heap, a: Id, limit: nat)
    requires WellFormed(h) && a in h
    requires h[a] == RecordObj(ObjectPrototype, [Entry("self", Ref(a))], Some("Object"), "[object Object]")
    ensures Sanitized(h, Ref(a), limit, {}) == LObject([Member("self", LStr(CIRCULAR))])
  {
    SanitizedPlainObject(h, a, limit, {});
    SanitizedOnPath(h, a, limit, {a});
  }

  // ---------------------------------------------------------------------------
  // Acyclic heaps: a reference copy with no `seen` set.

  /** `rank` orders the heap so that each traversed container's children rank lower: no cycle. */
  predicate Ranked(h: Heap, rank: map<Id, nat>) {
    forall id :: id in h ==> id in rank && ChildrenBelow(h[id], rank, rank[id])
  }

  predicate ChildrenBelow(o: Obj, rank: map<Id, nat>, bound: nat) {
    match o
    case ArrayObj(items) => forall i :: 0 <= i < |items| ==> Below(items[i], rank, bound)
    case RecordObj(proto, entries, _, _) =>
      proto == OtherPrototype || forall i :: 0 <= i < |entries| ==> Below(entries[i].value, rank, bound)
  }

  predicate Below(v: Value, rank: map<Id, nat>, bound: nat) {
    v.Ref? ==> v.id in rank && rank[v.id] < bound
  }

  /** One more than the rank of a referenced container; 0 for a scalar. */
  function Height(rank: map<Id, nat>, v: Value): nat {
    if v.Ref? && v.id in rank then rank[v.id] + 1 else 0
  }

  /** The plain structural copy: what the sanitizer is meant to produce when there is no cycle. */
  function TreeCopy(h: Heap, rank: map<Id, nat>, v: Value, limit: nat): Loggable
    requires WellFormed(h) && Ranked(h, rank) && RefsIn(v, h)
    decreases Height(rank, v), 1, 0
  {
    match v
    case Ref(id) =>
      if h[id].ArrayObj? then LArray(TreeItems(h, rank, h[id].items, limit, rank[id]))
      else if IsPlainObject(h, v) then LObject(TreeEntries(h, rank, h[id].entries, limit, rank[id]))
      else LStr(TruncateStringValue("[" + ObjectLabel(h[id].ctorName, h[id].tag) + "]", limit))
    case _ => Sanitized(h, v, limit, {})
  }

  function TreeItems(h: Heap, rank: map<Id, nat>, items: seq<Value>, limit: nat, bound: nat): seq<Loggable>
    requires WellFormed(h) && Ranked(h, rank)
    requires forall i :: 0 <= i < |items| ==> RefsIn(items[i], h) && Below(items[i], rank, bound)
    decreases bound + 1, 0, |items|
  {
    if items == [] then []
    else
      var last := items[|items| - 1];
      assert Height(rank, last) <= bound by { assert Below(last, rank, bound); }
      TreeItems(h, rank, items[..|items| - 1], limit, bound) + [TreeCopy(h, rank, last, limit)]
  }

  function TreeEntries(h: Heap, rank: map<Id, nat>, entries: seq<Entry>, limit: nat, bound: nat): seq<Member>
    requires WellFormed(h) && Ranked(h, rank)
    requires forall i :: 0 <= i < |entries| ==> RefsIn(entries[i].value, h) && Below(entries[i].value, rank, bound)
    decreases bound + 1, 0, |entries|
  {
    if entries == [] then []
    else
      var last := entries[|entries| - 1];
      assert Height(rank, last.value) <= bound by { assert Below(last.value, rank, bound); }
      TreeEntries(h, rank, entries[..|entries| - 1], limit, bound)
        + (if last.key == PROTO_KEY then [] else [Member(last.key, TreeCopy(h, rank, last.value, limit))])
  }

  /** Every container on the path ranks at least `bound`. */
  predicate PathAtLeast(seen: set<Id>, rank: map<Id, nat>, bound: nat) {
    forall s :: s in seen && s in rank ==> rank[s] >= bound
  }

  /**
   * On an acyclic heap, when every container on the path ranks above `v`, the
   * sanitizer returns the plain copy: it never cuts a cycle that is not there.
   */
  lemma {:induction false} SanitizedIsTreeCopy(h: Heap, rank: map<Id, nat>, v: Value, limit: nat, seen: set<Id>)
    requires WellFormed(h) && Ranked(h, rank) && RefsIn(v, h)
    requires PathAtLeast(seen, rank, Height(rank, v))
    ensures Sanitized(h, v, limit, seen) == TreeCopy(h, rank, v, limit)
    decreases Height(rank, v), 1, 0
  {
    if v.Ref? {
      var id := v.id;
      assert id !in seen;
      if h[id].ArrayObj? {
        ItemsAreTreeCopy(h, rank, h[id].items, limit, seen + {id}, rank[id]);
      } else if IsPlainObject(h, v) {
        EntriesAreTreeCopy(h, rank, h[id].entries, limit, seen + {id}, rank[id]);
      }
    }
  }

  lemma {:induction false} ItemsAreTreeCopy(h: Heap, rank: map<Id, nat>, items: seq<Value>, limit: nat, seen: set<Id>, bound: nat)
    requires WellFormed(h) && Ranked(h, rank)
    requires forall i :: 0 <= i < |items| ==> RefsIn(items[i], h) && Below(items[i], rank, bound)
    requires PathAtLeast(seen, rank, bound)
    ensures SanitizedItems(h, items, limit, seen) == TreeItems(h, rank, items, limit, bound)
    decreases bound + 1, 0, |items|
  {
    if items != [] {
      var n := |items| - 1;
      ItemsAreTreeCopy(h, rank, items[..n], limit, seen, bound);
      SanitizedIsTreeCopy(h, rank, items[n], limit, seen);
    }
  }

  lemma {:induction false} EntriesAreTreeCopy(h: Heap, rank: map<Id, nat>, entries: seq<Entry>, limit: nat, seen: set<Id>, bound: nat)
    requires WellFormed(h) && Ranked(h, rank)
    requires forall i :: 0 <= i < |entries| ==> RefsIn(entries[i].value, h) && Below(entries[i].value, rank, bound)
    requires PathAtLeast(seen, rank, bound)
    ensures SanitizedEntries(h, entries, limit, seen) == TreeEntries(h, rank, entries, limit, bound)
    decreases bound + 1, 0, |entries|
  {
    if entries != [] {
      var n := |entries| - 1;
      EntriesAreTreeCopy(h, rank, entries[..n], limit, seen, bound);
      SanitizedIsTreeCopy(h, rank, entries[n].value, limit, seen);
    }
  }

  /** From the empty `seen` set that `sanitizeForLog` starts with, an acyclic value is copied in full. */
  lemma AcyclicSanitizedInFull(h: Heap, rank: map<Id, nat>, v: Value, limit: nat)
    requires WellFormed(h) && Ranked(h, rank) && RefsIn(v, h)
    ensures Sanitized(h, v, limit, {}) == TreeCopy(h, rank, v, limit)
  {
    SanitizedIsTreeCopy(h, rank, v, limit, {});
  }

  /** `[x, x]` with `x = [7]`: both positions are copied, neither is flagged as circular. */
  lemma SharedSiblingsCopied(h: Heap, limit: nat)
    requires h == map[0 := ArrayObj([Ref(1), Ref(1)]), 1 := ArrayObj([Num(7)])]
    ensures Sanitized(h, Ref(0), limit, {}) == LArray([LArray([LNum(7)]), LArray([LNum(7)])])
  {
    var rank := map[0 := 2, 1 := 1];
    assert Ranked(h, rank);
    AcyclicSanitizedInFull(h, rank, Ref(0), limit);
    assert TreeItems(h, rank, [Num(7)], limit, 1) == [LNum(7)] by {
      assert [Num(7)][..0] == [];
    }
    assert TreeItems(h, rank, [Ref(1), Ref(1)], limit, 2) == [LArray([LNum(7)]), LArray([LNum(7)])] by {
      assert [Ref(1), Ref(1)][..1] == [Ref(1)];
      assert [Ref(1)][..0] == [];
    }
  }
}
