/**
 * The bounded, cycle-safe value sanitizer of `vars-limit.ts`.
 *
 * An arbitrary JavaScript value is a scalar or a reference into a finite heap of
 * objects. Arrays and plain objects (prototype `Object.prototype` or `null`) are
 * copied recursively; every other object is replaced by a bracketed label.
 * `Sanitized` is the specification of the recursion, `SanitizeInternal` the
 * imperative walk that threads a mutable `seen` set through it.
 */
module VarsLimit {
  import opened Common
  import opened Json

  /** The default cap on string lengths and on the serialized log text. */
  const DEFAULT_VAR_STRING_LIMIT: nat := 100
  /** Appended to every string that was cut. */
  const TRUNCATION_MARKER := "...."
  /** Stands for a container that is reached again while it is still being copied. */
  const CIRCULAR := "[Circular]"
  /** Assigning this key on a fresh object literal sets its prototype instead of adding a property. */
  const PROTO_KEY := "__proto__"
  /** How a serialization-failure placeholder begins; the error text and `]` follow. */
  const TOO_COMPLEX_PREFIX := "[Object too complex to serialize: "
  /** `String(error)` for the TypeError raised by reading `.length` of `undefined` (V8's wording). */
  const UNDEFINED_LENGTH_ERROR := "TypeError: Cannot read properties of undefined (reading 'length')"

  type Id = nat

  /** A JavaScript value: a primitive, a function, or a reference to a heap object. */
  datatype Value =
    | Undefined
    | Null
    | Bool(b: bool)
    | Num(n: int)
    | Str(s: string)
    | BigInt(i: int)
    | Symbol(description: Option<string>)
    | Function(name: string)
    | Ref(id: Id)

  /** One own enumerable string-keyed property, as `Object.entries` lists it. */
  datatype Entry = Entry(key: string, value: Value)

  /** What `Reflect.getPrototypeOf` returns, reduced to what the sanitizer distinguishes. */
  datatype Proto = ObjectPrototype | NullPrototype | OtherPrototype

  /**
   * A heap object. `ctorName` is `constructor.name` when `constructor` is a function
   * (`None` otherwise) and `tag` is `Object.prototype.toString.call(o)`.
   */
  datatype Obj =
    | ArrayObj(items: seq<Value>)
    | RecordObj(proto: Proto, entries: seq<Entry>, ctorName: Option<string>, tag: string)

  type Heap = map<Id, Obj>

  predicate RefsIn(v: Value, h: Heap) {
    v.Ref? ==> v.id in h
  }

  predicate ObjRefsIn(o: Obj, h: Heap) {
    match o
    case ArrayObj(items) => forall i :: 0 <= i < |items| ==> RefsIn(items[i], h)
    case RecordObj(_, entries, _, _) => forall i :: 0 <= i < |entries| ==> RefsIn(entries[i].value, h)
  }

  predicate DistinctKeys(entries: seq<Entry>) {
    forall i, j :: 0 <= i < j < |entries| ==> entries[i].key != entries[j].key
  }

  /** Every reference points into the heap and no object lists a key twice. */
  predicate WellFormed(h: Heap) {
    forall id :: id in h ==> ObjRefsIn(h[id], h) && (h[id].RecordObj? ==> DistinctKeys(h[id].entries))
  }

  /** `truncateStringValue`: keep at most `limit` characters and mark the cut. */
  function TruncateStringValue(value: string, limit: nat := DEFAULT_VAR_STRING_LIMIT): (r: string)
    ensures |value| <= limit ==> r == value
    ensures |value| > limit ==> |r| == limit + 4 && r[..limit] == value[..limit] && r[limit..] == TRUNCATION_MARKER
    ensures |r| <= limit + 4
  {
    if |value| > limit then value[..limit] + TRUNCATION_MARKER else value
  }

  /** `isPlainObject`: a non-array object whose prototype is `Object.prototype` or `null`. */
  predicate IsPlainObject(h: Heap, v: Value)
    requires RefsIn(v, h)
    ensures IsPlainObject(h, v) <==> v.Ref? && h[v.id].RecordObj? && h[v.id].proto != OtherPrototype
  {
    v.Ref? && h[v.id].RecordObj? && (h[v.id].proto == ObjectPrototype || h[v.id].proto == NullPrototype)
  }

  /** The label of an object that is neither an array nor plain. */
  function ObjectLabel(ctorName: Option<string>, tag: string): (name: string)
    ensures name == tag || (ctorName == Some(name) && name != "" && name != "Object")
    ensures ctorName.Some? && ctorName.value != "" && ctorName.value != "Object" ==> name == ctorName.value
    ensures ctorName.None? || ctorName.value == "" || ctorName.value == "Object" ==> name == tag
  {
    if ctorName.Some? && ctorName.value != "" && ctorName.value != "Object" then ctorName.value else tag
  }

  /** `Symbol.prototype.toString`. */
  function SymbolToString(description: Option<string>): (r: string)
    ensures |r| == |description.GetOr("")| + 8
    ensures r[..7] == "Symbol(" && r[|r| - 1] == ')'
    ensures r[7..|r| - 1] == description.GetOr("")
  {
    "Symbol(" + description.GetOr("") + ")"
  }

  /** The placeholder for a function; it is not truncated. */
  function FunctionLabel(name: string): (r: string)
    ensures name != "" ==> |r| == |name| + 11 && r == "[Function " + name + "]"
    ensures name == "" ==> r == "[Function anonymous]"
  {
    "[Function " + (if name == "" then "anonymous" else name) + "]"
  }

  /** The placeholder `stringifyForLog` returns when serialization throws. */
  function TooComplex(error: string): (r: string)
    ensures |r| == |TOO_COMPLEX_PREFIX| + |error| + 1
    ensures r[..|TOO_COMPLEX_PREFIX|] == TOO_COMPLEX_PREFIX && r[|r| - 1] == ']'
    ensures r[|TOO_COMPLEX_PREFIX|..|r| - 1] == error
  {
    TOO_COMPLEX_PREFIX + error + "]"
  }

  /** Adding a member of `keys` that is not yet in `seen` shrinks what is left to visit. */
  lemma SeenShrinks(keys: set<Id>, seen: set<Id>, id: Id)
    requires id in keys && id !in seen
    ensures |keys - (seen + {id})| < |keys - seen|
  {
    assert keys - seen == (keys - (seen + {id})) + {id};
  }

  /**
   * What `sanitizeInternal(v, limit, seen)` returns, where `seen` holds the
   * containers on the current recursion path. It terminates on every finite heap,
   * cyclic or not: each descent adds a heap object that was not in `seen`.
   */
  function Sanitized(h: Heap, v: Value, limit: nat, seen: set<Id>): (r: Loggable)
    requires WellFormed(h) && RefsIn(v, h)
    ensures r.LUndefined? <==> v.Undefined?
    decreases |h.Keys - seen|, 0, 0
  {
    match v
    case Str(s) => LStr(TruncateStringValue(s, limit))
    case Null => LNull
    case Num(n) => LNum(n)
    case Bool(b) => LBool(b)
    case Undefined => LUndefined
    case BigInt(i) => LStr(TruncateStringValue(DecimalString(i), limit))
    case Symbol(d) => LStr(TruncateStringValue(SymbolToString(d), limit))
    case Function(name) => LStr(FunctionLabel(name))
    case Ref(id) =>
      if h[id].ArrayObj? then
        if id in seen then LStr(CIRCULAR)
        else
          SeenShrinks(h.Keys, seen, id);
          LArray(SanitizedItems(h, h[id].items, limit, seen + {id}))
      else if IsPlainObject(h, v) then
        if id in seen then LStr(CIRCULAR)
        else
          SeenShrinks(h.Keys, seen, id);
          LObject(SanitizedEntries(h, h[id].entries, limit, seen + {id}))
      else
        LStr(TruncateStringValue("[" + ObjectLabel(h[id].ctorName, h[id].tag) + "]", limit))
  }

  /** The array the `for ... of` loop builds with `push`, one element per item. */
  function SanitizedItems(h: Heap, items: seq<Value>, limit: nat, seen: set<Id>): seq<Loggable>
    requires WellFormed(h) && forall i :: 0 <= i < |items| ==> RefsIn(items[i], h)
    decreases |h.Keys - seen|, 1, |items|
  {
    if items == [] then []
    else SanitizedItems(h, items[..|items| - 1], limit, seen) + [Sanitized(h, items[|items| - 1], limit, seen)]
  }

  /**
   * The members the `Object.entries` loop creates by `result[key] = ...`; an
   * entry keyed `__proto__` creates no member.
   */
  function SanitizedEntries(h: Heap, entries: seq<Entry>, limit: nat, seen: set<Id>): seq<Member>
    requires WellFormed(h) && forall i :: 0 <= i < |entries| ==> RefsIn(entries[i].value, h)
    decreases |h.Keys - seen|, 1, |entries|
  {
    if entries == [] then []
    else
      var last := entries[|entries| - 1];
      SanitizedEntries(h, entries[..|entries| - 1], limit, seen)
        + (if last.key == PROTO_KEY then [] else [Member(last.key, Sanitized(h, last.value, limit, seen))])
  }

  /** The entries that survive the copy: all but one keyed `__proto__`, in order. */
  function KeptEntries(entries: seq<Entry>): (r: seq<Entry>)
    ensures |r| <= |entries|
    ensures forall k :: 0 <= k < |r| ==> r[k] in entries && r[k].key != PROTO_KEY
  {
    if entries == [] then []
    else
      var last := entries[|entries| - 1];
      KeptEntries(entries[..|entries| - 1]) + (if last.key == PROTO_KEY then [] else [last])
  }

  /** Every entry whose key is not `__proto__` is copied. */
  lemma {:induction false} KeptEntriesComplete(entries: seq<Entry>, j: nat)
    requires j < |entries| && entries[j].key != PROTO_KEY
    ensures entries[j] in KeptEntries(entries)
  {
    var n := |entries| - 1;
    if j < n {
      KeptEntriesComplete(entries[..n], j);
    }
  }

  /** The WeakSet of containers on the current recursion path. */
  class SeenSet {
    var ids: set<Id>

    constructor ()
      ensures ids == {}
    {
      ids := {};
    }

    method Has(id: Id) returns (b: bool)
      ensures b <==> id in ids
    {
      b := id in ids;
    }

    method Add(id: Id)
      modifies this
      ensures ids == old(ids) + {id}
    {
      ids := ids + {id};
    }

    method Delete(id: Id)
      modifies this
      ensures ids == old(ids) - {id}
    {
      ids := ids - {id};
    }
  }

  /**
   * `sanitizeInternal`: computes `Sanitized` and leaves `seen` as it found it,
   * because every container it adds is deleted again before it returns.
   */
  method SanitizeInternal(h: Heap, v: Value, limit: nat, seen: SeenSet) returns (r: Loggable)
    requires WellFormed(h) && RefsIn(v, h)
    modifies seen
    ensures seen.ids == old(seen.ids)
    ensures r == Sanitized(h, v, limit, old(seen.ids))
    decreases |h.Keys - seen.ids|, 0
  {
    match v {
      case Str(s) =>
        r := LStr(TruncateStringValue(s, limit));
      case Null =>
        r := LNull;
      case Num(n) =>
        r := LNum(n);
      case Bool(b) =>
        r := LBool(b);
      case Undefined =>
        r := LUndefined;
      case BigInt(i) =>
        r := LStr(TruncateStringValue(DecimalString(i), limit));
      case Symbol(d) =>
        r := LStr(TruncateStringValue(SymbolToString(d), limit));
      case Function(name) =>
        r := LStr(FunctionLabel(name));
      case Ref(id) =>
        var obj := h[id];
        if obj.ArrayObj? {
          var isSeen := seen.Has(id);
          if isSeen {
            return LStr(CIRCULAR);
          }
          SeenShrinks(h.Keys, seen.ids, id);
          seen.Add(id);
          var mapped := SanitizeItems(h, obj.items, limit, seen);
          seen.Delete(id);
          r := LArray(mapped);
        } else if IsPlainObject(h, v) {
          var isSeen := seen.Has(id);
          if isSeen {
            return LStr(CIRCULAR);
          }
          SeenShrinks(h.Keys, seen.ids, id);
          seen.Add(id);
          var result := SanitizeEntries(h, obj.entries, limit, seen);
          seen.Delete(id);
          r := LObject(result);
        } else {
          var text := ObjectLabel(obj.ctorName, obj.tag);
          r := LStr(TruncateStringValue("[" + text + "]", limit));
        }
    }
  }

  /** The `for (const item of value)` loop of `sanitizeInternal`, pushing each sanitized item. */
  method SanitizeItems(h: Heap, items: seq<Value>, limit: nat, seen: SeenSet) returns (mapped: seq<Loggable>)
    requires WellFormed(h) && forall i :: 0 <= i < |items| ==> RefsIn(items[i], h)
    modifies seen
    ensures seen.ids == old(seen.ids)
    ensures mapped == SanitizedItems(h, items, limit, old(seen.ids))
    decreases |h.Keys - seen.ids|, 1
  {
    mapped := [];
    var i := 0;
    while i < |items|
      invariant 0 <= i <= |items|
      invariant seen.ids == old(seen.ids)
      invariant mapped == SanitizedItems(h, items[..i], limit, old(seen.ids))
    {
      var item := SanitizeInternal(h, items[i], limit, seen);
      assert items[..i + 1][..i] == items[..i];
      mapped := mapped + [item];
      i := i + 1;
    }
    assert items[..i] == items;
  }

  /** The `for (const [key, val] of Object.entries(value))` loop of `sanitizeInternal`, assigning `result[key]`. */
  method SanitizeEntries(h: Heap, entries: seq<Entry>, limit: nat, seen: SeenSet) returns (result: seq<Member>)
    requires WellFormed(h) && forall i :: 0 <= i < |entries| ==> RefsIn(entries[i].value, h)
    modifies seen
    ensures seen.ids == old(seen.ids)
    ensures result == SanitizedEntries(h, entries, limit, old(seen.ids))
    decreases |h.Keys - seen.ids|, 1
  {
    result := [];
    var i := 0;
    while i < |entries|
      invariant 0 <= i <= |entries|
      invariant seen.ids == old(seen.ids)
      invariant result == SanitizedEntries(h, entries[..i], limit, old(seen.ids))
    {
      var entry := entries[i];
      var val := SanitizeInternal(h, entry.value, limit, seen);
      assert entries[..i + 1][..i] == entries[..i];
      if entry.key != PROTO_KEY {
        result := result + [Member(entry.key, val)];
      }
      i := i + 1;
    }
    assert entries[..i] == entries;
  }

  /** `sanitizeForLog`: start the walk with an empty `seen` set. */
  method SanitizeForLog(h: Heap, v: Value, limit: nat := DEFAULT_VAR_STRING_LIMIT) returns (r: Loggable)
    requires WellFormed(h) && RefsIn(v, h)
    ensures r == Sanitized(h, v, limit, {})
  {
    var seen := new SeenSet();
    r := SanitizeInternal(h, v, limit, seen);
  }

  /**
   * `stringifyForLog`: the serialized sanitized value, capped at `limit`
   * characters plus the marker. The only failure left in the model is
   * `JSON.stringify(undefined)`, which yields no string, so reading its length
   * throws and the catch block answers with a placeholder.
   */
  method StringifyForLog(h: Heap, v: Value, limit: nat := DEFAULT_VAR_STRING_LIMIT) returns (r: string)
    requires WellFormed(h) && RefsIn(v, h)
    ensures v.Undefined? ==> r == TooComplex(UNDEFINED_LENGTH_ERROR)
    ensures !v.Undefined? ==>
      var serialized := Text(Sanitized(h, v, limit, {}));
      (|serialized| <= limit ==> r == serialized)
      && (|serialized| > limit ==> r == serialized[..limit] + TRUNCATION_MARKER)
    ensures !v.Undefined? ==> |r| <= limit + 4
  {
    var sanitized := SanitizeForLog(h, v, limit);
    var serialized := Stringify(sanitized);
    if serialized.None? {
      return TooComplex(UNDEFINED_LENGTH_ERROR);
    }
    if |serialized.value| <= limit {
      return serialized.value;
    }
    return serialized.value[..limit] + TRUNCATION_MARKER;
  }
}
