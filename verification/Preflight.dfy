/** Structural preflight of an event document (`preflight_event_document` in `node.rs`), with 64-bit `usize`. */
module Preflight {
  import opened Bytes

  const MAX_DEPTH := 64
  const MAX_CONTAINER := 4096

  type usize = x: nat | x <= U64_MAX

  datatype Kind = Map | List

  /** Document values by the lengths the walk looks at. A table is a map; unknown scalars are byte strings. */
  datatype Value =
    | Container(kind: Kind, entries: Entries)
    | TextObject(length: usize)
    | Str(length: usize)
    | Bytes(length: usize)
    | Number
    | Boolean
    | Null

  datatype Entries = End | Slot(keyLength: usize, value: Value, rest: Entries)

  /** The four document-wide quantities with a limit. */
  datatype Meter = Objects | Total | Scalar | Proxy

  function Limit(m: Meter): int {
    match m
    case Objects => 4096
    case Total => 65536
    case Scalar => 2097152
    case Proxy => 12607488
  }

  predicate IsObject(v: Value) {
    v.Container? || v.TextObject?
  }

  // ---- reference: what the limits mean for a whole document -------------------

  /** What meeting a value inside a container adds at once. */
  function OwnCost(m: Meter, v: Value): int {
    match m
    case Objects => if IsObject(v) then 1 else 0
    case Total => 0
    case Scalar => if v.Str? || v.Bytes? then v.length else 0
    case Proxy =>
      match v
      case Str(n) => 6 * n + 2
      case Bytes(_) => 4
      case Number => 32
      case Boolean => 5
      case Null => 4
      case _ => 0
  }

  /** What a slot adds besides its value. */
  function KeyCost(m: Meter, kind: Kind, keyLength: usize): int {
    match m
    case Total => 1
    case Proxy => if kind.Map? then 6 * keyLength + 4 else 1
    case _ => 0
  }

  function SlotCost(m: Meter, kind: Kind, keyLength: usize, v: Value): int {
    KeyCost(m, kind, keyLength) + OwnCost(m, v)
  }

  /** Everything below a value. */
  function Inside(m: Meter, v: Value): int
    decreases v
  {
    match v
    case Container(kind, entries) => EntriesCost(m, entries, kind)
    case TextObject(n) => if m.Scalar? then n else if m.Proxy? then 6 * n else 0
    case _ => 0
  }

  function EntriesCost(m: Meter, entries: Entries, kind: Kind): int
    decreases entries
  {
    if entries.End? then 0
    else
      SlotCost(m, kind, entries.keyLength, entries.value) + Inside(m, entries.value)
      + EntriesCost(m, entries.rest, kind)
  }

  function Length(entries: Entries): nat {
    if entries.End? then 0 else 1 + Length(entries.rest)
  }

  /** Every object is at most `MAX_DEPTH` below the root and every container holds at most `MAX_CONTAINER` entries. */
  predicate Shaped(v: Value, depth: nat)
    decreases v
  {
    match v
    case Container(_, entries) =>
      depth <= MAX_DEPTH && Length(entries) <= MAX_CONTAINER && EntriesShaped(entries, depth + 1)
    case TextObject(_) => depth <= MAX_DEPTH
    case _ => true
  }

  predicate EntriesShaped(entries: Entries, depth: nat)
    decreases entries
  {
    entries.End? || (Shaped(entries.value, depth) && EntriesShaped(entries.rest, depth))
  }

  /** Cost of the whole document: the root object, the braces around it, and everything inside. */
  function DocumentCost(m: Meter, root: Entries): int {
    (if m.Objects? then 1 else if m.Proxy? then 2 else 0) + EntriesCost(m, root, Map)
  }

  ghost predicate Acceptable(root: Entries) {
    Shaped(Container(Map, root), 0) && forall m :: DocumentCost(m, root) <= Limit(m)
  }

  // ---- the work list ------------------------------------------------------------

  datatype Item = Item(value: Value, depth: nat)

  function StackCost(m: Meter, stack: seq<Item>): int {
    if stack == [] then 0 else StackCost(m, stack[..|stack| - 1]) + Inside(m, stack[|stack| - 1].value)
  }

  predicate StackShaped(stack: seq<Item>) {
    forall i :: 0 <= i < |stack| ==> Shaped(stack[i].value, stack[i].depth)
  }

  predicate StackOk(stack: seq<Item>) {
    forall i :: 0 <= i < |stack| ==> IsObject(stack[i].value) && stack[i].depth <= MAX_DEPTH
  }

  /** Objects directly in a container, in the order the walk pushes them. */
  function Children(entries: Entries, depth: nat): seq<Item> {
    if entries.End? then []
    else (if IsObject(entries.value) then [Item(entries.value, depth)] else []) + Children(entries.rest, depth)
  }

  /** What a container's own slots add, without what is inside its children. */
  function Shallow(m: Meter, entries: Entries, kind: Kind): int {
    if entries.End? then 0
    else SlotCost(m, kind, entries.keyLength, entries.value) + Shallow(m, entries.rest, kind)
  }

  predicate NoObject(entries: Entries) {
    entries.End? || (!IsObject(entries.value) && NoObject(entries.rest))
  }

  lemma {:induction false} StackCostSnoc(m: Meter, stack: seq<Item>, x: Item)
    ensures StackCost(m, stack + [x]) == StackCost(m, stack) + Inside(m, x.value)
  {
    assert (stack + [x])[..|stack|] == stack;
  }

  lemma {:induction false} StackCostAppend(m: Meter, a: seq<Item>, b: seq<Item>)
    ensures StackCost(m, a + b) == StackCost(m, a) + StackCost(m, b)
  {
    if b == [] {
      assert a + b == a;
    } else {
      var init, x := b[..|b| - 1], b[|b| - 1];
      StackCostAppend(m, a, init);
      assert a + b == (a + init) + [x];
      StackCostSnoc(m, a + init, x);
    }
  }

  lemma {:induction false} StackCostOne(m: Meter, x: Item)
    ensures StackCost(m, [x]) == Inside(m, x.value)
  {
    assert [x][..0] == [];
  }

  lemma {:induction false} ChildrenCost(m: Meter, entries: Entries, depth: nat)
    requires entries.Slot?
    ensures StackCost(m, Children(entries, depth)) ==
            Inside(m, entries.value) + StackCost(m, Children(entries.rest, depth))
  {
    var rest := Children(entries.rest, depth);
    if IsObject(entries.value) {
      StackCostAppend(m, [Item(entries.value, depth)], rest);
      StackCostOne(m, Item(entries.value, depth));
    } else {
      assert Children(entries, depth) == rest;
    }
  }

  /** A container's cost is its slots plus the insides of the objects pushed for it. */
  lemma {:induction false} CostSplits(m: Meter, entries: Entries, kind: Kind, depth: nat)
    ensures EntriesCost(m, entries, kind) == Shallow(m, entries, kind) + StackCost(m, Children(entries, depth))
  {
    if entries.Slot? {
      CostSplits(m, entries.rest, kind, depth);
      ChildrenCost(m, entries, depth);
    }
  }

  lemma {:induction false} InsideNonNegative(m: Meter, v: Value)
    ensures Inside(m, v) >= 0
    decreases v
  {
    if v.Container? {
      EntriesNonNegative(m, v.entries, v.kind);
    }
  }

  lemma {:induction false} EntriesNonNegative(m: Meter, entries: Entries, kind: Kind)
    ensures EntriesCost(m, entries, kind) >= 0 && Shallow(m, entries, kind) >= 0
    decreases entries
  {
    if entries.Slot? {
      InsideNonNegative(m, entries.value);
      EntriesNonNegative(m, entries.rest, kind);
    }
  }

  lemma {:induction false} StackNonNegative(m: Meter, stack: seq<Item>)
    ensures StackCost(m, stack) >= 0
  {
    if stack != [] {
      StackNonNegative(m, stack[..|stack| - 1]);
      InsideNonNegative(m, stack[|stack| - 1].value);
    }
  }

  lemma StackAppend(a: seq<Item>, b: seq<Item>)
    ensures StackShaped(a + b) <==> StackShaped(a) && StackShaped(b)
    ensures StackOk(a + b) <==> StackOk(a) && StackOk(b)
  {
    assert forall i :: 0 <= i < |a| ==> (a + b)[i] == a[i];
    assert forall i :: 0 <= i < |b| ==> (a + b)[|a| + i] == b[i];
  }

  lemma StackOne(x: Item)
    ensures StackShaped([x]) <==> Shaped(x.value, x.depth)
    ensures StackOk([x]) <==> IsObject(x.value) && x.depth <= MAX_DEPTH
  {
    assert [x][0] == x;
  }

  lemma {:induction false} ChildrenShaped(entries: Entries, depth: nat)
    ensures StackShaped(Children(entries, depth)) <==> EntriesShaped(entries, depth)
  {
    if entries.Slot? {
      ChildrenShaped(entries.rest, depth);
      if IsObject(entries.value) {
        StackAppend([Item(entries.value, depth)], Children(entries.rest, depth));
        StackOne(Item(entries.value, depth));
      } else {
        assert Children(entries, depth) == Children(entries.rest, depth);
      }
    }
  }

  lemma {:induction false} ChildrenOk(entries: Entries, depth: nat)
    requires depth <= MAX_DEPTH || NoObject(entries)
    ensures StackOk(Children(entries, depth))
  {
    if entries.Slot? {
      ChildrenOk(entries.rest, depth);
      if IsObject(entries.value) {
        StackAppend([Item(entries.value, depth)], Children(entries.rest, depth));
      } else {
        assert Children(entries, depth) == Children(entries.rest, depth);
      }
    }
  }

  lemma {:induction false} ChildrenCount(entries: Entries, depth: nat, kind: Kind)
    ensures |Children(entries, depth)| == Shallow(Objects, entries, kind)
  {
    if entries.Slot? {
      ChildrenCount(entries.rest, depth, kind);
    }
  }

  lemma {:induction false} DeepObject(entries: Entries, depth: nat)
    requires depth >= MAX_DEPTH && !NoObject(entries)
    ensures !EntriesShaped(entries, depth + 1)
  {
    if !IsObject(entries.value) {
      DeepObject(entries.rest, depth);
    }
  }

  // ---- the counters, in saturating arithmetic --------------------------------------

  datatype Counters = Counters(objects: int, entries: int, scalar: int, proxy: int)

  function At(c: Counters, m: Meter): int {
    match m
    case Objects => c.objects
    case Total => c.entries
    case Scalar => c.scalar
    case Proxy => c.proxy
  }

  /** `enforce_preflight_counts`, without the per-container count. */
  predicate Enforced(c: Counters) {
    c.objects <= Limit(Objects) && c.entries <= Limit(Total) && c.scalar <= Limit(Scalar) && c.proxy <= Limit(Proxy)
  }

  predicate Sane(c: Counters) {
    0 <= c.objects <= U64_MAX && 0 <= c.entries <= U64_MAX && 0 <= c.scalar <= U64_MAX && 0 <= c.proxy <= U64_MAX
  }

  function SatAdd(a: int, b: int): int {
    if a + b <= U64_MAX then a + b else U64_MAX
  }

  function SatMul6(n: int): int {
    if 6 * n <= U64_MAX then 6 * n else U64_MAX
  }

  /** The one plain addition: it wraps for strings near the end of the address space. */
  function WrapAdd2(n: int): int {
    if n + 2 <= U64_MAX then n + 2 else n + 2 - U64_MAX - 1
  }

  function ScalarCost(v: Value): (int, int)
    requires !IsObject(v)
  {
    match v
    case Str(n) => (n, WrapAdd2(SatMul6(n)))
    case Bytes(n) => (n, 4)
    case Number => (0, 32)
    case Boolean => (0, 5)
    case Null => (0, 4)
  }

  function AfterKey(kind: Kind, keyLength: usize, c: Counters): Counters {
    c.(entries := SatAdd(c.entries, 1),
       proxy := if kind.Map? then SatAdd(SatAdd(c.proxy, SatMul6(keyLength)), 4) else SatAdd(c.proxy, 1))
  }

  function AfterValue(v: Value, c: Counters): Counters {
    if IsObject(v) then c.(objects := SatAdd(c.objects, 1))
    else c.(scalar := SatAdd(c.scalar, ScalarCost(v).0), proxy := SatAdd(c.proxy, ScalarCost(v).1))
  }

  function AfterText(n: usize, c: Counters): Counters {
    c.(scalar := SatAdd(c.scalar, n), proxy := SatAdd(c.proxy, SatMul6(n)))
  }

  /** Saturation and the wrapping addition never change a verdict: the counters are exact while within the
      limits, and leave them exactly when an exact count does. */
  lemma StepExact(kind: Kind, keyLength: usize, v: Value, c: Counters)
    requires Sane(c) && Enforced(c)
    ensures var c' := AfterValue(v, AfterKey(kind, keyLength, c));
            && Sane(c')
            && (Enforced(c') ==> forall m :: At(c', m) == At(c, m) + SlotCost(m, kind, keyLength, v))
            && (!Enforced(c') ==> exists m :: At(c, m) + SlotCost(m, kind, keyLength, v) > Limit(m))
  {
    var c' := AfterValue(v, AfterKey(kind, keyLength, c));
    if c'.objects > Limit(Objects) {
      assert At(c, Objects) + SlotCost(Objects, kind, keyLength, v) > Limit(Objects);
    } else if c'.entries > Limit(Total) {
      assert At(c, Total) + SlotCost(Total, kind, keyLength, v) > Limit(Total);
    } else if c'.scalar > Limit(Scalar) {
      assert At(c, Scalar) + SlotCost(Scalar, kind, keyLength, v) > Limit(Scalar);
    } else if c'.proxy > Limit(Proxy) {
      assert At(c, Proxy) + SlotCost(Proxy, kind, keyLength, v) > Limit(Proxy);
    }
  }

  lemma TextExact(n: usize, c: Counters)
    requires Sane(c) && Enforced(c)
    ensures var c' := AfterText(n, c);
            && Sane(c')
            && (Enforced(c') ==> forall m :: At(c', m) == At(c, m) + Inside(m, TextObject(n)))
            && (!Enforced(c') ==> exists m :: At(c, m) + Inside(m, TextObject(n)) > Limit(m))
  {
    var c' := AfterText(n, c);
    if c'.scalar > Limit(Scalar) {
      assert At(c, Scalar) + Inside(Scalar, TextObject(n)) > Limit(Scalar);
    } else if c'.proxy > Limit(Proxy) {
      assert At(c, Proxy) + Inside(Proxy, TextObject(n)) > Limit(Proxy);
    }
  }

  // ---- one container -----------------------------------------------------------------

  /** `preflight_value`. */
  method PreflightValue(v: Value, depth: nat, stack: seq<Item>, c: Counters)
    returns (ok: bool, stack': seq<Item>, c': Counters)
    ensures ok <==> (IsObject(v) ==> SatAdd(c.objects, 1) <= Limit(Objects) && depth < MAX_DEPTH)
    ensures ok ==> stack' == stack + (if IsObject(v) then [Item(v, depth + 1)] else [])
    ensures c' == AfterValue(v, c)
  {
    stack', c' := stack, c;
    if IsObject(v) {
      c' := c'.(objects := SatAdd(c'.objects, 1));
      if c'.objects > Limit(Objects) || depth >= MAX_DEPTH {
        return false, stack', c';
      }
      stack' := stack' + [Item(v, depth + 1)];
    } else {
      var (bytes, proxy) := ScalarCost(v);
      c' := c'.(scalar := SatAdd(c'.scalar, bytes), proxy := SatAdd(c'.proxy, proxy));
    }
    return true, stack', c';
  }

  ghost predicate Affordable(entries: Entries, kind: Kind, c: Counters) {
    forall m :: At(c, m) + Shallow(m, entries, kind) <= Limit(m)
  }

  /** What a container must satisfy by itself, given the counters and the entries counted so far. */
  ghost predicate SlotsOk(entries: Entries, kind: Kind, depth: nat, count: nat, c: Counters) {
    && count + Length(entries) <= MAX_CONTAINER
    && (depth < MAX_DEPTH || NoObject(entries))
    && Affordable(entries, kind, c)
  }

  lemma {:induction false} AffordableStep(entries: Entries, kind: Kind, c: Counters)
    requires entries.Slot? && Sane(c) && Enforced(c)
    ensures var c' := AfterValue(entries.value, AfterKey(kind, entries.keyLength, c));
            && Sane(c')
            && (Affordable(entries, kind, c) <==> Enforced(c') && Affordable(entries.rest, kind, c'))
            && (Enforced(c') ==>
                  forall m :: At(c, m) + Shallow(m, entries, kind) == At(c', m) + Shallow(m, entries.rest, kind))
  {
    var c' := AfterValue(entries.value, AfterKey(kind, entries.keyLength, c));
    StepExact(kind, entries.keyLength, entries.value, c);
    if !Enforced(c') {
      var m :| At(c, m) + SlotCost(m, kind, entries.keyLength, entries.value) > Limit(m);
      EntriesNonNegative(m, entries.rest, kind);
      assert At(c, m) + Shallow(m, entries, kind) > Limit(m);
    } else {
      forall m ensures At(c, m) + Shallow(m, entries, kind) == At(c', m) + Shallow(m, entries.rest, kind) {
        assert At(c', m) == At(c, m) + SlotCost(m, kind, entries.keyLength, entries.value);
      }
    }
  }

  lemma AffordableEnd(kind: Kind, c: Counters)
    ensures Affordable(End, kind, c) <==> Enforced(c)
  {
    if Affordable(End, kind, c) {
      assert At(c, Objects) + Shallow(Objects, End, kind) <= Limit(Objects);
      assert At(c, Total) + Shallow(Total, End, kind) <= Limit(Total);
      assert At(c, Scalar) + Shallow(Scalar, End, kind) <= Limit(Scalar);
      assert At(c, Proxy) + Shallow(Proxy, End, kind) <= Limit(Proxy);
    }
  }

  /** The loop over one map, table or list. */
  method PreflightContainer(entries: Entries, kind: Kind, depth: nat, stack: seq<Item>, c: Counters)
    returns (ok: bool, stack': seq<Item>, c': Counters)
    requires Sane(c) && Enforced(c)
    ensures ok <==> SlotsOk(entries, kind, depth, 0, c)
    ensures ok ==> stack' == stack + Children(entries, depth + 1)
    ensures ok ==> Sane(c') && Enforced(c') && forall m :: At(c', m) == At(c, m) + Shallow(m, entries, kind)
  {
    stack', c' := stack, c;
    var rest, count := entries, 0;
    while rest.Slot?
      invariant Sane(c') && Enforced(c')
      invariant SlotsOk(entries, kind, depth, 0, c) <==> SlotsOk(rest, kind, depth, count, c')
      invariant stack' + Children(rest, depth + 1) == stack + Children(entries, depth + 1)
      invariant forall m :: At(c', m) + Shallow(m, rest, kind) == At(c, m) + Shallow(m, entries, kind)
      invariant count <= MAX_CONTAINER
      decreases rest
    {
      AffordableStep(rest, kind, c');
      ghost var pushed := if IsObject(rest.value) then [Item(rest.value, depth + 1)] else [];
      assert stack' + Children(rest, depth + 1) == (stack' + pushed) + Children(rest.rest, depth + 1);
      count := count + 1;
      c' := AfterKey(kind, rest.keyLength, c');
      ok, stack', c' := PreflightValue(rest.value, depth, stack', c');
      if !ok || count > MAX_CONTAINER || !Enforced(c') {
        return false, stack', c';
      }
      rest := rest.rest;
    }
    AffordableEnd(kind, c');
    ok := true;
  }

  // ---- the whole walk -----------------------------------------------------------------

  /** What has been counted and what is still to be walked, against the whole document. */
  ghost predicate Accounted(root: Entries, c: Counters, stack: seq<Item>) {
    && Sane(c) && Enforced(c)
    && (forall m :: At(c, m) + StackCost(m, stack) == DocumentCost(m, root))
    && (Shaped(Container(Map, root), 0) <==> StackShaped(stack))
    && StackOk(stack)
  }

  lemma {:induction false} Popped(root: Entries, c: Counters, rest: seq<Item>, top: Item)
    requires Accounted(root, c, rest + [top])
    ensures IsObject(top.value) && top.depth <= MAX_DEPTH && StackOk(rest)
    ensures forall m :: At(c, m) + Inside(m, top.value) + StackCost(m, rest) == DocumentCost(m, root)
    ensures Shaped(Container(Map, root), 0) <==> StackShaped(rest) && Shaped(top.value, top.depth)
  {
    StackAppend(rest, [top]);
    StackOne(top);
    forall m ensures At(c, m) + Inside(m, top.value) + StackCost(m, rest) == DocumentCost(m, root) {
      StackCostSnoc(m, rest, top);
      assert At(c, m) + StackCost(m, rest + [top]) == DocumentCost(m, root);
    }
  }

  lemma {:induction false} ContainerCost(m: Meter, root: Entries, before: int, rest: seq<Item>, top: Item, after: int)
    requires top.value.Container? && before + Inside(m, top.value) + StackCost(m, rest) == DocumentCost(m, root)
    requires after == before + Shallow(m, top.value.entries, top.value.kind)
    ensures after + StackCost(m, rest + Children(top.value.entries, top.depth + 1)) == DocumentCost(m, root)
  {
    CostSplits(m, top.value.entries, top.value.kind, top.depth + 1);
    StackCostAppend(m, rest, Children(top.value.entries, top.depth + 1));
  }

  lemma ContainerShape(rest: seq<Item>, top: Item)
    requires top.value.Container? && StackOk(rest) && top.depth <= MAX_DEPTH
    requires Length(top.value.entries) <= MAX_CONTAINER && (top.depth < MAX_DEPTH || NoObject(top.value.entries))
    ensures var stack := rest + Children(top.value.entries, top.depth + 1);
            StackOk(stack) && (StackShaped(stack) <==> StackShaped(rest) && Shaped(top.value, top.depth))
  {
    ChildrenShaped(top.value.entries, top.depth + 1);
    ChildrenOk(top.value.entries, top.depth + 1);
    StackAppend(rest, Children(top.value.entries, top.depth + 1));
  }

  /** A container whose slots pass is replaced by its children. */
  lemma ContainerPasses(root: Entries, c: Counters, rest: seq<Item>, top: Item, c': Counters)
    requires Accounted(root, c, rest + [top]) && top.value.Container?
    requires SlotsOk(top.value.entries, top.value.kind, top.depth, 0, c)
    requires Sane(c') && Enforced(c')
    requires forall m :: At(c', m) == At(c, m) + Shallow(m, top.value.entries, top.value.kind)
    ensures Accounted(root, c', rest + Children(top.value.entries, top.depth + 1))
  {
    Popped(root, c, rest, top);
    ContainerShape(rest, top);
    forall m
      ensures At(c', m) + StackCost(m, rest + Children(top.value.entries, top.depth + 1)) == DocumentCost(m, root)
    {
      ContainerCost(m, root, At(c, m), rest, top, At(c', m));
    }
  }

  /** One whose slots fail condemns the document. */
  lemma ContainerFails(root: Entries, c: Counters, rest: seq<Item>, top: Item)
    requires Accounted(root, c, rest + [top]) && top.value.Container?
    requires !SlotsOk(top.value.entries, top.value.kind, top.depth, 0, c)
    ensures !Acceptable(root)
  {
    var entries, kind, depth := top.value.entries, top.value.kind, top.depth;
    Popped(root, c, rest, top);
    if !Affordable(entries, kind, c) {
      var m :| At(c, m) + Shallow(m, entries, kind) > Limit(m);
      CostSplits(m, entries, kind, depth + 1);
      StackNonNegative(m, Children(entries, depth + 1));
      StackNonNegative(m, rest);
      assert At(c, m) + Inside(m, top.value) + StackCost(m, rest) == DocumentCost(m, root);
    } else if depth >= MAX_DEPTH && !NoObject(entries) {
      DeepObject(entries, depth);
    }
  }

  lemma TextStep(root: Entries, c: Counters, rest: seq<Item>, top: Item)
    requires Accounted(root, c, rest + [top]) && top.value.TextObject?
    ensures var c' := AfterText(top.value.length, c);
            if Enforced(c') then Accounted(root, c', rest) else !Acceptable(root)
  {
    var n := top.value.length;
    var c' := AfterText(n, c);
    Popped(root, c, rest, top);
    TextExact(n, c);
    if Enforced(c') {
      forall m ensures At(c', m) + StackCost(m, rest) == DocumentCost(m, root) {
        assert At(c', m) == At(c, m) + Inside(m, TextObject(n));
      }
    } else {
      var m :| At(c, m) + Inside(m, TextObject(n)) > Limit(m);
      StackNonNegative(m, rest);
      assert DocumentCost(m, root) > Limit(m);
    }
  }

  /** Objects not yet walked: the loop's bound. */
  ghost function Unwalked(stack: seq<Item>): int {
    |stack| + StackCost(Objects, stack)
  }

  lemma WalkShrinks(rest: seq<Item>, top: Item)
    requires IsObject(top.value)
    ensures top.value.TextObject? ==> Unwalked(rest) < Unwalked(rest + [top])
    ensures top.value.Container? ==>
              Unwalked(rest + Children(top.value.entries, top.depth + 1)) < Unwalked(rest + [top])
    ensures 0 <= Unwalked(rest + [top])
  {
    StackCostSnoc(Objects, rest, top);
    StackNonNegative(Objects, rest + [top]);
    if top.value.Container? {
      var children := Children(top.value.entries, top.depth + 1);
      CostSplits(Objects, top.value.entries, top.value.kind, top.depth + 1);
      StackCostAppend(Objects, rest, children);
      ChildrenCount(top.value.entries, top.depth + 1, top.value.kind);
    }
  }

  /** One popped object. */
  method PreflightObject(ghost root: Entries, rest: seq<Item>, top: Item, c: Counters)
    returns (ok: bool, stack: seq<Item>, c': Counters)
    requires Accounted(root, c, rest + [top]) && IsObject(top.value)
    ensures ok ==> Accounted(root, c', stack) && Unwalked(stack) < Unwalked(rest + [top])
    ensures !ok ==> !Acceptable(root)
  {
    WalkShrinks(rest, top);
    if top.value.Container? {
      ok, stack, c' := PreflightContainer(top.value.entries, top.value.kind, top.depth, rest, c);
      if ok {
        ContainerPasses(root, c, rest, top, c');
      } else {
        ContainerFails(root, c, rest, top);
      }
    } else {
      TextStep(root, c, rest, top);
      stack := rest;
      c' := AfterText(top.value.length, c);
      ok := Enforced(c');
    }
  }

  lemma Initially(root: Entries)
    ensures Accounted(root, Counters(1, 0, 0, 2), [Item(Container(Map, root), 0)])
  {
    var first := Item(Container(Map, root), 0);
    StackOne(first);
    forall m ensures At(Counters(1, 0, 0, 2), m) + StackCost(m, [first]) == DocumentCost(m, root) {
      StackCostOne(m, first);
    }
  }

  lemma Finally(root: Entries, c: Counters)
    requires Accounted(root, c, [])
    ensures Acceptable(root)
  {
    forall m ensures DocumentCost(m, root) <= Limit(m) {
      assert At(c, m) + StackCost(m, []) == DocumentCost(m, root);
    }
  }

  /** `preflight_event_document`: the depth-first walk accepts exactly the documents within every limit, always
      ends, and never needs its depth test on pop, which the push test makes redundant. */
  method PreflightEventDocument(root: Entries) returns (accepted: bool, rejectedOnPop: bool)
    ensures accepted <==> Acceptable(root)
    ensures !rejectedOnPop
  {
    var stack := [Item(Container(Map, root), 0)];
    var c := Counters(1, 0, 0, 2);
    accepted, rejectedOnPop := true, false;
    Initially(root);
    while accepted && stack != []
      invariant !rejectedOnPop
      invariant accepted ==> Accounted(root, c, stack)
      invariant !accepted ==> !Acceptable(root)
      decreases accepted, Unwalked(stack)
    {
      var rest, top := stack[..|stack| - 1], stack[|stack| - 1];
      assert stack == rest + [top];
      Popped(root, c, rest, top);
      WalkShrinks(rest, top);
      if top.depth > MAX_DEPTH {
        accepted, rejectedOnPop := false, true;
      } else {
        accepted, stack, c := PreflightObject(root, rest, top, c);
      }
    }
    if accepted {
      Finally(root, c);
    }
  }
}
