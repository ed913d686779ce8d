/** Recursive inlining of `*_uri` references (cats/network/cas/flatten_refs.py). */
module FlattenRefs {
  import opened Json
  import opened Text
  import opened Wrappers

  /** `fetch(stem, uri)`; any reference graph, cyclic ones included. */
  type Fetch = (string, string) -> Json

  /** `allow`: the stems to expand, or every stem. */
  type Allow = Option<set<string>>

  predicate IsSlot(key: string, value: Json) {
    EndsWith(key, "_uri") && value.Str? && Strip(value.s) != []
  }

  /** `uri_by_stem`, in document order. */
  function Slots(d: Dict, allow: Allow): seq<(string, string)> {
    if d == [] then []
    else
      var Field(key, value) := d[0];
      var rest := Slots(d[1..], allow);
      if !IsSlot(key, value) then rest
      else
        var stem := DropSuffix(key, "_uri");
        if allow.Some? && stem !in allow.value then rest else [(stem, Strip(value.s))] + rest
  }

  /** Keys that do not survive next to an expanded slot: its `_uri`, its legacy `_cid`, its stem. */
  predicate Superseded(key: string, slots: seq<(string, string)>) {
    exists i :: 0 <= i < |slots| &&
      (key == slots[i].0 + "_uri" || key == slots[i].0 + "_cid" || key == slots[i].0)
  }

  /** `flatten_uri_dict` and `_flatten`. */
  function Flatten(j: Json, fetch: Fetch, depth: int, visited: set<string>, allow: Allow): Json
    decreases Fuel(depth), 1, j
  {
    match j
    case Arr(items) => Arr(FlattenItems(items, fetch, depth, visited, allow))
    case Obj(d) =>
      var slots := Slots(d, allow);
      Obj(Expand(slots, FlattenKept(d, slots, fetch, depth, visited, allow), fetch, depth, visited, allow))
    case _ => j
  }

  function FlattenItems(items: seq<Json>, fetch: Fetch, depth: int, visited: set<string>, allow: Allow): seq<Json>
    decreases Fuel(depth), 1, items
  {
    if items == [] then []
    else [Flatten(items[0], fetch, depth, visited, allow)] + FlattenItems(items[1..], fetch, depth, visited, allow)
  }

  /** The fields that stay, nested values flattened at the same depth. */
  function FlattenKept(d: Dict, slots: seq<(string, string)>, fetch: Fetch, depth: int, visited: set<string>,
                       allow: Allow): Dict
    decreases Fuel(depth), 1, d
  {
    if d == [] then []
    else
      var rest := FlattenKept(d[1..], slots, fetch, depth, visited, allow);
      if Superseded(d[0].key, slots) then rest
      else [Field(d[0].key, Flatten(d[0].value, fetch, depth, visited, allow))] + rest
  }

  /** What one slot puts into the output: the expanded payload, or the URI again when the depth is used up
      or the URI is already on the path. */
  function SlotField(slot: (string, string), fetch: Fetch, depth: int, visited: set<string>, allow: Allow): Field
    decreases Fuel(depth), 0, 0
  {
    var (stem, uri) := slot;
    if depth <= 0 || uri in visited then Field(stem + "_uri", Str(uri))
    else Field(stem, Flatten(fetch(stem, uri), fetch, depth - 1, visited + {uri}, allow))
  }

  function Expand(slots: seq<(string, string)>, out: Dict, fetch: Fetch, depth: int, visited: set<string>,
                  allow: Allow): Dict
    decreases Fuel(depth), 0, 1, |slots|
  {
    if slots == [] then out
    else
      var Field(key, value) := SlotField(slots[0], fetch, depth, visited, allow);
      Expand(slots[1..], Set(out, key, value), fetch, depth, visited, allow)
  }

  // --- the fetches an expansion makes, each with the URIs it is nested under -------------------------

  type Chain = seq<string>

  function Chains(j: Json, fetch: Fetch, depth: int, visited: set<string>, allow: Allow, chain: Chain): seq<Chain>
    decreases Fuel(depth), 1, j
  {
    match j
    case Arr(items) => ItemChains(items, fetch, depth, visited, allow, chain)
    case Obj(d) =>
      var slots := Slots(d, allow);
      KeptChains(d, slots, fetch, depth, visited, allow, chain)
           + SlotsChains(slots, fetch, depth, visited, allow, chain)
    case _ => []
  }

  function ItemChains(items: seq<Json>, fetch: Fetch, depth: int, visited: set<string>, allow: Allow,
                      chain: Chain): seq<Chain>
    decreases Fuel(depth), 1, items
  {
    if items == [] then []
    else Chains(items[0], fetch, depth, visited, allow, chain)
         + ItemChains(items[1..], fetch, depth, visited, allow, chain)
  }

  function KeptChains(d: Dict, slots: seq<(string, string)>, fetch: Fetch, depth: int, visited: set<string>,
                      allow: Allow, chain: Chain): seq<Chain>
    decreases Fuel(depth), 1, d
  {
    if d == [] then []
    else
      (if Superseded(d[0].key, slots) then [] else Chains(d[0].value, fetch, depth, visited, allow, chain))
      + KeptChains(d[1..], slots, fetch, depth, visited, allow, chain)
  }

  function SlotChains(slot: (string, string), fetch: Fetch, depth: int, visited: set<string>, allow: Allow,
                      chain: Chain): seq<Chain>
    decreases Fuel(depth), 0, 0
  {
    var (stem, uri) := slot;
    if depth <= 0 || uri in visited then []
    else [chain + [uri]] + Chains(fetch(stem, uri), fetch, depth - 1, visited + {uri}, allow, chain + [uri])
  }

  function SlotsChains(slots: seq<(string, string)>, fetch: Fetch, depth: int, visited: set<string>, allow: Allow,
                       chain: Chain): seq<Chain>
    decreases Fuel(depth), 0, 1, |slots|
  {
    if slots == [] then []
    else SlotChains(slots[0], fetch, depth, visited, allow, chain)
         + SlotsChains(slots[1..], fetch, depth, visited, allow, chain)
  }

  /** A chain that extends the path so far by at most the remaining depth, through URIs not yet visited,
      none of them twice. */
  ghost predicate Sound(c: Chain, chain: Chain, depth: int, visited: set<string>) {
    && chain <= c && |c| <= |chain| + Fuel(depth)
    && (forall i :: |chain| <= i < |c| ==> c[i] !in visited)
    && (forall i, k :: |chain| <= i < k < |c| ==> c[i] != c[k])
  }

  ghost predicate AllSound(cs: seq<Chain>, chain: Chain, depth: int, visited: set<string>) {
    forall i :: 0 <= i < |cs| ==> Sound(cs[i], chain, depth, visited)
  }

  lemma {:induction false} ChainsSound(j: Json, fetch: Fetch, depth: int, visited: set<string>, allow: Allow,
                                       chain: Chain)
    ensures AllSound(Chains(j, fetch, depth, visited, allow, chain), chain, depth, visited)
    decreases Fuel(depth), 1, j
  {
    match j {
      case Arr(items) => ItemChainsSound(items, fetch, depth, visited, allow, chain);
      case Obj(d) =>
        KeptChainsSound(d, Slots(d, allow), fetch, depth, visited, allow, chain);
        SlotsChainsSound(Slots(d, allow), fetch, depth, visited, allow, chain);
      case _ =>
    }
  }

  lemma {:induction false} ItemChainsSound(items: seq<Json>, fetch: Fetch, depth: int, visited: set<string>,
                                           allow: Allow, chain: Chain)
    ensures AllSound(ItemChains(items, fetch, depth, visited, allow, chain), chain, depth, visited)
    decreases Fuel(depth), 1, items
  {
    if items != [] {
      ChainsSound(items[0], fetch, depth, visited, allow, chain);
      ItemChainsSound(items[1..], fetch, depth, visited, allow, chain);
    }
  }

  lemma {:induction false} KeptChainsSound(d: Dict, slots: seq<(string, string)>, fetch: Fetch, depth: int,
                                           visited: set<string>, allow: Allow, chain: Chain)
    ensures AllSound(KeptChains(d, slots, fetch, depth, visited, allow, chain), chain, depth, visited)
    decreases Fuel(depth), 1, d
  {
    if d != [] {
      ChainsSound(d[0].value, fetch, depth, visited, allow, chain);
      KeptChainsSound(d[1..], slots, fetch, depth, visited, allow, chain);
    }
  }

  lemma {:induction false} SlotChainsSound(slot: (string, string), fetch: Fetch, depth: int, visited: set<string>,
                                           allow: Allow, chain: Chain)
    ensures AllSound(SlotChains(slot, fetch, depth, visited, allow, chain), chain, depth, visited)
    decreases Fuel(depth), 0, 0
  {
    var (stem, uri) := slot;
    if depth > 0 && uri !in visited {
      var inner := Chains(fetch(stem, uri), fetch, depth - 1, visited + {uri}, allow, chain + [uri]);
      ChainsSound(fetch(stem, uri), fetch, depth - 1, visited + {uri}, allow, chain + [uri]);
      forall i | 0 <= i < |inner| ensures Sound(inner[i], chain, depth, visited) {
        assert inner[i][|chain|] == (chain + [uri])[|chain|];
      }
    }
  }

  lemma {:induction false} SlotsChainsSound(slots: seq<(string, string)>, fetch: Fetch, depth: int,
                                            visited: set<string>, allow: Allow, chain: Chain)
    ensures AllSound(SlotsChains(slots, fetch, depth, visited, allow, chain), chain, depth, visited)
    decreases Fuel(depth), 0, 1, |slots|
  {
    if slots != [] {
      SlotChainsSound(slots[0], fetch, depth, visited, allow, chain);
      SlotsChainsSound(slots[1..], fetch, depth, visited, allow, chain);
    }
  }

  /** No URI is fetched twice on one expansion path, none that was given as visited, and no path nests
      more than `maxDepth` fetches; for every fetch function, cyclic graphs included. */
  lemma FetchesBounded(j: Json, fetch: Fetch, maxDepth: int, visited: set<string>, allow: Allow, i: nat)
    requires i < |Chains(j, fetch, maxDepth, visited, allow, [])|
    ensures var c := Chains(j, fetch, maxDepth, visited, allow, [])[i];
      && |c| <= Fuel(maxDepth)
      && (forall k :: 0 <= k < |c| ==> c[k] !in visited)
      && (forall k, l :: 0 <= k < l < |c| ==> c[k] != c[l])
  {
    ChainsSound(j, fetch, maxDepth, visited, allow, []);
  }

  // --- completeness on acyclic graphs ----------------------------------------------------------------

  /** Every reference chain from the document has at most `h` hops. */
  ghost predicate Height(j: Json, fetch: Fetch, h: int)
    decreases Fuel(h), 1, j
  {
    match j
    case Arr(items) => ItemsHeight(items, fetch, h)
    case Obj(d) => FieldsHeight(d, fetch, h)
    case _ => true
  }

  ghost predicate ItemsHeight(items: seq<Json>, fetch: Fetch, h: int)
    decreases Fuel(h), 1, items
  {
    items == [] || (Height(items[0], fetch, h) && ItemsHeight(items[1..], fetch, h))
  }

  ghost predicate FieldsHeight(d: Dict, fetch: Fetch, h: int)
    decreases Fuel(h), 1, d
  {
    d == [] ||
    ( && (if IsSlot(d[0].key, d[0].value)
          then h > 0 && Height(fetch(DropSuffix(d[0].key, "_uri"), Strip(d[0].value.s)), fetch, h - 1)
          else Height(d[0].value, fetch, h))
      && FieldsHeight(d[1..], fetch, h))
  }

  /** The same, and moreover no chain comes back to a URI of its own path. */
  ghost predicate Acyclic(j: Json, fetch: Fetch, h: int, path: set<string>)
    decreases Fuel(h), 1, j
  {
    match j
    case Arr(items) => ItemsAcyclic(items, fetch, h, path)
    case Obj(d) => FieldsAcyclic(d, fetch, h, path)
    case _ => true
  }

  ghost predicate ItemsAcyclic(items: seq<Json>, fetch: Fetch, h: int, path: set<string>)
    decreases Fuel(h), 1, items
  {
    items == [] || (Acyclic(items[0], fetch, h, path) && ItemsAcyclic(items[1..], fetch, h, path))
  }

  ghost predicate SlotAcyclic(stem: string, uri: string, fetch: Fetch, h: int, path: set<string>)
    decreases Fuel(h), 0, stem
  {
    h > 0 && uri !in path && Acyclic(fetch(stem, uri), fetch, h - 1, path + {uri})
  }

  ghost predicate FieldsAcyclic(d: Dict, fetch: Fetch, h: int, path: set<string>)
    decreases Fuel(h), 1, d
  {
    d == [] ||
    ( && (if IsSlot(d[0].key, d[0].value)
          then SlotAcyclic(DropSuffix(d[0].key, "_uri"), Strip(d[0].value.s), fetch, h, path)
          else Acyclic(d[0].value, fetch, h, path))
      && FieldsAcyclic(d[1..], fetch, h, path))
  }

  /** The field is a slot of an allowed stem. */
  predicate Open(key: string, value: Json, allow: Allow) {
    IsSlot(key, value) && (allow.None? || DropSuffix(key, "_uri") in allow.value)
  }

  /** No non-blank string sits under a key that is an allowed stem with `_uri`, at any depth. */
  ghost predicate NoSlots(j: Json, allow: Allow) {
    match j
    case Arr(items) => NoSlotItems(items, allow)
    case Obj(d) => NoSlotFields(d, allow)
    case _ => true
  }

  ghost predicate NoSlotItems(items: seq<Json>, allow: Allow) {
    items == [] || (NoSlots(items[0], allow) && NoSlotItems(items[1..], allow))
  }

  ghost predicate NoSlotFields(d: Dict, allow: Allow) {
    d == [] || (!Open(d[0].key, d[0].value, allow) && NoSlots(d[0].value, allow) && NoSlotFields(d[1..], allow))
  }

  // --- which slots put a string back under a `_uri` key ----------------------------------------------

  /** No slot that the expansion reaches has a stem ending in `_uri` and a non-blank string for payload. */
  ghost predicate Settles(j: Json, fetch: Fetch, h: int)
    decreases Fuel(h), 1, j
  {
    match j
    case Arr(items) => ItemsSettle(items, fetch, h)
    case Obj(d) => KeptSettle(d, Slots(d, None), fetch, h) && SlotsSettle(Slots(d, None), fetch, h)
    case _ => true
  }

  ghost predicate ItemsSettle(items: seq<Json>, fetch: Fetch, h: int)
    decreases Fuel(h), 1, items
  {
    items == [] || (Settles(items[0], fetch, h) && ItemsSettle(items[1..], fetch, h))
  }

  /** Fields next to an expanded slot of their own name are dropped, and with them what they refer to. */
  ghost predicate KeptSettle(d: Dict, slots: seq<(string, string)>, fetch: Fetch, h: int)
    decreases Fuel(h), 1, d
  {
    d == [] || ((Superseded(d[0].key, slots) || Settles(d[0].value, fetch, h)) && KeptSettle(d[1..], slots, fetch, h))
  }

  ghost predicate SlotSettles(slot: (string, string), fetch: Fetch, h: int)
    decreases Fuel(h), 0, 0
  {
    && !IsSlot(slot.0, fetch(slot.0, slot.1))
    && (h > 0 ==> Settles(fetch(slot.0, slot.1), fetch, h - 1))
  }

  ghost predicate SlotsSettle(slots: seq<(string, string)>, fetch: Fetch, h: int)
    decreases Fuel(h), 0, 1, |slots|
  {
    slots == [] || (SlotSettles(slots[0], fetch, h) && SlotsSettle(slots[1..], fetch, h))
  }

  /** Objects have distinct keys, as `json.loads` makes them. */
  ghost predicate Proper(j: Json) {
    match j
    case Arr(items) => forall i :: 0 <= i < |items| ==> Proper(items[i])
    case Obj(d) => DistinctKeys(d) && forall i :: 0 <= i < |d| ==> Proper(d[i].value)
    case _ => true
  }

  ghost predicate DistinctKeys(d: Dict) {
    forall i, j :: 0 <= i < j < |d| ==> d[i].key != d[j].key
  }

  ghost predicate ProperFetch(fetch: Fetch) {
    forall stem, uri :: Proper(fetch(stem, uri))
  }

  ghost predicate DistinctStems(slots: seq<(string, string)>) {
    forall i, j :: 0 <= i < j < |slots| ==> slots[i].0 != slots[j].0
  }

  lemma SuffixBack(key: string)
    requires EndsWith(key, "_uri")
    ensures DropSuffix(key, "_uri") + "_uri" == key
  {
  }

  /** The field a slot comes from. */
  lemma {:induction false} SlotHasKey(d: Dict, i: nat) returns (k: nat)
    requires i < |Slots(d, None)|
    ensures k < |d| && d[k].key == Slots(d, None)[i].0 + "_uri"
  {
    var slot := IsSlot(d[0].key, d[0].value);
    if slot {
      SuffixBack(d[0].key);
    }
    if slot && i == 0 {
      k := 0;
    } else {
      k := SlotHasKey(d[1..], if slot then i - 1 else i);
      k := k + 1;
    }
  }

  lemma {:induction false} SlotsDistinct(d: Dict)
    requires DistinctKeys(d)
    ensures DistinctStems(Slots(d, None))
  {
    if d != [] {
      SlotsDistinct(d[1..]);
      var rest := Slots(d[1..], None);
      if IsSlot(d[0].key, d[0].value) {
        var stem := DropSuffix(d[0].key, "_uri");
        SuffixBack(d[0].key);
        forall i | 0 <= i < |rest| ensures rest[i].0 != stem {
          var k := SlotHasKey(d[1..], i);
          assert d[1..][k] == d[k + 1];
        }
      }
    }
  }

  // --- what an expansion leaves, for any fetch -------------------------------------------------------

  /** The key a slot writes to. */
  function OutKey(slot: (string, string), depth: int, visited: set<string>): string {
    if depth <= 0 || slot.1 in visited then slot.0 + "_uri" else slot.0
  }

  function OutKeys(slots: seq<(string, string)>, depth: int, visited: set<string>): set<string> {
    set i | 0 <= i < |slots| :: OutKey(slots[i], depth, visited)
  }

  /** Nothing is left to expand below this document: every reached slot is expanded into something with nothing left,
      or a later slot of its object writes over it. */
  ghost predicate Done(j: Json, fetch: Fetch, depth: int, visited: set<string>, allow: Allow)
    decreases Fuel(depth), 1, j
  {
    match j
    case Arr(items) => ItemsDone(items, fetch, depth, visited, allow)
    case Obj(d) => KeptDone(d, Slots(d, allow), fetch, depth, visited, allow)
                   && SlotsDone(Slots(d, allow), fetch, depth, visited, allow)
    case _ => true
  }

  ghost predicate ItemsDone(items: seq<Json>, fetch: Fetch, depth: int, visited: set<string>, allow: Allow)
    decreases Fuel(depth), 1, items
  {
    items == [] || (Done(items[0], fetch, depth, visited, allow) && ItemsDone(items[1..], fetch, depth, visited, allow))
  }

  ghost predicate KeptDone(d: Dict, slots: seq<(string, string)>, fetch: Fetch, depth: int, visited: set<string>,
                           allow: Allow)
    decreases Fuel(depth), 1, d
  {
    d == [] ||
    ( && (Superseded(d[0].key, slots) || Done(d[0].value, fetch, depth, visited, allow))
      && KeptDone(d[1..], slots, fetch, depth, visited, allow))
  }

  /** There is depth left, the URI is not on the path, the payload is no string under a `_uri` key again, and nothing
      is left below it. */
  ghost predicate SlotDone(slot: (string, string), fetch: Fetch, depth: int, visited: set<string>, allow: Allow)
    decreases Fuel(depth), 0, 0
  {
    && depth > 0 && slot.1 !in visited
    && !Open(slot.0, fetch(slot.0, slot.1), allow)
    && Done(fetch(slot.0, slot.1), fetch, depth - 1, visited + {slot.1}, allow)
  }

  ghost predicate SlotsDone(slots: seq<(string, string)>, fetch: Fetch, depth: int, visited: set<string>, allow: Allow)
    decreases Fuel(depth), 0, 1, |slots|
  {
    slots == [] ||
    ( && (OutKey(slots[0], depth, visited) in OutKeys(slots[1..], depth, visited)
          || SlotDone(slots[0], fetch, depth, visited, allow))
      && SlotsDone(slots[1..], fetch, depth, visited, allow))
  }

  ghost predicate HasKey(d: Dict, k: string) {
    exists n :: 0 <= n < |d| && d[n].key == k
  }

  ghost predicate CleanField(f: Field, allow: Allow) {
    !Open(f.key, f.value, allow) && NoSlots(f.value, allow)
  }

  /** No slots, except perhaps under these keys. */
  ghost predicate CleanBut(d: Dict, keys: set<string>, allow: Allow) {
    forall i :: 0 <= i < |d| && d[i].key !in keys ==> CleanField(d[i], allow)
  }

  lemma {:induction false} CleanIs(d: Dict, allow: Allow)
    ensures CleanBut(d, {}, allow) <==> NoSlotFields(d, allow)
  {
    if d != [] {
      CleanIs(d[1..], allow);
      assert forall i :: 0 < i < |d| ==> d[i] == d[1..][i - 1];
      assert NoSlotFields(d, allow) <==> CleanField(d[0], allow) && NoSlotFields(d[1..], allow);
    }
  }

  lemma CleanCons(d: Dict, keys: set<string>, allow: Allow)
    requires d != []
    ensures CleanBut(d, keys, allow) <==> (d[0].key in keys || CleanField(d[0], allow)) && CleanBut(d[1..], keys, allow)
  {
    assert forall i :: 0 < i < |d| ==> d[i] == d[1..][i - 1];
  }

  /** Writing a key decides about that key, unless it is excepted. */
  lemma {:induction false} CleanSet(d: Dict, k: string, v: Json, keys: set<string>, allow: Allow)
    requires DistinctKeys(d)
    ensures CleanBut(Set(d, k, v), keys, allow) <==>
      CleanBut(d, keys + {k}, allow) && (k in keys || CleanField(Field(k, v), allow))
    ensures DistinctKeys(Set(d, k, v))
    ensures forall i :: 0 <= i < |Set(d, k, v)| ==> Set(d, k, v)[i].key == k || HasKey(d, Set(d, k, v)[i].key)
  {
    var s := Set(d, k, v);
    if d == [] {
      assert s == [Field(k, v)] && s[0] == Field(k, v);
    } else if d[0].key == k {
      assert forall i :: 0 < i < |s| ==> s[i] == d[i];
      assert s[0] == Field(k, v);
    } else {
      CleanSet(d[1..], k, v, keys, allow);
      assert s == [d[0]] + Set(d[1..], k, v);
      CleanConsSet(d, k, keys, s, Set(d[1..], k, v), k in keys || CleanField(Field(k, v), allow), allow);
    }
  }

  lemma CleanConsSet(d: Dict, k: string, keys: set<string>, s: Dict, rest: Dict, fine: bool, allow: Allow)
    requires DistinctKeys(d) && d != [] && d[0].key != k && s == [d[0]] + rest
    requires CleanBut(rest, keys, allow) <==> CleanBut(d[1..], keys + {k}, allow) && fine
    requires DistinctKeys(rest) && forall i :: 0 <= i < |rest| ==> rest[i].key == k || HasKey(d[1..], rest[i].key)
    ensures CleanBut(s, keys, allow) <==> CleanBut(d, keys + {k}, allow) && fine
    ensures DistinctKeys(s) && forall i :: 0 <= i < |s| ==> s[i].key == k || HasKey(d, s[i].key)
  {
    CleanCons(s, keys, allow);
    CleanCons(d, keys + {k}, allow);
    assert s[1..] == rest;
    forall i | 0 < i < |s| ensures s[i].key != s[0].key && (s[i].key == k || HasKey(d, s[i].key)) {
      assert s[i] == rest[i - 1];
      if s[i].key != k {
        var n :| 0 <= n < |d[1..]| && d[1..][n].key == s[i].key;
        assert d[n + 1] == d[1..][n];
      }
    }
    assert forall i, j :: 0 < i < j < |s| ==> s[i] == rest[i - 1] && s[j] == rest[j - 1];
  }

  /** Strings stay what they are, and nothing else becomes one. */
  lemma FlattenStrings(key: string, j: Json, fetch: Fetch, depth: int, path: set<string>, allow: Allow)
    ensures Open(key, Flatten(j, fetch, depth, path, allow), allow) <==> Open(key, j, allow)
  {
  }

  /** The expansion theorem, for every fetch, depth, visited set and allowlist: the result has no allowed `*_uri`
      reference if and only if every reached slot is expanded into something without any, or written over. */
  lemma {:induction false} ExpansionExact(j: Json, fetch: Fetch, depth: int, visited: set<string>, allow: Allow)
    requires Proper(j) && ProperFetch(fetch)
    ensures NoSlots(Flatten(j, fetch, depth, visited, allow), allow) <==> Done(j, fetch, depth, visited, allow)
    decreases Fuel(depth), 1, j
  {
    match j {
      case Arr(items) => ItemsExact(items, fetch, depth, visited, allow);
      case Obj(d) =>
        var slots := Slots(d, allow);
        var kept := FlattenKept(d, slots, fetch, depth, visited, allow);
        SlotsAreSlots(d, allow);
        KeptExact(d, d, fetch, depth, visited, allow);
        KeptKeys(d, slots, fetch, depth, visited, allow);
        ExpandExact(slots, kept, fetch, depth, visited, allow);
        KeptClean(kept, slots, depth, visited, allow);
      case _ =>
    }
  }

  lemma {:induction false} ItemsExact(items: seq<Json>, fetch: Fetch, depth: int, visited: set<string>, allow: Allow)
    requires ProperFetch(fetch) && forall i :: 0 <= i < |items| ==> Proper(items[i])
    ensures NoSlotItems(FlattenItems(items, fetch, depth, visited, allow), allow) <==>
      ItemsDone(items, fetch, depth, visited, allow)
    decreases Fuel(depth), 1, items
  {
    if items != [] {
      ExpansionExact(items[0], fetch, depth, visited, allow);
      ItemsExact(items[1..], fetch, depth, visited, allow);
      var out := FlattenItems(items, fetch, depth, visited, allow);
      assert out[1..] == FlattenItems(items[1..], fetch, depth, visited, allow);
    }
  }

  /** A slot key is superseded, so what is kept is no slot. */
  lemma {:induction false} SlotSuperseded(d: Dict, i: nat, allow: Allow)
    requires i < |d| && Open(d[i].key, d[i].value, allow)
    ensures Superseded(d[i].key, Slots(d, allow))
  {
    var slots := Slots(d, allow);
    if i == 0 {
      assert d[0].key == slots[0].0 + "_uri";
    } else {
      SlotSuperseded(d[1..], i - 1, allow);
      var rest := Slots(d[1..], allow);
      var n :| 0 <= n < |rest| &&
        (d[i].key == rest[n].0 + "_uri" || d[i].key == rest[n].0 + "_cid" || d[i].key == rest[n].0);
      assert slots == rest || slots[n + 1] == rest[n];
    }
  }

  lemma {:induction false} KeptExact(whole: Dict, d: Dict, fetch: Fetch, depth: int, visited: set<string>, allow: Allow)
    requires |d| <= |whole| && d == whole[|whole| - |d|..] && ProperFetch(fetch)
    requires forall i :: 0 <= i < |d| ==> Proper(d[i].value)
    ensures NoSlotFields(FlattenKept(d, Slots(whole, allow), fetch, depth, visited, allow), allow) <==>
      KeptDone(d, Slots(whole, allow), fetch, depth, visited, allow)
    decreases Fuel(depth), 1, d
  {
    if d != [] {
      var slots := Slots(whole, allow);
      KeptExact(whole, d[1..], fetch, depth, visited, allow);
      if Open(d[0].key, d[0].value, allow) {
        SlotSuperseded(whole, |whole| - |d|, allow);
      } else if !Superseded(d[0].key, slots) {
        ExpansionExact(d[0].value, fetch, depth, visited, allow);
        FlattenStrings(d[0].key, d[0].value, fetch, depth, visited, allow);
        var out := FlattenKept(d, slots, fetch, depth, visited, allow);
        assert out[1..] == FlattenKept(d[1..], slots, fetch, depth, visited, allow);
      }
    }
  }

  /** Kept fields have distinct keys, none of them superseded. */
  lemma {:induction false} KeptKeys(d: Dict, slots: seq<(string, string)>, fetch: Fetch, depth: int,
                                    visited: set<string>, allow: Allow)
    requires DistinctKeys(d)
    ensures var kept := FlattenKept(d, slots, fetch, depth, visited, allow);
      && DistinctKeys(kept)
      && forall i :: 0 <= i < |kept| ==> !Superseded(kept[i].key, slots) && HasKey(d, kept[i].key)
    decreases |d|
  {
    if d != [] {
      KeptKeys(d[1..], slots, fetch, depth, visited, allow);
      var kept := FlattenKept(d, slots, fetch, depth, visited, allow);
      var rest := FlattenKept(d[1..], slots, fetch, depth, visited, allow);
      forall i | 0 <= i < |rest|
        ensures rest[i].key != d[0].key && HasKey(d, rest[i].key)
      {
        var n :| 0 <= n < |d[1..]| && d[1..][n].key == rest[i].key;
        assert d[n + 1] == d[1..][n];
      }
      if !Superseded(d[0].key, slots) {
        assert forall i :: 0 < i < |kept| ==> kept[i] == rest[i - 1];
      }
    }
  }

  lemma KeptClean(kept: Dict, slots: seq<(string, string)>, depth: int, visited: set<string>, allow: Allow)
    requires forall i :: 0 <= i < |kept| ==> !Superseded(kept[i].key, slots)
    ensures CleanBut(kept, OutKeys(slots, depth, visited), allow) <==> NoSlotFields(kept, allow)
  {
    CleanIs(kept, allow);
    assert forall i :: 0 <= i < |kept| ==> kept[i].key !in OutKeys(slots, depth, visited);
  }

  /** What the slots have for URIs is not blank. */
  lemma {:induction false} SlotsAreSlots(d: Dict, allow: Allow)
    ensures forall i :: 0 <= i < |Slots(d, allow)| ==>
      var (stem, uri) := Slots(d, allow)[i]; Open(stem + "_uri", Str(uri), allow)
  {
    if d != [] {
      SlotsAreSlots(d[1..], allow);
      if Open(d[0].key, d[0].value, allow) {
        SuffixBack(d[0].key);
        StripTrims(d[0].value.s);
      }
    }
  }

  lemma {:induction false} ExpandExact(slots: seq<(string, string)>, out: Dict, fetch: Fetch, depth: int,
                                       visited: set<string>, allow: Allow)
    requires ProperFetch(fetch) && DistinctKeys(out)
    requires forall i :: 0 <= i < |slots| ==> Open(slots[i].0 + "_uri", Str(slots[i].1), allow)
    ensures NoSlotFields(Expand(slots, out, fetch, depth, visited, allow), allow) <==>
      CleanBut(out, OutKeys(slots, depth, visited), allow) && SlotsDone(slots, fetch, depth, visited, allow)
    decreases Fuel(depth), 0, 1, |slots|
  {
    if slots == [] {
      CleanIs(out, allow);
    } else {
      var f := SlotField(slots[0], fetch, depth, visited, allow);
      FieldExact(slots[0], fetch, depth, visited, allow);
      CleanSet(out, f.key, f.value, OutKeys(slots[1..], depth, visited), allow);
      ExpandExact(slots[1..], Set(out, f.key, f.value), fetch, depth, visited, allow);
      OutKeysStep(slots, depth, visited);
    }
  }

  lemma OutKeysStep(slots: seq<(string, string)>, depth: int, visited: set<string>)
    requires slots != []
    ensures OutKeys(slots, depth, visited) == OutKeys(slots[1..], depth, visited) + {OutKey(slots[0], depth, visited)}
  {
    forall i | 0 < i < |slots| ensures OutKey(slots[i], depth, visited) in OutKeys(slots[1..], depth, visited) {
      assert slots[1..][i - 1] == slots[i];
    }
  }

  lemma {:induction false} FieldExact(slot: (string, string), fetch: Fetch, depth: int, visited: set<string>,
                                      allow: Allow)
    requires ProperFetch(fetch) && Open(slot.0 + "_uri", Str(slot.1), allow)
    ensures SlotField(slot, fetch, depth, visited, allow).key == OutKey(slot, depth, visited)
    ensures CleanField(SlotField(slot, fetch, depth, visited, allow), allow) <==>
      SlotDone(slot, fetch, depth, visited, allow)
    decreases Fuel(depth), 0, 0
  {
    var (stem, uri) := slot;
    if depth > 0 && uri !in visited {
      var payload := fetch(stem, uri);
      ExpandedField(stem, uri, fetch, depth, visited, allow);
      ExpansionExact(payload, fetch, depth - 1, visited + {uri}, allow);
      PayloadExact(stem, payload, fetch, depth - 1, visited + {uri}, allow);
    } else {
      KeptField(stem, uri, fetch, depth, visited, allow);
    }
  }

  lemma ExpandedField(stem: string, uri: string, fetch: Fetch, depth: int, visited: set<string>, allow: Allow)
    requires depth > 0 && uri !in visited
    ensures SlotField((stem, uri), fetch, depth, visited, allow)
         == Field(stem, Flatten(fetch(stem, uri), fetch, depth - 1, visited + {uri}, allow))
    ensures SlotDone((stem, uri), fetch, depth, visited, allow) <==>
      !Open(stem, fetch(stem, uri), allow) && Done(fetch(stem, uri), fetch, depth - 1, visited + {uri}, allow)
  {
  }

  lemma KeptField(stem: string, uri: string, fetch: Fetch, depth: int, visited: set<string>, allow: Allow)
    requires depth <= 0 || uri in visited
    ensures SlotField((stem, uri), fetch, depth, visited, allow) == Field(stem + "_uri", Str(uri))
    ensures !SlotDone((stem, uri), fetch, depth, visited, allow)
  {
  }

  lemma PayloadExact(stem: string, payload: Json, fetch: Fetch, depth: int, visited: set<string>, allow: Allow)
    requires NoSlots(Flatten(payload, fetch, depth, visited, allow), allow) <==>
      Done(payload, fetch, depth, visited, allow)
    ensures CleanField(Field(stem, Flatten(payload, fetch, depth, visited, allow)), allow) <==>
      !Open(stem, payload, allow) && Done(payload, fetch, depth, visited, allow)
  {
    FlattenStrings(stem, payload, fetch, depth, visited, allow);
  }

  // --- on acyclic graphs -----------------------------------------------------------------------------

  ghost predicate SlotsAcyclic(slots: seq<(string, string)>, fetch: Fetch, h: int, path: set<string>) {
    forall i :: 0 <= i < |slots| ==> SlotAcyclic(slots[i].0, slots[i].1, fetch, h, path)
  }

  lemma {:induction false} SlotsOfAcyclic(d: Dict, fetch: Fetch, h: int, path: set<string>)
    requires FieldsAcyclic(d, fetch, h, path)
    ensures SlotsAcyclic(Slots(d, None), fetch, h, path)
  {
    if d != [] {
      SlotsOfAcyclic(d[1..], fetch, h, path);
    }
  }

  /** With depth for the whole graph nothing is left exactly when every reached slot settles. */
  lemma {:induction false} DoneIsSettled(j: Json, fetch: Fetch, h: int, depth: int, path: set<string>)
    requires Acyclic(j, fetch, h, path) && depth >= h && Proper(j) && ProperFetch(fetch)
    ensures Done(j, fetch, depth, path, None) <==> Settles(j, fetch, h)
    decreases Fuel(h), 1, j
  {
    match j {
      case Arr(items) => ItemsSettled(items, fetch, h, depth, path);
      case Obj(d) =>
        SlotsOfAcyclic(d, fetch, h, path);
        SlotsDistinct(d);
        KeptSettled(d, d, fetch, h, depth, path);
        SlotsSettled(Slots(d, None), fetch, h, depth, path);
      case _ =>
    }
  }

  lemma {:induction false} ItemsSettled(items: seq<Json>, fetch: Fetch, h: int, depth: int, path: set<string>)
    requires ItemsAcyclic(items, fetch, h, path) && depth >= h && ProperFetch(fetch)
    requires forall i :: 0 <= i < |items| ==> Proper(items[i])
    ensures ItemsDone(items, fetch, depth, path, None) <==> ItemsSettle(items, fetch, h)
    decreases Fuel(h), 1, items
  {
    if items != [] {
      DoneIsSettled(items[0], fetch, h, depth, path);
      ItemsSettled(items[1..], fetch, h, depth, path);
    }
  }

  lemma {:induction false} KeptSettled(whole: Dict, d: Dict, fetch: Fetch, h: int, depth: int, path: set<string>)
    requires |d| <= |whole| && d == whole[|whole| - |d|..]
    requires FieldsAcyclic(d, fetch, h, path) && depth >= h && ProperFetch(fetch)
    requires forall i :: 0 <= i < |d| ==> Proper(d[i].value)
    ensures KeptDone(d, Slots(whole, None), fetch, depth, path, None) <==> KeptSettle(d, Slots(whole, None), fetch, h)
    decreases Fuel(h), 1, d
  {
    if d != [] {
      KeptSettled(whole, d[1..], fetch, h, depth, path);
      if IsSlot(d[0].key, d[0].value) {
        SlotSuperseded(whole, |whole| - |d|, None);
      } else {
        DoneIsSettled(d[0].value, fetch, h, depth, path);
      }
    }
  }

  /** Every slot is expanded under its own stem, and no two of them are the same. */
  lemma {:induction false} SlotsSettled(slots: seq<(string, string)>, fetch: Fetch, h: int, depth: int,
                                        path: set<string>)
    requires SlotsAcyclic(slots, fetch, h, path) && depth >= h && ProperFetch(fetch) && DistinctStems(slots)
    ensures SlotsDone(slots, fetch, depth, path, None) <==> SlotsSettle(slots, fetch, h)
    decreases Fuel(h), 0, 1, |slots|
  {
    if slots != [] {
      var (stem, uri) := slots[0];
      assert SlotAcyclic(stem, uri, fetch, h, path);
      DoneIsSettled(fetch(stem, uri), fetch, h - 1, depth - 1, path + {uri});
      SlotSettled(stem, uri, fetch, h, depth, path);
      SlotsSettled(slots[1..], fetch, h, depth, path);
      SlotsApart(slots, fetch, h, depth, path);
    }
  }

  lemma SlotSettled(stem: string, uri: string, fetch: Fetch, h: int, depth: int, path: set<string>)
    requires h > 0 && depth >= h && uri !in path
    requires Done(fetch(stem, uri), fetch, depth - 1, path + {uri}, None) <==> Settles(fetch(stem, uri), fetch, h - 1)
    ensures SlotDone((stem, uri), fetch, depth, path, None) <==> SlotSettles((stem, uri), fetch, h)
  {
  }

  lemma SlotsApart(slots: seq<(string, string)>, fetch: Fetch, h: int, depth: int, path: set<string>)
    requires slots != [] && SlotsAcyclic(slots, fetch, h, path) && depth >= h && DistinctStems(slots)
    ensures OutKey(slots[0], depth, path) !in OutKeys(slots[1..], depth, path)
  {
    assert SlotAcyclic(slots[0].0, slots[0].1, fetch, h, path);
    forall i | 0 <= i < |slots[1..]| ensures OutKey(slots[1..][i], depth, path) != slots[0].0 {
      assert slots[1..][i] == slots[i + 1] && SlotAcyclic(slots[i + 1].0, slots[i + 1].1, fetch, h, path);
    }
  }

  /** Depth beyond the height changes nothing. */
  lemma {:induction false} DepthIrrelevant(j: Json, fetch: Fetch, h: int, d1: int, d2: int, path: set<string>)
    requires Acyclic(j, fetch, h, path) && d1 >= h && d2 >= h
    ensures Flatten(j, fetch, d1, path, None) == Flatten(j, fetch, d2, path, None)
    decreases Fuel(h), 1, j
  {
    match j {
      case Arr(items) => ItemsDepthIrrelevant(items, fetch, h, d1, d2, path);
      case Obj(d) =>
        var slots := Slots(d, None);
        SlotsOfAcyclic(d, fetch, h, path);
        KeptDepthIrrelevant(d, d, fetch, h, d1, d2, path);
        ExpandDepthIrrelevant(slots, FlattenKept(d, slots, fetch, d1, path, None), fetch, h, d1, d2, path);
      case _ =>
    }
  }

  lemma {:induction false} ItemsDepthIrrelevant(items: seq<Json>, fetch: Fetch, h: int, d1: int, d2: int,
                                                path: set<string>)
    requires ItemsAcyclic(items, fetch, h, path) && d1 >= h && d2 >= h
    ensures FlattenItems(items, fetch, d1, path, None) == FlattenItems(items, fetch, d2, path, None)
    decreases Fuel(h), 1, items
  {
    if items != [] {
      DepthIrrelevant(items[0], fetch, h, d1, d2, path);
      ItemsDepthIrrelevant(items[1..], fetch, h, d1, d2, path);
    }
  }

  lemma {:induction false} KeptDepthIrrelevant(whole: Dict, d: Dict, fetch: Fetch, h: int, d1: int, d2: int,
                                               path: set<string>)
    requires |d| <= |whole| && d == whole[|whole| - |d|..]
    requires FieldsAcyclic(d, fetch, h, path) && d1 >= h && d2 >= h
    ensures FlattenKept(d, Slots(whole, None), fetch, d1, path, None)
         == FlattenKept(d, Slots(whole, None), fetch, d2, path, None)
    decreases Fuel(h), 1, d
  {
    if d != [] {
      KeptDepthIrrelevant(whole, d[1..], fetch, h, d1, d2, path);
      if IsSlot(d[0].key, d[0].value) {
        SlotSuperseded(whole, |whole| - |d|, None);
      } else {
        DepthIrrelevant(d[0].value, fetch, h, d1, d2, path);
      }
    }
  }

  lemma {:induction false} ExpandDepthIrrelevant(slots: seq<(string, string)>, out: Dict, fetch: Fetch, h: int,
                                                 d1: int, d2: int, path: set<string>)
    requires SlotsAcyclic(slots, fetch, h, path) && d1 >= h && d2 >= h
    ensures Expand(slots, out, fetch, d1, path, None) == Expand(slots, out, fetch, d2, path, None)
    decreases Fuel(h), 0, 1, |slots|
  {
    if slots != [] {
      var (stem, uri) := slots[0];
      assert SlotAcyclic(stem, uri, fetch, h, path);
      DepthIrrelevant(fetch(stem, uri), fetch, h - 1, d1 - 1, d2 - 1, path + {uri});
      var f := SlotField(slots[0], fetch, d1, path, None);
      ExpandDepthIrrelevant(slots[1..], Set(out, f.key, f.value), fetch, h, d1, d2, path);
    }
  }

  // --- bounded height already means acyclic when a URI denotes one document --------------------------

  ghost predicate IgnoresStem(fetch: Fetch) {
    forall s, t, u :: fetch(s, u) == fetch(t, u)
  }

  lemma {:induction false} HeightMonotone(j: Json, fetch: Fetch, h: int, h': int)
    requires Height(j, fetch, h) && h <= h'
    ensures Height(j, fetch, h')
    decreases Fuel(h), 1, j
  {
    match j {
      case Arr(items) => ItemsHeightMonotone(items, fetch, h, h');
      case Obj(d) => FieldsHeightMonotone(d, fetch, h, h');
      case _ =>
    }
  }

  lemma {:induction false} ItemsHeightMonotone(items: seq<Json>, fetch: Fetch, h: int, h': int)
    requires ItemsHeight(items, fetch, h) && h <= h'
    ensures ItemsHeight(items, fetch, h')
    decreases Fuel(h), 1, items
  {
    if items != [] {
      HeightMonotone(items[0], fetch, h, h');
      ItemsHeightMonotone(items[1..], fetch, h, h');
    }
  }

  lemma {:induction false} FieldsHeightMonotone(d: Dict, fetch: Fetch, h: int, h': int)
    requires FieldsHeight(d, fetch, h) && h <= h'
    ensures FieldsHeight(d, fetch, h')
    decreases Fuel(h), 1, d
  {
    if d != [] {
      FieldsHeightMonotone(d[1..], fetch, h, h');
      if IsSlot(d[0].key, d[0].value) {
        HeightMonotone(fetch(DropSuffix(d[0].key, "_uri"), Strip(d[0].value.s)), fetch, h - 1, h' - 1);
      } else {
        HeightMonotone(d[0].value, fetch, h, h');
      }
    }
  }

  lemma {:induction false} AcyclicMonotone(j: Json, fetch: Fetch, h: int, h': int, path: set<string>)
    requires Acyclic(j, fetch, h, path) && h <= h'
    ensures Acyclic(j, fetch, h', path)
    decreases Fuel(h), 1, j
  {
    match j {
      case Arr(items) => ItemsAcyclicMonotone(items, fetch, h, h', path);
      case Obj(d) => FieldsAcyclicMonotone(d, fetch, h, h', path);
      case _ =>
    }
  }

  lemma {:induction false} ItemsAcyclicMonotone(items: seq<Json>, fetch: Fetch, h: int, h': int, path: set<string>)
    requires ItemsAcyclic(items, fetch, h, path) && h <= h'
    ensures ItemsAcyclic(items, fetch, h', path)
    decreases Fuel(h), 1, items
  {
    if items != [] {
      AcyclicMonotone(items[0], fetch, h, h', path);
      ItemsAcyclicMonotone(items[1..], fetch, h, h', path);
    }
  }

  lemma {:induction false} FieldsAcyclicMonotone(d: Dict, fetch: Fetch, h: int, h': int, path: set<string>)
    requires FieldsAcyclic(d, fetch, h, path) && h <= h'
    ensures FieldsAcyclic(d, fetch, h', path)
    decreases Fuel(h), 1, d
  {
    if d != [] {
      FieldsAcyclicMonotone(d[1..], fetch, h, h', path);
      if IsSlot(d[0].key, d[0].value) {
        var stem, uri := DropSuffix(d[0].key, "_uri"), Strip(d[0].value.s);
        AcyclicMonotone(fetch(stem, uri), fetch, h - 1, h' - 1, path + {uri});
      } else {
        AcyclicMonotone(d[0].value, fetch, h, h', path);
      }
    }
  }

  /** The least bound that fits, at or below a given one. */
  ghost function LeastHeight(j: Json, fetch: Fetch, h: int): (l: int)
    requires Height(j, fetch, h) && h >= 0
    ensures 0 <= l <= h && Height(j, fetch, l) && (l > 0 ==> !Height(j, fetch, l - 1))
  {
    if h > 0 && Height(j, fetch, h - 1) then LeastHeight(j, fetch, h - 1) else h
  }

  /** The documents of the path are all taller than anything still to be met. */
  ghost predicate Taller(path: set<string>, fetch: Fetch, h: int) {
    forall v :: v in path ==> h > 0 ==> !Height(fetch("", v), fetch, h - 1)
  }

  lemma {:induction false} HeightIsAcyclic(j: Json, fetch: Fetch, h: int, path: set<string>)
    requires IgnoresStem(fetch) && h >= 0 && Height(j, fetch, h) && Taller(path, fetch, h)
    ensures Acyclic(j, fetch, h, path)
    decreases Fuel(h), 1, j
  {
    match j {
      case Arr(items) => ItemsHeightIsAcyclic(items, fetch, h, path);
      case Obj(d) => FieldsHeightIsAcyclic(d, fetch, h, path);
      case _ =>
    }
  }

  lemma {:induction false} ItemsHeightIsAcyclic(items: seq<Json>, fetch: Fetch, h: int, path: set<string>)
    requires IgnoresStem(fetch) && h >= 0 && ItemsHeight(items, fetch, h) && Taller(path, fetch, h)
    ensures ItemsAcyclic(items, fetch, h, path)
    decreases Fuel(h), 1, items
  {
    if items != [] {
      HeightIsAcyclic(items[0], fetch, h, path);
      ItemsHeightIsAcyclic(items[1..], fetch, h, path);
    }
  }

  lemma {:induction false} FieldsHeightIsAcyclic(d: Dict, fetch: Fetch, h: int, path: set<string>)
    requires IgnoresStem(fetch) && h >= 0 && FieldsHeight(d, fetch, h) && Taller(path, fetch, h)
    ensures FieldsAcyclic(d, fetch, h, path)
    decreases Fuel(h), 1, d
  {
    if d != [] {
      FieldsHeightIsAcyclic(d[1..], fetch, h, path);
      if IsSlot(d[0].key, d[0].value) {
        SlotHeightIsAcyclic(DropSuffix(d[0].key, "_uri"), Strip(d[0].value.s), fetch, h, path);
      } else {
        HeightIsAcyclic(d[0].value, fetch, h, path);
      }
    }
  }

  lemma {:induction false} SlotHeightIsAcyclic(stem: string, uri: string, fetch: Fetch, h: int, path: set<string>)
    requires IgnoresStem(fetch) && h > 0 && Height(fetch(stem, uri), fetch, h - 1) && Taller(path, fetch, h)
    ensures SlotAcyclic(stem, uri, fetch, h, path)
    decreases Fuel(h), 0, stem
  {
    var payload := fetch(stem, uri);
    assert payload == fetch("", uri);
    var l := LeastHeight(payload, fetch, h - 1);
    forall v | v in path + {uri} ensures l > 0 ==> !Height(fetch("", v), fetch, l - 1) {
      if v in path && l > 0 && Height(fetch("", v), fetch, l - 1) {
        HeightMonotone(fetch("", v), fetch, l - 1, h - 1);
      }
    }
    HeightIsAcyclic(payload, fetch, l, path + {uri});
    AcyclicMonotone(payload, fetch, l, h - 1, path + {uri});
  }

  /** When no chain is longer than `h` or comes back to a URI on its path, every depth from `h` on gives the same
      result, and it has no `*_uri` reference if and only if no reached slot with a stem ending in `_uri` has a
      non-blank string for payload. */
  lemma AcyclicExact(j: Json, fetch: Fetch, h: int, depth: int, visited: set<string>)
    requires Acyclic(j, fetch, h, visited) && depth >= h && Proper(j) && ProperFetch(fetch)
    ensures NoSlots(Flatten(j, fetch, depth, visited, None), None) <==> Settles(j, fetch, h)
    ensures Flatten(j, fetch, depth, visited, None) == Flatten(j, fetch, h, visited, None)
  {
    ExpansionExact(j, fetch, depth, visited, None);
    DoneIsSettled(j, fetch, h, depth, visited);
    DepthIrrelevant(j, fetch, h, depth, h, visited);
  }

  /** Where a URI denotes one document, whatever the stem, bounded chains are enough. */
  lemma ExpansionComplete(j: Json, fetch: Fetch, h: nat, depth: int)
    requires IgnoresStem(fetch) && Height(j, fetch, h) && depth >= h && Proper(j) && ProperFetch(fetch)
    ensures NoSlots(Flatten(j, fetch, depth, {}, None), None) <==> Settles(j, fetch, h)
    ensures Flatten(j, fetch, depth, {}, None) == Flatten(j, fetch, h, {}, None)
  {
    HeightIsAcyclic(j, fetch, h, {});
    AcyclicExact(j, fetch, h, depth, {});
  }

  /** No key of the graph, up to `h` references away, ends in `_uri_uri`. */
  ghost predicate PlainKeys(j: Json, fetch: Fetch, h: int)
    decreases Fuel(h), 1, j
  {
    match j
    case Arr(items) => PlainItems(items, fetch, h)
    case Obj(d) => PlainFields(d, fetch, h)
    case _ => true
  }

  ghost predicate PlainItems(items: seq<Json>, fetch: Fetch, h: int)
    decreases Fuel(h), 1, items
  {
    items == [] || (PlainKeys(items[0], fetch, h) && PlainItems(items[1..], fetch, h))
  }

  ghost predicate PlainFields(d: Dict, fetch: Fetch, h: int)
    decreases Fuel(h), 1, d
  {
    d == [] ||
    ( && !EndsWith(d[0].key, "_uri_uri") && PlainKeys(d[0].value, fetch, h)
      && (h > 0 && IsSlot(d[0].key, d[0].value) ==>
            PlainKeys(fetch(DropSuffix(d[0].key, "_uri"), Strip(d[0].value.s)), fetch, h - 1))
      && PlainFields(d[1..], fetch, h))
  }

  lemma StemOfKey(key: string)
    requires EndsWith(key, "_uri") && !EndsWith(key, "_uri_uri")
    ensures !EndsWith(DropSuffix(key, "_uri"), "_uri")
  {
    var stem := DropSuffix(key, "_uri");
    assert key == stem + "_uri";
    assert |stem| >= 4 ==> key[|key| - 8..] == stem[|stem| - 4..] + "_uri";
  }

  /** Without such keys nothing is ever left. */
  lemma {:induction false} PlainSettles(j: Json, fetch: Fetch, h: int)
    requires PlainKeys(j, fetch, h)
    ensures Settles(j, fetch, h)
    decreases Fuel(h), 1, j
  {
    match j {
      case Arr(items) => PlainItemsSettle(items, fetch, h);
      case Obj(d) =>
        PlainKeptSettle(d, Slots(d, None), fetch, h);
        PlainSlotsSettle(d, fetch, h);
      case _ =>
    }
  }

  lemma {:induction false} PlainItemsSettle(items: seq<Json>, fetch: Fetch, h: int)
    requires PlainItems(items, fetch, h)
    ensures ItemsSettle(items, fetch, h)
    decreases Fuel(h), 1, items
  {
    if items != [] {
      PlainSettles(items[0], fetch, h);
      PlainItemsSettle(items[1..], fetch, h);
    }
  }

  lemma {:induction false} PlainKeptSettle(d: Dict, slots: seq<(string, string)>, fetch: Fetch, h: int)
    requires PlainFields(d, fetch, h)
    ensures KeptSettle(d, slots, fetch, h)
    decreases Fuel(h), 1, d, 0
  {
    if d != [] {
      PlainSettles(d[0].value, fetch, h);
      PlainKeptSettle(d[1..], slots, fetch, h);
    }
  }

  lemma {:induction false} PlainSlotsSettle(d: Dict, fetch: Fetch, h: int)
    requires PlainFields(d, fetch, h)
    ensures SlotsSettle(Slots(d, None), fetch, h)
    decreases Fuel(h), 1, d, 0
  {
    if d != [] {
      PlainSlotsSettle(d[1..], fetch, h);
      if IsSlot(d[0].key, d[0].value) {
        var stem, uri := DropSuffix(d[0].key, "_uri"), Strip(d[0].value.s);
        StemOfKey(d[0].key);
        if h > 0 {
          PlainSettles(fetch(stem, uri), fetch, h - 1);
        }
        assert Slots(d, None) == [(stem, uri)] + Slots(d[1..], None);
        assert Slots(d, None)[1..] == Slots(d[1..], None);
      }
    }
  }

  /** A fetch that depends on the stem: `a` leads to `b`, and `b` to nothing. */
  const STEM_FETCH: Fetch := (stem, _) => if stem == "a" then Obj([Field("b_uri", Str("u"))]) else Obj([])

  lemma StemFetchIs()
    ensures STEM_FETCH("a", "u") == Obj([Field("b_uri", Str("u"))]) && STEM_FETCH("b", "u") == Obj([])
  {
  }

  /** A slot whose URI is on the path already. */
  lemma OnPath(stem: string, key: string, fetch: Fetch, depth: int)
    requires key == stem + "_uri"
    ensures Flatten(Obj([Field(key, Str("u"))]), fetch, depth, {"u"}, None) == Obj([Field(key, Str("u"))])
    ensures !NoSlots(Obj([Field(key, Str("u"))]), None)
  {
    OneSlot(stem, key);
    var slots := [(stem, "u")];
    OneKept(key, slots, fetch, depth, {"u"});
    assert SlotField(slots[0], fetch, depth, {"u"}, None) == Field(stem + "_uri", Str("u"));
    ExpandStep(slots, [], fetch, depth, {"u"}, None);
    assert slots[1..] == [] && Set([], key, Str("u")) == [Field(key, Str("u"))];
  }

  /** A slot that is expanded. */
  lemma OneExpansion(stem: string, key: string, fetch: Fetch, depth: int, payload: Json)
    requires key == stem + "_uri" && depth > 0 && Flatten(fetch(stem, "u"), fetch, depth - 1, {"u"}, None) == payload
    ensures Flatten(Obj([Field(key, Str("u"))]), fetch, depth, {}, None) == Obj([Field(stem, payload)])
  {
    OneSlot(stem, key);
    var none: set<string> := {};
    var slots := [(stem, "u")];
    assert none + {"u"} == {"u"};
    OneKept(key, slots, fetch, depth, none);
    assert SlotField(slots[0], fetch, depth, none, None) == Field(stem, payload);
    ExpandStep(slots, [], fetch, depth, none, None);
    assert slots[1..] == [] && Set([], stem, payload) == [Field(stem, payload)];
  }

  lemma OneKept(key: string, slots: seq<(string, string)>, fetch: Fetch, depth: int, visited: set<string>)
    requires Superseded(key, slots)
    ensures FlattenKept([Field(key, Str("u"))], slots, fetch, depth, visited, None) == []
  {
    assert [Field(key, Str("u"))][1..] == [];
  }

  lemma OneHop(stem: string, key: string, fetch: Fetch, h: int)
    requires key == stem + "_uri" && h > 0 && Height(fetch(stem, "u"), fetch, h - 1)
    ensures Height(Obj([Field(key, Str("u"))]), fetch, h)
  {
    OneSlot(stem, key);
    assert Strip("u") == "u";
    assert FieldsHeight([Field(key, Str("u"))][1..], fetch, h);
  }

  /** Such a fetch can leave a reference though no chain is longer than two: the same URI is met again on its own
      path. */
  lemma SameUriAgain()
    ensures var j := Obj([Field("a_uri", Str("u"))]);
      Height(j, STEM_FETCH, 2) && !NoSlots(Flatten(j, STEM_FETCH, 2, {}, None), None)
  {
    var inner := Obj([Field("b_uri", Str("u"))]);
    StemFetchIs();
    assert "a" + "_uri" == "a_uri" && "b" + "_uri" == "b_uri";
    OneHop("b", "b_uri", STEM_FETCH, 1);
    OneHop("a", "a_uri", STEM_FETCH, 2);
    OnPath("b", "b_uri", STEM_FETCH, 1);
    OneExpansion("a", "a_uri", STEM_FETCH, 2, inner);
    NestedSlot("a", inner);
  }

  lemma NestedSlot(key: string, inner: Json)
    requires !NoSlots(inner, None)
    ensures !NoSlots(Obj([Field(key, inner)]), None)
  {
  }

  /** A document with one slot. */
  lemma OneSlot(stem: string, key: string)
    requires key == stem + "_uri"
    ensures IsSlot(key, Str("u")) && DropSuffix(key, "_uri") == stem
    ensures Slots([Field(key, Str("u"))], None) == [(stem, "u")] && Superseded(key, [(stem, "u")])
  {
    assert Strip("u") == "u";
    assert key[|stem|..] == "_uri";
    assert [(stem, "u")][0].0 + "_uri" == key;
  }

  /** One that does not settle: a `_uri_uri` key expands into a string under a `_uri` key. */
  lemma DoubleSuffixLeavesSlot()
    ensures var j := Obj([Field("a_uri_uri", Str("u"))]);
      Flatten(j, (_, _) => Str("x"), 8, {}, None) == Obj([Field("a_uri", Str("x"))])
      && !NoSlots(Flatten(j, (_, _) => Str("x"), 8, {}, None), None)
  {
    var d := [Field("a_uri_uri", Str("u"))];
    var fetch: Fetch := (_, _) => Str("x");
    assert Strip("u") == "u" && Strip("x") == "x";
    assert EndsWith("a_uri_uri", "_uri") && DropSuffix("a_uri_uri", "_uri") == "a_uri";
    assert Slots(d, None) == [("a_uri", "u")];
    assert "a_uri" + "_uri" == "a_uri_uri";
    assert Superseded("a_uri_uri", [("a_uri", "u")]) by {
      assert [("a_uri", "u")][0].0 + "_uri" == "a_uri_uri";
    }
    assert FlattenKept(d, [("a_uri", "u")], fetch, 8, {}, None) == [];
    assert SlotField(("a_uri", "u"), fetch, 8, {}, None) == Field("a_uri", Str("x"));
    assert IsSlot("a_uri", Str("x"));
  }

  // --- the loops -------------------------------------------------------------------------------------

  /** One turn of the loop over a list. */
  lemma ItemStep(items: seq<Json>, fetch: Fetch, depth: int, visited: set<string>, allow: Allow, chain: Chain,
                 out: seq<Json>, calls: seq<Chain>)
    requires items != []
    ensures out + FlattenItems(items, fetch, depth, visited, allow)
         == out + [Flatten(items[0], fetch, depth, visited, allow)]
              + FlattenItems(items[1..], fetch, depth, visited, allow)
    ensures calls + ItemChains(items, fetch, depth, visited, allow, chain)
         == calls + Chains(items[0], fetch, depth, visited, allow, chain)
              + ItemChains(items[1..], fetch, depth, visited, allow, chain)
  {
    Reassociate(out, [Flatten(items[0], fetch, depth, visited, allow)],
                FlattenItems(items[1..], fetch, depth, visited, allow));
    Reassociate(calls, Chains(items[0], fetch, depth, visited, allow, chain),
                ItemChains(items[1..], fetch, depth, visited, allow, chain));
  }

  lemma Reassociate<T>(a: seq<T>, b: seq<T>, c: seq<T>)
    ensures a + (b + c) == a + b + c
  {
  }

  /** One turn of the loop over the fields that are kept. */
  lemma KeptStep(d: Dict, slots: seq<(string, string)>, fetch: Fetch, depth: int, visited: set<string>, allow: Allow,
                 chain: Chain,
                 out: Dict, calls: seq<Chain>)
    requires d != []
    ensures var keep := !Superseded(d[0].key, slots);
      && out + FlattenKept(d, slots, fetch, depth, visited, allow)
         == (if keep then out + [Field(d[0].key, Flatten(d[0].value, fetch, depth, visited, allow))] else out)
            + FlattenKept(d[1..], slots, fetch, depth, visited, allow)
      && calls + KeptChains(d, slots, fetch, depth, visited, allow, chain)
         == (if keep then calls + Chains(d[0].value, fetch, depth, visited, allow, chain) else calls)
            + KeptChains(d[1..], slots, fetch, depth, visited, allow, chain)
  {
    if Superseded(d[0].key, slots) {
      assert [] + KeptChains(d[1..], slots, fetch, depth, visited, allow, chain)
           == KeptChains(d[1..], slots, fetch, depth, visited, allow, chain);
    }
  }

  /** One turn of the loop over the slots. */
  lemma SlotStep(slots: seq<(string, string)>, fetch: Fetch, depth: int, visited: set<string>, allow: Allow,
                 chain: Chain, calls: seq<Chain>)
    requires slots != []
    ensures calls + SlotsChains(slots, fetch, depth, visited, allow, chain)
         == calls + SlotChains(slots[0], fetch, depth, visited, allow, chain)
              + SlotsChains(slots[1..], fetch, depth, visited, allow, chain)
  {
  }

  lemma ExpandStep(slots: seq<(string, string)>, out: Dict, fetch: Fetch, depth: int, visited: set<string>,
                   allow: Allow)
    requires slots != []
    ensures var f := SlotField(slots[0], fetch, depth, visited, allow);
      Expand(slots, out, fetch, depth, visited, allow)
           == Expand(slots[1..], Set(out, f.key, f.value), fetch, depth, visited, allow)
  {
  }

  /** `_flatten`; `calls` records every fetch with its chain. */
  method FlattenLoop(j: Json, fetch: Fetch, depth: int, visited: set<string>, allow: Allow, chain: Chain)
    returns (r: Json, calls: seq<Chain>)
    ensures r == Flatten(j, fetch, depth, visited, allow)
    ensures calls == Chains(j, fetch, depth, visited, allow, chain)
    decreases Fuel(depth), 1, j
  {
    match j
    case Arr(items) =>
      var out, more := ItemLoop(items, fetch, depth, visited, allow, chain);
      r, calls := Arr(out), more;
    case Obj(d) =>
      var slots := SlotLoop(d, allow);
      var kept, inner := KeptLoop(d, slots, fetch, depth, visited, allow, chain);
      var out, more := ExpandLoop(slots, kept, fetch, depth, visited, allow, chain);
      r, calls := Obj(out), inner + more;
    case _ =>
      r, calls := j, [];
  }

  method ItemLoop(items: seq<Json>, fetch: Fetch, depth: int, visited: set<string>, allow: Allow, chain: Chain)
    returns (out: seq<Json>, calls: seq<Chain>)
    ensures out == FlattenItems(items, fetch, depth, visited, allow)
    ensures calls == ItemChains(items, fetch, depth, visited, allow, chain)
    decreases Fuel(depth), 1, items
  {
    out, calls := [], [];
    for i := 0 to |items|
      invariant FlattenItems(items, fetch, depth, visited, allow)
           == out + FlattenItems(items[i..], fetch, depth, visited, allow)
      invariant ItemChains(items, fetch, depth, visited, allow, chain)
           == calls + ItemChains(items[i..], fetch, depth, visited, allow, chain)
    {
      var v, more := FlattenLoop(items[i], fetch, depth, visited, allow, chain);
      ItemStep(items[i..], fetch, depth, visited, allow, chain, out, calls);
      assert items[i..][1..] == items[i + 1..];
      out, calls := out + [v], calls + more;
    }
  }

  method KeptLoop(d: Dict, slots: seq<(string, string)>, fetch: Fetch, depth: int, visited: set<string>, allow: Allow,
                  chain: Chain)
    returns (out: Dict, calls: seq<Chain>)
    ensures out == FlattenKept(d, slots, fetch, depth, visited, allow)
    ensures calls == KeptChains(d, slots, fetch, depth, visited, allow, chain)
    decreases Fuel(depth), 1, d
  {
    out, calls := [], [];
    for i := 0 to |d|
      invariant FlattenKept(d, slots, fetch, depth, visited, allow)
           == out + FlattenKept(d[i..], slots, fetch, depth, visited, allow)
      invariant KeptChains(d, slots, fetch, depth, visited, allow, chain)
           == calls + KeptChains(d[i..], slots, fetch, depth, visited, allow, chain)
    {
      KeptStep(d[i..], slots, fetch, depth, visited, allow, chain, out, calls);
      assert d[i..][1..] == d[i + 1..];
      if !Superseded(d[i].key, slots) {
        var v, more := FlattenLoop(d[i].value, fetch, depth, visited, allow, chain);
        out, calls := out + [Field(d[i].key, v)], calls + more;
      }
    }
  }

  method ExpandLoop(slots: seq<(string, string)>, kept: Dict, fetch: Fetch, depth: int, visited: set<string>,
                    allow: Allow, chain: Chain)
    returns (out: Dict, calls: seq<Chain>)
    ensures out == Expand(slots, kept, fetch, depth, visited, allow)
    ensures calls == SlotsChains(slots, fetch, depth, visited, allow, chain)
    decreases Fuel(depth), 0, 1
  {
    out, calls := kept, [];
    for i := 0 to |slots|
      invariant Expand(slots, kept, fetch, depth, visited, allow)
           == Expand(slots[i..], out, fetch, depth, visited, allow)
      invariant SlotsChains(slots, fetch, depth, visited, allow, chain)
           == calls + SlotsChains(slots[i..], fetch, depth, visited, allow, chain)
    {
      SlotStep(slots[i..], fetch, depth, visited, allow, chain, calls);
      ExpandStep(slots[i..], out, fetch, depth, visited, allow);
      assert slots[i..][1..] == slots[i + 1..];
      var f, more := ExpandSlot(slots[i], fetch, depth, visited, allow, chain);
      out, calls := Set(out, f.key, f.value), calls + more;
    }
  }

  /** One slot: the URI again, or the fetched payload expanded. */
  method ExpandSlot(slot: (string, string), fetch: Fetch, depth: int, visited: set<string>, allow: Allow, chain: Chain)
    returns (f: Field, calls: seq<Chain>)
    ensures f == SlotField(slot, fetch, depth, visited, allow)
    ensures calls == SlotChains(slot, fetch, depth, visited, allow, chain)
    decreases Fuel(depth), 0, 0
  {
    var (stem, uri) := slot;
    if depth <= 0 || uri in visited {
      return Field(stem + "_uri", Str(uri)), [];
    }
    var v, more := FlattenLoop(fetch(stem, uri), fetch, depth - 1, visited + {uri}, allow, chain + [uri]);
    return Field(stem, v), [chain + [uri]] + more;
  }

  /** The slot of one field, if it is one. */
  function SlotOf(f: Field, allow: Allow): seq<(string, string)> {
    if Open(f.key, f.value, allow) then [(DropSuffix(f.key, "_uri"), Strip(f.value.s))] else []
  }

  lemma SlotsNext(d: Dict, i: nat, allow: Allow, slots: seq<(string, string)>)
    requires i < |d|
    ensures slots + Slots(d[i..], allow) == slots + SlotOf(d[i], allow) + Slots(d[i + 1..], allow)
  {
    assert d[i..][0] == d[i] && d[i..][1..] == d[i + 1..];
  }

  method SlotLoop(d: Dict, allow: Allow) returns (slots: seq<(string, string)>)
    ensures slots == Slots(d, allow)
  {
    slots := [];
    for i := 0 to |d|
      invariant Slots(d, allow) == slots + Slots(d[i..], allow)
    {
      SlotsNext(d, i, allow, slots);
      if IsSlot(d[i].key, d[i].value) {
        var stem := DropSuffix(d[i].key, "_uri");
        if allow.None? || stem in allow.value {
          slots := slots + [(stem, Strip(d[i].value.s))];
        }
      }
    }
  }
}
