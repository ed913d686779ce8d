/** What an expansion holds (cats/network/cas/flatten_refs.py): every value of it, by where it comes from in the
    document
    and in the fetched ones. */
module FlattenLaw {
  import opened FlattenRefs
  import opened Json
  import opened Text
  import opened Wrappers

  // --- nothing to expand -----------------------------------------------------------------------------

  /** A document without allowed references comes back as it is, list and key order included. */
  lemma {:induction false} NothingToExpand(j: Json, fetch: Fetch, depth: int, visited: set<string>, allow: Allow)
    requires NoSlots(j, allow)
    ensures Flatten(j, fetch, depth, visited, allow) == j
    decreases j, 0
  {
    match j {
      case Arr(items) => ItemsStay(items, fetch, depth, visited, allow);
      case Obj(d) =>
        NoSlotsIn(d, allow);
        FieldsStay(d, fetch, depth, visited, allow);
        assert Slots(d, allow) == [];
      case _ =>
    }
  }

  lemma {:induction false} ItemsStay(items: seq<Json>, fetch: Fetch, depth: int, visited: set<string>, allow: Allow)
    requires NoSlotItems(items, allow)
    ensures FlattenItems(items, fetch, depth, visited, allow) == items
    decreases items
  {
    if items != [] {
      NothingToExpand(items[0], fetch, depth, visited, allow);
      ItemsStay(items[1..], fetch, depth, visited, allow);
    }
  }

  lemma {:induction false} NoSlotsIn(d: Dict, allow: Allow)
    requires NoSlotFields(d, allow)
    ensures Slots(d, allow) == []
  {
    if d != [] {
      NoSlotsIn(d[1..], allow);
    }
  }

  lemma {:induction false} FieldsStay(d: Dict, fetch: Fetch, depth: int, visited: set<string>, allow: Allow)
    requires NoSlotFields(d, allow)
    ensures FlattenKept(d, [], fetch, depth, visited, allow) == d
    decreases d
  {
    if d != [] {
      NothingToExpand(d[0].value, fetch, depth, visited, allow);
      FieldsStay(d[1..], fetch, depth, visited, allow);
    }
  }

  // --- where a value comes from ----------------------------------------------------------------------

  /** A value of the document or of a fetched one, with the depth left there and the URIs on the path to it. */
  datatype Place = Place(value: Json, depth: int, visited: set<string>)

  /** The URI an object refers to under a stem. */
  ghost function Ref(d: Dict, stem: string, allow: Allow): Option<string> {
    match Get(d, stem + "_uri")
    case Some(Str(s)) => if Strip(s) != [] && (allow.None? || stem in allow.value) then Some(Strip(s)) else None
    case _ => None
  }

  /** The URI of the reference that has this key. */
  ghost function Own(d: Dict, k: string, allow: Allow): Option<string> {
    if EndsWith(k, "_uri") then Ref(d, DropSuffix(k, "_uri"), allow) else None
  }

  /** No depth is left, or the URI is on the path. */
  ghost predicate Spent(uri: string, depth: int, visited: set<string>) {
    depth <= 0 || uri in visited
  }

  /** The reference is expanded under its stem. */
  ghost predicate Expanded(d: Dict, stem: string, depth: int, visited: set<string>, allow: Allow) {
    Ref(d, stem, allow).Some? && !Spent(Ref(d, stem, allow).value, depth, visited)
  }

  /** The key is that of a reference which stays. */
  ghost predicate Stays(d: Dict, k: string, depth: int, visited: set<string>, allow: Allow) {
    Own(d, k, allow).Some? && Spent(Own(d, k, allow).value, depth, visited)
  }

  /** The key is a stem that is referred to, or the `_uri` or `_cid` field of one. */
  ghost predicate Replaced(d: Dict, k: string, allow: Allow) {
    exists stem :: Ref(d, stem, allow).Some? && (k == stem + "_uri" || k == stem + "_cid" || k == stem)
  }

  ghost predicate Before(d: Dict, a: string, b: string) {
    exists i, j :: 0 <= i < j < |d| && d[i].key == a && d[j].key == b
  }

  /** Where the field of an expanded object comes from: the fetched document for a stem that is expanded, the URI for a
      reference that stays (the later of the two, if both have this key), nothing next to a reference, and else the
      field itself. */
  ghost function FieldPlace(d: Dict, k: string, fetch: Fetch, depth: int, visited: set<string>,
                            allow: Allow): Option<Place> {
    var expanded, stays := Expanded(d, k, depth, visited, allow), Stays(d, k, depth, visited, allow);
    if expanded && (stays ==> Before(d, k, k + "_uri")) then
      var uri := Ref(d, k, allow).value;
      Some(Place(fetch(k, uri), depth - 1, visited + {uri}))
    else if stays then Some(Place(Str(Own(d, k, allow).value), depth, visited))
    else if Replaced(d, k, allow) then None
    else match Get(d, k) case Some(v) => Some(Place(v, depth, visited)) case None => None
  }

  datatype Step = Key(k: string) | Item(i: nat)

  function Child(j: Json, s: Step): Option<Json> {
    match s
    case Key(k) => if j.Obj? then Get(j.fields, k) else None
    case Item(i) => if j.Arr? && i < |j.items| then Some(j.items[i]) else None
  }

  /** The value at a path. */
  function ValueAt(j: Json, path: seq<Step>): Option<Json>
    decreases |path|
  {
    if path == [] then Some(j)
    else match Child(j, path[0]) case Some(c) => ValueAt(c, path[1..]) case None => None
  }

  ghost function ChildPlace(p: Place, s: Step, fetch: Fetch, allow: Allow): Option<Place> {
    match s
    case Key(k) => if p.value.Obj? then FieldPlace(p.value.fields, k, fetch, p.depth, p.visited, allow) else None
    case Item(i) =>
      if p.value.Arr? && i < |p.value.items| then Some(Place(p.value.items[i], p.depth, p.visited)) else None
  }

  /** Where the value at a path of the result comes from. */
  ghost function PlaceAt(p: Place, path: seq<Step>, fetch: Fetch, allow: Allow): Option<Place>
    decreases |path|
  {
    if path == [] then Some(p)
    else match ChildPlace(p, path[0], fetch, allow)
      case Some(c) => PlaceAt(c, path[1..], fetch, allow)
      case None => None
  }

  /** The same scalar, or both objects (the first with distinct keys), or both lists of one length. */
  ghost predicate SameKind(a: Json, b: Json) {
    match b
    case Obj(_) => a.Obj? && DistinctKeys(a.fields)
    case Arr(items) => a.Arr? && |a.items| == |items|
    case _ => a == b
  }

  // --- one object ------------------------------------------------------------------------------------

  ghost function FlatAt(p: Option<Place>, fetch: Fetch, allow: Allow): Option<Json> {
    if p.Some? then Some(Flatten(p.value.value, fetch, p.value.depth, p.value.visited, allow)) else None
  }

  /** The last slot that writes to the key. */
  ghost function LastSlot(slots: seq<(string, string)>, k: string, depth: int, visited: set<string>)
    : Option<(string, string)>
  {
    if slots == [] then None
    else
      var later := LastSlot(slots[1..], k, depth, visited);
      if later.Some? then later else if OutKey(slots[0], depth, visited) == k then Some(slots[0]) else None
  }

  lemma {:induction false} ExpandGet(slots: seq<(string, string)>, out: Dict, fetch: Fetch, depth: int,
                                     visited: set<string>, allow: Allow, k: string)
    ensures var last := LastSlot(slots, k, depth, visited);
      Get(Expand(slots, out, fetch, depth, visited, allow), k)
           == if last.Some? then Some(SlotField(last.value, fetch, depth, visited, allow).value) else Get(out, k)
    decreases |slots|
  {
    if slots != [] {
      var f := SlotField(slots[0], fetch, depth, visited, allow);
      assert f.key == OutKey(slots[0], depth, visited);
      ExpandStep(slots, out, fetch, depth, visited, allow);
      ExpandGet(slots[1..], Set(out, f.key, f.value), fetch, depth, visited, allow, k);
      GetSet(out, f.key, f.value, k);
    }
  }

  lemma {:induction false} KeptGet(d: Dict, slots: seq<(string, string)>, fetch: Fetch, depth: int,
                                   visited: set<string>, allow: Allow, k: string)
    ensures Get(FlattenKept(d, slots, fetch, depth, visited, allow), k)
         == if Superseded(k, slots) || Get(d, k).None? then None
            else Some(Flatten(Get(d, k).value, fetch, depth, visited, allow))
    decreases |d|
  {
    if d != [] {
      KeptGet(d[1..], slots, fetch, depth, visited, allow, k);
      var kept := FlattenKept(d, slots, fetch, depth, visited, allow);
      if !Superseded(d[0].key, slots) {
        assert kept[1..] == FlattenKept(d[1..], slots, fetch, depth, visited, allow);
      }
    }
  }

  lemma RefCons(d: Dict, stem: string, allow: Allow)
    requires d != []
    ensures d[0].key != stem + "_uri" ==> Ref(d, stem, allow) == Ref(d[1..], stem, allow)
    ensures d[0].key == stem + "_uri" ==>
      Ref(d, stem, allow) == (if Open(d[0].key, d[0].value, allow) then Some(Strip(d[0].value.s)) else None)
  {
    assert (stem + "_uri")[|stem|..] == "_uri" && (stem + "_uri")[..|stem|] == stem;
  }

  lemma {:induction false} NoKeyNoRef(d: Dict, stem: string, allow: Allow)
    requires forall i :: 0 <= i < |d| ==> d[i].key != stem + "_uri"
    ensures Ref(d, stem, allow) == None
  {
    if d != [] {
      NoKeyNoRef(d[1..], stem, allow);
    }
  }

  /** The slots are the references. */
  lemma {:induction false} SlotsAreRefs(d: Dict, allow: Allow, stem: string, uri: string)
    requires DistinctKeys(d)
    ensures (stem, uri) in Slots(d, allow) <==> Ref(d, stem, allow) == Some(uri)
  {
    if d != [] {
      SlotsAreRefs(d[1..], allow, stem, uri);
      RefCons(d, stem, allow);
      if d[0].key == stem + "_uri" {
        NoKeyNoRef(d[1..], stem, allow);
        assert DropSuffix(stem + "_uri", "_uri") == stem;
      } else if IsSlot(d[0].key, d[0].value) {
        SuffixBack(d[0].key);
      }
      assert Slots(d, allow) == SlotOf(d[0], allow) + Slots(d[1..], allow);
    }
  }

  lemma SupersededIs(d: Dict, k: string, allow: Allow)
    requires DistinctKeys(d)
    ensures Superseded(k, Slots(d, allow)) <==> Replaced(d, k, allow)
  {
    var slots := Slots(d, allow);
    if i :| 0 <= i < |slots| && (k == slots[i].0 + "_uri" || k == slots[i].0 + "_cid" || k == slots[i].0) {
      assert slots[i] in slots;
      SlotsAreRefs(d, allow, slots[i].0, slots[i].1);
    }
    if stem :| Ref(d, stem, allow).Some? && (k == stem + "_uri" || k == stem + "_cid" || k == stem) {
      SlotsAreRefs(d, allow, stem, Ref(d, stem, allow).value);
      var i :| 0 <= i < |slots| && slots[i] == (stem, Ref(d, stem, allow).value);
      assert slots[i].0 == stem;
    }
  }

  /** The slot that decides about a key, read off the object. */
  ghost function Decides(d: Dict, k: string, depth: int, visited: set<string>, allow: Allow): Option<(string, string)> {
    Choose(Ref(d, k, allow), Own(d, k, allow), Before(d, k, k + "_uri"), k, depth, visited)
  }

  function DropSuffixOr(k: string): string {
    if EndsWith(k, "_uri") then DropSuffix(k, "_uri") else k
  }

  /** Of the reference under the stem `k` and the one with the key `k`, the one that ends up under `k`. */
  ghost function Choose(ref: Option<string>, own: Option<string>, before: bool, k: string, depth: int,
                        visited: set<string>): Option<(string, string)>
  {
    var expanded := ref.Some? && !Spent(ref.value, depth, visited);
    var stays := own.Some? && Spent(own.value, depth, visited);
    if expanded && (stays ==> before) then Some((k, ref.value))
    else if stays then Some((DropSuffixOr(k), own.value))
    else None
  }

  lemma BeforeCons(d: Dict, a: string, b: string)
    requires d != [] && DistinctKeys(d) && a != b
    ensures d[0].key == b ==> !Before(d, a, b)
    ensures d[0].key != a && d[0].key != b ==> (Before(d, a, b) <==> Before(d[1..], a, b))
    ensures d[0].key == a && (exists j :: 0 <= j < |d[1..]| && d[1..][j].key == b) ==> Before(d, a, b)
  {
    if d[0].key != a && d[0].key != b && Before(d, a, b) {
      var i, j :| 0 <= i < j < |d| && d[i].key == a && d[j].key == b;
      assert d[1..][i - 1] == d[i] && d[1..][j - 1] == d[j];
    }
    if d[0].key != a && d[0].key != b && Before(d[1..], a, b) {
      var i, j :| 0 <= i < j < |d[1..]| && d[1..][i].key == a && d[1..][j].key == b;
      assert d[i + 1].key == a && d[j + 1].key == b;
    }
    if d[0].key == a && exists j :: 0 <= j < |d[1..]| && d[1..][j].key == b {
      var j :| 0 <= j < |d[1..]| && d[1..][j].key == b;
      assert d[j + 1].key == b;
    }
  }

  /** What the first field decides. */
  ghost function HeadDecides(f: Field, k: string, depth: int, visited: set<string>, allow: Allow)
    : Option<(string, string)>
  {
    if Open(f.key, f.value, allow) && OutKey(SlotOf(f, allow)[0], depth, visited) == k then Some(SlotOf(f, allow)[0])
    else None
  }

  lemma LastSlotCons(d: Dict, k: string, depth: int, visited: set<string>, allow: Allow)
    requires d != []
    ensures var later := LastSlot(Slots(d[1..], allow), k, depth, visited);
      LastSlot(Slots(d, allow), k, depth, visited)
           == if later.Some? then later else HeadDecides(d[0], k, depth, visited, allow)
  {
    assert Slots(d, allow) == SlotOf(d[0], allow) + Slots(d[1..], allow);
    if Open(d[0].key, d[0].value, allow) {
      assert Slots(d, allow)[1..] == Slots(d[1..], allow);
    }
  }

  /** The URI of the first field, if it is a reference. */
  ghost function Head(d: Dict, allow: Allow): Option<string>
    requires d != []
  {
    if Open(d[0].key, d[0].value, allow) then Some(Strip(d[0].value.s)) else None
  }

  lemma DecidesCons(d: Dict, k: string, depth: int, visited: set<string>, allow: Allow)
    requires d != [] && DistinctKeys(d)
    ensures var later := Decides(d[1..], k, depth, visited, allow);
      Decides(d, k, depth, visited, allow)
           == if later.Some? then later else HeadDecides(d[0], k, depth, visited, allow)
  {
    RefFirst(d, k, allow);
    OwnFirst(d, k, allow);
    BeforeFirst(d, k, allow);
    HeadIs(d[0], k, depth, visited, allow);
    Combine(Ref(d, k, allow), Ref(d[1..], k, allow), Own(d, k, allow), Own(d[1..], k, allow), Head(d, allow),
            Before(d, k, k + "_uri"), Before(d[1..], k, k + "_uri"), k, d[0].key == k + "_uri", d[0].key == k, depth,
            visited);
  }

  lemma RefFirst(d: Dict, k: string, allow: Allow)
    requires d != [] && DistinctKeys(d)
    ensures if d[0].key == k + "_uri" then Ref(d, k, allow) == Head(d, allow) && Ref(d[1..], k, allow) == None
            else Ref(d, k, allow) == Ref(d[1..], k, allow)
  {
    RefCons(d, k, allow);
    NoOtherKey(d, k, allow);
  }

  lemma OwnFirst(d: Dict, k: string, allow: Allow)
    requires d != [] && DistinctKeys(d)
    ensures if d[0].key == k then Own(d, k, allow) == Head(d, allow) && Own(d[1..], k, allow) == None
            else Own(d, k, allow) == Own(d[1..], k, allow)
  {
    if EndsWith(k, "_uri") {
      SuffixBack(k);
      RefFirst(d, DropSuffix(k, "_uri"), allow);
    }
  }

  lemma BeforeFirst(d: Dict, k: string, allow: Allow)
    requires d != [] && DistinctKeys(d)
    ensures d[0].key == k + "_uri" ==> !Before(d, k, k + "_uri")
    ensures d[0].key == k && Ref(d, k, allow).Some? ==> Before(d, k, k + "_uri")
    ensures d[0].key != k && d[0].key != k + "_uri" ==>
      (Before(d, k, k + "_uri") <==> Before(d[1..], k, k + "_uri"))
  {
    BeforeCons(d, k, k + "_uri");
    RefCons(d, k, allow);
    RefHasKey(d[1..], k, allow);
  }

  lemma HeadIs(f: Field, k: string, depth: int, visited: set<string>, allow: Allow)
    ensures var (head, slot) := (Head([f], allow), HeadDecides(f, k, depth, visited, allow));
      slot == if f.key == k + "_uri" && head.Some? && !Spent(head.value, depth, visited) then Some((k, head.value))
              else if f.key == k && head.Some? && Spent(head.value, depth, visited)
                   then Some((DropSuffixOr(k), head.value)) else None
  {
    if IsSlot(f.key, f.value) {
      SuffixBack(f.key);
      assert f.key == k + "_uri" ==> DropSuffix(k + "_uri", "_uri") == k;
    }
  }

  /** The choice among the two references that can have the key, once the first field is added in front. */
  lemma Combine(ref: Option<string>, restRef: Option<string>, own: Option<string>, restOwn: Option<string>,
                head: Option<string>, before: bool, restBefore: bool, k: string, refFirst: bool, ownFirst: bool,
                depth: int, visited: set<string>)
    requires !(refFirst && ownFirst)
    requires if refFirst then ref == head && restRef == None else ref == restRef
    requires if ownFirst then own == head && restOwn == None else own == restOwn
    requires refFirst ==> !before
    requires ownFirst && ref.Some? ==> before
    requires !refFirst && !ownFirst ==> before == restBefore
    ensures Choose(ref, own, before, k, depth, visited) ==
      var later := Choose(restRef, restOwn, restBefore, k, depth, visited);
      if later.Some? then later
      else if refFirst && head.Some? && !Spent(head.value, depth, visited) then Some((k, head.value))
      else if ownFirst && head.Some? && Spent(head.value, depth, visited) then Some((DropSuffixOr(k), head.value))
      else None
  {
  }

  /** Distinct keys: a reference of the first field is no reference of the rest. */
  lemma NoOtherKey(d: Dict, stem: string, allow: Allow)
    requires d != [] && DistinctKeys(d)
    ensures d[0].key == stem + "_uri" ==> Ref(d[1..], stem, allow) == None
  {
    if d[0].key == stem + "_uri" {
      NoKeyNoRef(d[1..], stem, allow);
    }
  }

  lemma RefHasKey(d: Dict, stem: string, allow: Allow)
    ensures Ref(d, stem, allow).Some? ==> exists j :: 0 <= j < |d| && d[j].key == stem + "_uri"
  {
    if forall j :: 0 <= j < |d| ==> d[j].key != stem + "_uri" {
      NoKeyNoRef(d, stem, allow);
    }
  }

  lemma {:induction false} DecidesIs(d: Dict, k: string, depth: int, visited: set<string>, allow: Allow)
    requires DistinctKeys(d)
    ensures LastSlot(Slots(d, allow), k, depth, visited) == Decides(d, k, depth, visited, allow)
  {
    if d == [] {
      NoKeyNoRef(d, k, allow);
      if EndsWith(k, "_uri") {
        NoKeyNoRef(d, DropSuffix(k, "_uri"), allow);
      }
    } else {
      DecidesIs(d[1..], k, depth, visited, allow);
      LastSlotCons(d, k, depth, visited, allow);
      DecidesCons(d, k, depth, visited, allow);
    }
  }

  /** Every field of an expanded object comes from where `FieldPlace` says. */
  lemma FieldLaw(d: Dict, k: string, fetch: Fetch, depth: int, visited: set<string>, allow: Allow)
    requires DistinctKeys(d)
    ensures Flatten(Obj(d), fetch, depth, visited, allow).Obj?
    ensures Get(Flatten(Obj(d), fetch, depth, visited, allow).fields, k)
         == FlatAt(FieldPlace(d, k, fetch, depth, visited, allow), fetch, allow)
  {
    var slots := Slots(d, allow);
    ExpandGet(slots, FlattenKept(d, slots, fetch, depth, visited, allow), fetch, depth, visited, allow, k);
    KeptGet(d, slots, fetch, depth, visited, allow, k);
    DecidesIs(d, k, depth, visited, allow);
    SupersededIs(d, k, allow);
    PlaceIs(d, k, fetch, depth, visited, allow);
  }

  /** What a decided key holds, and an undecided one. */
  lemma PlaceIs(d: Dict, k: string, fetch: Fetch, depth: int, visited: set<string>, allow: Allow)
    ensures var (slot, place) := (Decides(d, k, depth, visited, allow), FieldPlace(d, k, fetch, depth, visited, allow));
      && (slot.Some? ==> FlatAt(place, fetch, allow) == Some(SlotField(slot.value, fetch, depth, visited, allow).value))
      && (slot.None? ==> place == if Replaced(d, k, allow) || Get(d, k).None? then None
                                  else Some(Place(Get(d, k).value, depth, visited)))
  {
  }

  lemma {:induction false} ItemLaw(items: seq<Json>, i: nat, fetch: Fetch, depth: int, visited: set<string>,
                                   allow: Allow)
    ensures |FlattenItems(items, fetch, depth, visited, allow)| == |items|
    ensures i < |items| ==>
      FlattenItems(items, fetch, depth, visited, allow)[i] == Flatten(items[i], fetch, depth, visited, allow)
    decreases |items|
  {
    if items != [] {
      ItemLaw(items[1..], if i > 0 then i - 1 else 0, fetch, depth, visited, allow);
    }
  }

  lemma ChildLaw(p: Place, s: Step, fetch: Fetch, allow: Allow)
    requires Proper(p.value)
    ensures Child(Flatten(p.value, fetch, p.depth, p.visited, allow), s)
         == FlatAt(ChildPlace(p, s, fetch, allow), fetch, allow)
  {
    match p.value
    case Obj(d) =>
      if s.Key? {
        FieldLaw(d, s.k, fetch, p.depth, p.visited, allow);
      }
    case Arr(items) =>
      if s.Item? {
        ItemLaw(items, s.i, fetch, p.depth, p.visited, allow);
      }
    case _ =>
  }

  lemma {:induction false} GetProper(d: Dict, k: string)
    requires forall i :: 0 <= i < |d| ==> Proper(d[i].value)
    ensures Get(d, k).Some? ==> Proper(Get(d, k).value)
  {
    if d != [] {
      GetProper(d[1..], k);
    }
  }

  lemma ChildProper(p: Place, s: Step, fetch: Fetch, allow: Allow)
    requires Proper(p.value) && ProperFetch(fetch)
    ensures ChildPlace(p, s, fetch, allow).Some? ==> Proper(ChildPlace(p, s, fetch, allow).value.value)
  {
    if p.value.Obj? && s.Key? {
      GetProper(p.value.fields, s.k);
    }
  }

  lemma {:induction false} ExpandDistinct(slots: seq<(string, string)>, out: Dict, fetch: Fetch, depth: int,
                                          visited: set<string>, allow: Allow)
    requires DistinctKeys(out)
    ensures DistinctKeys(Expand(slots, out, fetch, depth, visited, allow))
    decreases |slots|
  {
    if slots != [] {
      var f := SlotField(slots[0], fetch, depth, visited, allow);
      ExpandStep(slots, out, fetch, depth, visited, allow);
      CleanSet(out, f.key, f.value, {}, allow);
      ExpandDistinct(slots[1..], Set(out, f.key, f.value), fetch, depth, visited, allow);
    }
  }

  lemma KindLaw(p: Place, fetch: Fetch, allow: Allow)
    requires Proper(p.value)
    ensures SameKind(Flatten(p.value, fetch, p.depth, p.visited, allow), p.value)
  {
    match p.value
    case Arr(items) => ItemLaw(items, 0, fetch, p.depth, p.visited, allow);
    case Obj(d) =>
      var slots := Slots(d, allow);
      KeptKeys(d, slots, fetch, p.depth, p.visited, allow);
      ExpandDistinct(slots, FlattenKept(d, slots, fetch, p.depth, p.visited, allow), fetch, p.depth, p.visited, allow);
    case _ =>
  }

  /** The source law, for every fetch, depth, visited set and allowlist: there is a value at a path of the result
      exactly
      where the references lead to one, and it is of the same kind, scalars the same. */
  lemma {:induction false} SourceLaw(p: Place, path: seq<Step>, fetch: Fetch, allow: Allow)
    requires Proper(p.value) && ProperFetch(fetch)
    ensures var (v, from) := (ValueAt(Flatten(p.value, fetch, p.depth, p.visited, allow), path),
                              PlaceAt(p, path, fetch, allow));
      && (v.Some? <==> from.Some?)
      && (v.Some? ==> SameKind(v.value, from.value.value))
    decreases |path|
  {
    if path == [] {
      KindLaw(p, fetch, allow);
    } else {
      ChildLaw(p, path[0], fetch, allow);
      ChildProper(p, path[0], fetch, allow);
      var c := ChildPlace(p, path[0], fetch, allow);
      if c.Some? {
        SourceLaw(c.value, path[1..], fetch, allow);
      }
    }
  }

  // --- the recorded fetches are all there are --------------------------------------------------------

  /** Two fetch functions answer alike for a URI, whatever the stem. */
  ghost predicate SameAt(uri: string, f: Fetch, g: Fetch) {
    forall stem :: f(stem, uri) == g(stem, uri)
  }

  ghost predicate SameAtEnd(c: Chain, f: Fetch, g: Fetch) {
    c != [] ==> SameAt(c[|c| - 1], f, g)
  }

  ghost predicate SameAtEnds(cs: seq<Chain>, f: Fetch, g: Fetch) {
    forall i :: 0 <= i < |cs| ==> SameAtEnd(cs[i], f, g)
  }

  lemma SameAtParts(a: seq<Chain>, b: seq<Chain>, f: Fetch, g: Fetch)
    requires SameAtEnds(a + b, f, g)
    ensures SameAtEnds(a, f, g) && SameAtEnds(b, f, g)
  {
    assert forall i :: 0 <= i < |a| ==> (a + b)[i] == a[i];
    assert forall i :: 0 <= i < |b| ==> (a + b)[|a| + i] == b[i];
  }

  /** The expansion depends on no fetch but those at the ends of the recorded chains. */
  lemma {:induction false} FetchesAreAll(j: Json, f: Fetch, g: Fetch, depth: int, visited: set<string>, allow: Allow,
                                         chain: Chain)
    requires SameAtEnds(Chains(j, f, depth, visited, allow, chain), f, g)
    ensures Flatten(j, f, depth, visited, allow) == Flatten(j, g, depth, visited, allow)
    decreases Fuel(depth), 1, j
  {
    match j {
      case Arr(items) => ItemFetches(items, f, g, depth, visited, allow, chain);
      case Obj(d) =>
        var slots := Slots(d, allow);
        SameAtParts(KeptChains(d, slots, f, depth, visited, allow, chain),
                    SlotsChains(slots, f, depth, visited, allow, chain), f, g);
        KeptFetches(d, slots, f, g, depth, visited, allow, chain);
        SlotsFetches(slots, FlattenKept(d, slots, f, depth, visited, allow), f, g, depth, visited, allow, chain);
      case _ =>
    }
  }

  lemma {:induction false} ItemFetches(items: seq<Json>, f: Fetch, g: Fetch, depth: int, visited: set<string>,
                                       allow: Allow, chain: Chain)
    requires SameAtEnds(ItemChains(items, f, depth, visited, allow, chain), f, g)
    ensures FlattenItems(items, f, depth, visited, allow) == FlattenItems(items, g, depth, visited, allow)
    decreases Fuel(depth), 1, items
  {
    if items != [] {
      SameAtParts(Chains(items[0], f, depth, visited, allow, chain),
                  ItemChains(items[1..], f, depth, visited, allow, chain), f, g);
      FetchesAreAll(items[0], f, g, depth, visited, allow, chain);
      ItemFetches(items[1..], f, g, depth, visited, allow, chain);
    }
  }

  lemma {:induction false} KeptFetches(d: Dict, slots: seq<(string, string)>, f: Fetch, g: Fetch, depth: int,
                                       visited: set<string>, allow: Allow, chain: Chain)
    requires SameAtEnds(KeptChains(d, slots, f, depth, visited, allow, chain), f, g)
    ensures FlattenKept(d, slots, f, depth, visited, allow) == FlattenKept(d, slots, g, depth, visited, allow)
    decreases Fuel(depth), 1, d
  {
    if d != [] {
      SameAtParts(if Superseded(d[0].key, slots) then [] else Chains(d[0].value, f, depth, visited, allow, chain),
                  KeptChains(d[1..], slots, f, depth, visited, allow, chain), f, g);
      KeptFetches(d[1..], slots, f, g, depth, visited, allow, chain);
      if !Superseded(d[0].key, slots) {
        FetchesAreAll(d[0].value, f, g, depth, visited, allow, chain);
      }
    }
  }

  lemma {:induction false} SlotFetches(slot: (string, string), f: Fetch, g: Fetch, depth: int, visited: set<string>,
                                       allow: Allow, chain: Chain)
    requires SameAtEnds(SlotChains(slot, f, depth, visited, allow, chain), f, g)
    ensures SlotField(slot, f, depth, visited, allow) == SlotField(slot, g, depth, visited, allow)
    decreases Fuel(depth), 0, 0
  {
    var (stem, uri) := slot;
    if depth > 0 && uri !in visited {
      var c := chain + [uri];
      var inner := Chains(f(stem, uri), f, depth - 1, visited + {uri}, allow, c);
      SameAtParts([c], inner, f, g);
      assert SameAtEnd([c][0], f, g) && c[|c| - 1] == uri;
      assert SameAt(uri, f, g);
      FetchesAreAll(f(stem, uri), f, g, depth - 1, visited + {uri}, allow, c);
    }
  }

  lemma {:induction false} SlotsFetches(slots: seq<(string, string)>, out: Dict, f: Fetch, g: Fetch, depth: int,
                                        visited: set<string>, allow: Allow, chain: Chain)
    requires SameAtEnds(SlotsChains(slots, f, depth, visited, allow, chain), f, g)
    ensures Expand(slots, out, f, depth, visited, allow) == Expand(slots, out, g, depth, visited, allow)
    decreases Fuel(depth), 0, 1, |slots|
  {
    if slots != [] {
      SameAtParts(SlotChains(slots[0], f, depth, visited, allow, chain),
                  SlotsChains(slots[1..], f, depth, visited, allow, chain), f, g);
      SlotFetches(slots[0], f, g, depth, visited, allow, chain);
      var Field(key, value) := SlotField(slots[0], f, depth, visited, allow);
      SlotsFetches(slots[1..], Set(out, key, value), f, g, depth, visited, allow, chain);
    }
  }
}
