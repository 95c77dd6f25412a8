/** The navigation-tab tree: `parseTab` turns each raw `{ G, Onglet }` node
    into `{ id, subs }`, recursively, and `getUser` maps it over the raw
    `listeOnglets` list. */
module Tabs {
  import opened JsValue

  /** A normalised tab: `{ id, subs }`. */
  datatype Tab = Tab(id: Value, subs: seq<Tab>)

  /** `subs || []`: the child list of a raw node, where a missing or falsy
      `Onglet` stands for no children. */
  function ChildList(raw: Value): (r: Value)
    ensures !Truthy(Prop(raw, "Onglet")) ==> r == Arr([])
    ensures Truthy(Prop(raw, "Onglet")) ==> r == Prop(raw, "Onglet")
  {
    Or(Prop(raw, "Onglet"), Arr([]))
  }

  /** The raw nodes `parseTab` accepts without throwing: the node can be
      destructured, its child list is an array, and so is every child's. */
  predicate WellFormed(raw: Value)
  {
    && Destructurable(raw)
    && match ChildList(raw)
       case Arr(items) => forall i :: 0 <= i < |items| ==> WellFormed(items[i])
       case _ => false
  }

  /** `parseTab({ G: id, Onglet: subs })`. It throws when the node is
      `undefined` or `null` (the destructuring fails) and when a truthy child
      list is not an array (`.map` is not a function). */
  function ParseTab(raw: Value): (r: Result<Tab>)
    ensures r.Ok? <==> WellFormed(raw)
    ensures r.Ok? ==> r.value.id == Prop(raw, "G") && |r.value.subs| == |ChildList(raw).items|
  {
    if !Destructurable(raw) then Thrown(TypeError("cannot destructure a tab that is undefined or null"))
    else
      var list := ChildList(raw);
      if !list.Arr? then Thrown(TypeError("subs.map is not a function"))
      else
        var items := list.items;
        var rs := seq(|items|, i requires 0 <= i < |items| => ParseTab(items[i]));
        assert forall i :: 0 <= i < |items| ==> rs[i] == ParseTab(items[i]);
        var subs :- Collect(rs);
        Ok(Tab(Prop(raw, "G"), subs))
  }

  /** `listeOnglets.map(parseTab)`. */
  function ParseTabList(list: Value): (r: Result<seq<Tab>>)
    ensures r.Ok? <==> list.Arr? && forall i :: 0 <= i < |list.items| ==> WellFormed(list.items[i])
    ensures r.Ok? ==> |r.value| == |list.items|
    ensures r.Ok? ==> forall i :: 0 <= i < |r.value| ==> ParseTab(list.items[i]) == Ok(r.value[i])
  {
    match list
    case Arr(items) =>
      var rs := seq(|items|, i requires 0 <= i < |items| => ParseTab(items[i]));
      assert forall i :: 0 <= i < |items| ==> rs[i] == ParseTab(items[i]);
      Collect(rs)
    case _ => Thrown(TypeError("listeOnglets.map is not a function"))
  }

  /** The output object `{ id, subs }` as it appears in the profile. */
  function TabValue(t: Tab): Value
  {
    Obj(map["id" := t.id, "subs" := Arr(seq(|t.subs|, i requires 0 <= i < |t.subs| => TabValue(t.subs[i])))])
  }

  /** The output list of a tab list, one `{ id, subs }` per tab, in order. */
  function TabValues(tabs: seq<Tab>): (r: seq<Value>)
    ensures |r| == |tabs|
    ensures forall i :: 0 <= i < |tabs| ==> r[i] == TabValue(tabs[i])
  {
    if tabs == [] then [] else [TabValue(tabs[0])] + TabValues(tabs[1..])
  }

  /** A raw node carrying `t`'s ids and structure, with every child list
      present: the inverse of `ParseTab`. */
  function Unparse(t: Tab): Value
  {
    Obj(map["G" := t.id, "Onglet" := Arr(seq(|t.subs|, i requires 0 <= i < |t.subs| => Unparse(t.subs[i])))])
  }

  // Measures of the shape of a tree, on normalised tabs and on raw nodes.

  function Sum(s: seq<nat>): nat
  {
    if s == [] then 0 else s[0] + Sum(s[1..])
  }

  function Max(s: seq<nat>): nat
  {
    if s == [] then 0 else var m := Max(s[1..]); if s[0] > m then s[0] else m
  }

  function UnionAll(s: seq<multiset<Value>>): multiset<Value>
  {
    if s == [] then multiset{} else s[0] + UnionAll(s[1..])
  }

  /** The number of nodes of a tab tree. */
  function Count(t: Tab): nat
  {
    1 + Sum(seq(|t.subs|, i requires 0 <= i < |t.subs| => Count(t.subs[i])))
  }

  /** The number of levels of a tab tree; a leaf has depth 1. */
  function Depth(t: Tab): nat
  {
    1 + Max(seq(|t.subs|, i requires 0 <= i < |t.subs| => Depth(t.subs[i])))
  }

  /** The ids of a tab tree, with their multiplicity. */
  function Ids(t: Tab): multiset<Value>
  {
    multiset{t.id} + UnionAll(seq(|t.subs|, i requires 0 <= i < |t.subs| => Ids(t.subs[i])))
  }

  /** The raw children of a node, read as `parseTab` reads them. */
  function RawChildren(raw: Value): seq<Value>
  {
    match ChildList(raw)
    case Arr(items) => items
    case _ => []
  }

  function RawCount(raw: Value): nat
  {
    var items := RawChildren(raw);
    1 + Sum(seq(|items|, i requires 0 <= i < |items| => RawCount(items[i])))
  }

  function RawDepth(raw: Value): nat
  {
    var items := RawChildren(raw);
    1 + Max(seq(|items|, i requires 0 <= i < |items| => RawDepth(items[i])))
  }

  function RawIds(raw: Value): multiset<Value>
  {
    var items := RawChildren(raw);
    multiset{Prop(raw, "G")} + UnionAll(seq(|items|, i requires 0 <= i < |items| => RawIds(items[i])))
  }

  /** `parseTab` keeps the id and maps the children in order: child `i` of the
      result is `parseTab` of raw child `i`. */
  lemma ParseTabChildren(raw: Value)
    requires WellFormed(raw)
    ensures ParseTab(raw).Ok?
    ensures var t := ParseTab(raw).value;
      && t.id == Prop(raw, "G")
      && |t.subs| == |RawChildren(raw)|
      && forall i :: 0 <= i < |t.subs| ==> ParseTab(RawChildren(raw)[i]) == Ok(t.subs[i])
  {
  }

  /** A node whose child list is absent, `null` or otherwise falsy becomes a
      leaf: its `subs` is empty. */
  lemma ParseTabLeaf(raw: Value)
    requires Destructurable(raw) && !Truthy(Prop(raw, "Onglet"))
    ensures ParseTab(raw) == Ok(Tab(Prop(raw, "G"), []))
  {
  }

  /** `parseTab` keeps the shape of the tree: the same number of nodes, the
      same depth and the same ids with the same multiplicities. */
  lemma {:induction false} ParseTabShape(raw: Value)
    requires WellFormed(raw)
    ensures Count(ParseTab(raw).value) == RawCount(raw)
    ensures Depth(ParseTab(raw).value) == RawDepth(raw)
    ensures Ids(ParseTab(raw).value) == RawIds(raw)
  {
    var t := ParseTab(raw).value;
    var items := RawChildren(raw);
    ParseTabChildren(raw);
    forall i | 0 <= i < |items|
      ensures Count(t.subs[i]) == RawCount(items[i])
      ensures Depth(t.subs[i]) == RawDepth(items[i])
      ensures Ids(t.subs[i]) == RawIds(items[i])
    {
      ParseTabShape(items[i]);
    }
    assert seq(|t.subs|, i requires 0 <= i < |t.subs| => Count(t.subs[i]))
        == seq(|items|, i requires 0 <= i < |items| => RawCount(items[i]));
    assert seq(|t.subs|, i requires 0 <= i < |t.subs| => Depth(t.subs[i]))
        == seq(|items|, i requires 0 <= i < |items| => RawDepth(items[i]));
    assert seq(|t.subs|, i requires 0 <= i < |t.subs| => Ids(t.subs[i]))
        == seq(|items|, i requires 0 <= i < |items| => RawIds(items[i]));
  }

  /** Normalising the raw form of a tab gives the tab back. */
  lemma {:induction false} ParseUnparse(t: Tab)
    ensures ParseTab(Unparse(t)) == Ok(t)
  {
    var raw := Unparse(t);
    var items := RawChildren(raw);
    assert items == seq(|t.subs|, i requires 0 <= i < |t.subs| => Unparse(t.subs[i]));
    forall i | 0 <= i < |items|
      ensures ParseTab(items[i]) == Ok(t.subs[i])
    {
      ParseUnparse(t.subs[i]);
    }
    ParseTabChildren(raw);
    assert ParseTab(raw).value.subs == t.subs;
  }

  /** `tabs` has the length and the order of `listeOnglets`: entry `i` is the
      normalised raw tab `i`, with the same shape and ids. */
  lemma TabListOrder(list: Value, i: nat)
    requires ParseTabList(list).Ok?
    requires i < |ParseTabList(list).value|
    ensures list.Arr? && |ParseTabList(list).value| == |list.items|
    ensures ParseTab(list.items[i]) == Ok(ParseTabList(list).value[i])
    ensures Count(ParseTabList(list).value[i]) == RawCount(list.items[i])
    ensures Ids(ParseTabList(list).value[i]) == RawIds(list.items[i])
  {
    ParseTabShape(list.items[i]);
  }
}
