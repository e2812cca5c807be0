/** `format_content`: the reply to an ACI class query, `{"imdata": [ {cls: {"attributes": {...}}}, ... ]}`,
    regrouped into Ansible facts `{"ansible_facts": {cls: [attributes, ...], ...}}`. */
module Facts {
  import opened Json

  /** One managed object of `imdata`: a dict with exactly one key, its class name.
      Python 2's `d_item.keys()[0]` names the class only when there is one key. */
  predicate IsMo(item: Json) {
    item.JObj? && |item.fields| == 1
  }

  /** What the loop may assume of a reply: when it has an `imdata` entry, that entry
      is a list of managed objects. */
  predicate WellShaped(reply: Json) {
    reply.JObj? && "imdata" in reply.fields ==>
      reply.fields["imdata"].JArr? &&
      forall i :: 0 <= i < |reply.fields["imdata"].items| ==> IsMo(reply.fields["imdata"].items[i])
  }

  predicate AllMos(mos: seq<Json>) {
    forall i :: 0 <= i < |mos| ==> IsMo(mos[i])
  }

  /** The class name of a managed object: its one key. */
  ghost function ClassOf(item: Json): string
    requires IsMo(item)
  {
    var c :| c in item.fields; c
  }

  /** Any key of a managed object is its class name. */
  lemma OnlyKey(item: Json, k: string)
    requires IsMo(item) && k in item.fields
    ensures k == ClassOf(item)
  {
    var rest := item.fields.Keys - {ClassOf(item)};
    assert |rest| == 0;
  }

  /** `d_item[aci_class]["attributes"]`: the attribute record of a managed object. */
  ghost function AttributesOf(item: Json): Result<Json>
    requires IsMo(item)
  {
    Lookup(item.fields[ClassOf(item)], "attributes")
  }

  /** Every managed object carries its attributes, so no lookup raises. */
  ghost predicate AllHaveAttributes(mos: seq<Json>) {
    AllMos(mos) && forall i :: 0 <= i < |mos| ==> AttributesOf(mos[i]).Ok?
  }

  /** Item `i` is the first whose attribute lookup raises, and it raises `e`. */
  ghost predicate FirstFault(mos: seq<Json>, i: int, e: PyError)
    requires AllMos(mos)
  {
    && 0 <= i < |mos|
    && AttributesOf(mos[i]) == Err(e)
    && forall j :: 0 <= j < i ==> AttributesOf(mos[j]).Ok?
  }

  /** The class names that occur in `mos`. */
  ghost function Classes(mos: seq<Json>): set<string>
    requires AllMos(mos)
  {
    set i | 0 <= i < |mos| :: ClassOf(mos[i])
  }

  /** The attributes of the managed objects of class `c`, in input order. */
  ghost function Members(mos: seq<Json>, c: string): seq<Json>
    requires AllHaveAttributes(mos)
  {
    if mos == [] then []
    else
      var last := mos[|mos| - 1];
      assert AllHaveAttributes(mos[..|mos| - 1]);
      Members(mos[..|mos| - 1], c) + (if ClassOf(last) == c then [AttributesOf(last).value] else [])
  }

  /** The grouping the source is after: each class name that occurs, to the list of its members. */
  ghost function Grouping(mos: seq<Json>): map<string, seq<Json>>
    requires AllHaveAttributes(mos)
  {
    map c | c in Classes(mos) :: Members(mos, c)
  }

  /** The envelope `{"ansible_facts": element}`: one key, `ansible_facts`, holding the class dictionary. */
  function Facts(element: map<string, seq<Json>>): Json {
    JObj(map["ansible_facts" := JObj(map c | c in element :: JArr(element[c]))])
  }

  /** Reads a class dictionary back out of an `ansible_facts` envelope. */
  function Unwrap(facts: Json): Option<map<string, seq<Json>>> {
    if facts.JObj? && facts.fields.Keys == {"ansible_facts"} && facts.fields["ansible_facts"].JObj?
       && forall c :: c in facts.fields["ansible_facts"].fields ==> facts.fields["ansible_facts"].fields[c].JArr?
    then
      var inner := facts.fields["ansible_facts"].fields;
      Some(map c | c in inner :: inner[c].items)
    else None
  }

  /** The envelope has exactly the one top-level key, and the class dictionary can be read back from it. */
  lemma FactsRoundTrip(element: map<string, seq<Json>>)
    ensures Facts(element).fields.Keys == {"ansible_facts"}
    ensures Unwrap(Facts(element)) == Some(element)
  {
    var inner := Facts(element).fields["ansible_facts"].fields;
    assert inner.Keys == element.Keys;
    var back := map c | c in inner :: inner[c].items;
    assert back == element;
  }

  /** The prefix of a well-formed input is well formed. */
  lemma AllHaveAttributesPrefix(mos: seq<Json>, n: nat)
    requires AllHaveAttributes(mos) && n <= |mos|
    ensures AllHaveAttributes(mos[..n])
  {
  }

  /** The classes of a longer input are those of the shorter plus the class of the new item. */
  lemma ClassesSnoc(mos: seq<Json>, item: Json)
    requires AllMos(mos + [item])
    ensures AllMos(mos) && IsMo(item)
    ensures Classes(mos + [item]) == Classes(mos) + {ClassOf(item)}
  {
    var all := mos + [item];
    assert all[|mos|] == item;
    assert AllMos(mos) by {
      forall i | 0 <= i < |mos| ensures IsMo(mos[i]) { assert mos[i] == all[i]; }
    }
    forall x | x in Classes(all) ensures x in Classes(mos) + {ClassOf(item)} {
      var i :| 0 <= i < |all| && ClassOf(all[i]) == x;
      if i < |mos| { assert all[i] == mos[i]; }
    }
    forall x | x in Classes(mos) ensures x in Classes(all) {
      var i :| 0 <= i < |mos| && ClassOf(mos[i]) == x;
      assert all[i] == mos[i];
    }
  }

  /** Appending one managed object adds its attributes to the end of its class's list,
      creating the list on first sighting, and leaves every other class alone. */
  lemma GroupingStep(mos: seq<Json>, item: Json)
    requires AllHaveAttributes(mos + [item])
    ensures AllHaveAttributes(mos)
    ensures IsMo(item) && AttributesOf(item).Ok?
    ensures
      var c := ClassOf(item);
      var before := if c in Grouping(mos) then Grouping(mos)[c] else [];
      Grouping(mos + [item]) == Grouping(mos)[c := before + [AttributesOf(item).value]]
  {
    var all := mos + [item];
    assert all[..|all| - 1] == mos;
    assert all[|mos|] == item;
    AllHaveAttributesPrefix(all, |mos|);
    ClassesSnoc(mos, item);
    var c, a := ClassOf(item), AttributesOf(item).value;
    var g, g' := Grouping(mos), Grouping(all);
    var before := if c in g then g[c] else [];
    MembersNonEmpty(mos, c);
    assert Members(mos, c) == before;
    forall x | x in g'.Keys ensures g'[x] == g[c := before + [a]][x] {
      assert g'[x] == Members(mos, x) + (if c == x then [a] else []);
    }
    assert g'.Keys == g[c := before + [a]].Keys;
  }

  /** A class has a non-empty list exactly when it occurs in the input:
      lists are created on first sighting only and only ever appended to. */
  lemma {:induction false} MembersNonEmpty(mos: seq<Json>, c: string)
    requires AllHaveAttributes(mos)
    ensures |Members(mos, c)| > 0 <==> c in Classes(mos)
  {
    if mos != [] {
      var init := mos[..|mos| - 1];
      assert AllHaveAttributes(init);
      MembersNonEmpty(init, c);
      assert Classes(mos) == Classes(init) + {ClassOf(mos[|mos| - 1])} by {
        forall x | x in Classes(mos) ensures x in Classes(init) + {ClassOf(mos[|mos| - 1])} {
          var i :| 0 <= i < |mos| && ClassOf(mos[i]) == x;
          if i < |init| { assert mos[i] == init[i]; }
        }
        forall x | x in Classes(init) ensures x in Classes(mos) {
          var i :| 0 <= i < |init| && ClassOf(init[i]) == x;
          assert mos[i] == init[i];
        }
      }
    }
  }

  /** Every list in the grouping is non-empty. */
  lemma GroupingListsNonEmpty(mos: seq<Json>)
    requires AllHaveAttributes(mos)
    ensures Grouping(mos).Keys == Classes(mos)
    ensures forall c :: c in Grouping(mos) ==> |Grouping(mos)[c]| > 0
  {
    forall c | c in Grouping(mos) ensures |Grouping(mos)[c]| > 0 {
      MembersNonEmpty(mos, c);
    }
  }

  /** Grouping commutes with concatenation of the input: a later item never resets or
      reorders what an earlier one put in the list, it only adds after it. */
  lemma {:induction false} MembersSplit(s: seq<Json>, t: seq<Json>, c: string)
    requires AllHaveAttributes(s + t)
    ensures AllHaveAttributes(s) && AllHaveAttributes(t)
    ensures Members(s + t, c) == Members(s, c) + Members(t, c)
  {
    var all := s + t;
    assert AllHaveAttributes(s) by {
      forall i | 0 <= i < |s| ensures IsMo(s[i]) && AttributesOf(s[i]).Ok? { assert s[i] == all[i]; }
    }
    assert AllHaveAttributes(t) by {
      forall i | 0 <= i < |t| ensures IsMo(t[i]) && AttributesOf(t[i]).Ok? { assert t[i] == all[|s| + i]; }
    }
    if t == [] {
      assert all == s;
    } else {
      var t' := t[..|t| - 1];
      assert all[..|all| - 1] == s + t';
      assert all[|all| - 1] == t[|t| - 1];
      MembersSplit(s, t', c);
    }
  }

  /** The sum of the lengths of the lists of a class dictionary. */
  ghost function TotalLength(g: map<string, seq<Json>>): nat
    decreases |g|
  {
    if g == map[] then 0
    else
      var k :| k in g;
      |g[k]| + TotalLength(g - {k})
  }

  /** The sum does not depend on which key is taken first. */
  lemma {:induction false} TotalLengthRemove(g: map<string, seq<Json>>, k: string)
    requires k in g
    ensures TotalLength(g) == |g[k]| + TotalLength(g - {k})
    decreases |g|
  {
    var k' :| k' in g && TotalLength(g) == |g[k']| + TotalLength(g - {k'});
    if k' != k {
      var g1, g2 := g - {k'}, g - {k};
      assert |g1| < |g| && |g2| < |g| by {
        assert g1.Keys == g.Keys - {k'};
        assert g2.Keys == g.Keys - {k};
      }
      TotalLengthRemove(g1, k);
      TotalLengthRemove(g2, k');
      assert g1 - {k} == g2 - {k'};
    }
  }

  /** Replacing the list of one key changes the sum by the difference in length. */
  lemma TotalLengthUpdate(g: map<string, seq<Json>>, k: string, v: seq<Json>)
    ensures TotalLength(g[k := v]) == TotalLength(g) - (if k in g then |g[k]| else 0) + |v|
  {
    var g' := g[k := v];
    TotalLengthRemove(g', k);
    if k in g {
      TotalLengthRemove(g, k);
      assert g' - {k} == g - {k};
    } else {
      assert g' - {k} == g;
    }
  }

  /** Exactly one append per input item: the list lengths add up to the number of items. */
  lemma {:induction false} GroupingTotal(mos: seq<Json>)
    requires AllHaveAttributes(mos)
    ensures TotalLength(Grouping(mos)) == |mos|
  {
    if mos == [] {
      assert Grouping(mos) == map[];
    } else {
      var init, item := mos[..|mos| - 1], mos[|mos| - 1];
      assert init + [item] == mos;
      GroupingStep(init, item);
      GroupingTotal(init);
      var c := ClassOf(item);
      var before := if c in Grouping(init) then Grouping(init)[c] else [];
      TotalLengthUpdate(Grouping(init), c, before + [AttributesOf(item).value]);
    }
  }

  /** A well-formed input stays well formed when an item with attributes is appended. */
  lemma AllHaveAttributesSnoc(mos: seq<Json>, item: Json)
    requires AllHaveAttributes(mos) && IsMo(item) && AttributesOf(item).Ok?
    ensures AllHaveAttributes(mos + [item])
  {
  }

  /** `format_content`: strips the `imdata` wrapper, groups the attributes of each managed
      object under its class name, and wraps the result as `{"ansible_facts": ...}`.
      A missing key raises KeyError and a subscripted non-dict TypeError; then no result is made. */
  method FormatContent(reply: Json) returns (r: Result<Json>)
    requires WellShaped(reply)
    ensures !reply.JObj? ==> r == Err(TypeError)
    ensures reply.JObj? && "imdata" !in reply.fields ==> r == Err(KeyError)
    ensures reply.JObj? && "imdata" in reply.fields ==>
      var mos := reply.fields["imdata"].items;
      && (r.Ok? <==> AllHaveAttributes(mos))
      && (r.Ok? ==> r.value == Facts(Grouping(mos)))
      && (r.Err? ==> exists i :: FirstFault(mos, i, r.error))
      && (mos == [] ==> r == Ok(JObj(map["ansible_facts" := JObj(map[])])))
  {
    var imdata := Lookup(reply, "imdata");
    if imdata.Err? {
      return Err(imdata.error);
    }
    var mos := imdata.value.items;
    assert AllMos(mos);
    var element: map<string, seq<Json>> := map[];
    var i := 0;
    assert mos[..0] == [];
    while i < |mos|
      invariant 0 <= i <= |mos|
      invariant AllHaveAttributes(mos[..i])
      invariant element == Grouping(mos[..i])
    {
      var item := mos[i];
      assert IsMo(item);
      var cls :| cls in item.fields;
      OnlyKey(item, cls);
      if cls !in element {
        element := element[cls := []];
      }
      var attributes := Lookup(item.fields[cls], "attributes");
      assert attributes == AttributesOf(item);
      if attributes.Err? {
        assert FirstFault(mos, i, attributes.error) by {
          forall j | 0 <= j < i ensures AttributesOf(mos[j]).Ok? { assert mos[j] == mos[..i][j]; }
        }
        assert !AllHaveAttributes(mos);
        return Err(attributes.error);
      }
      assert mos[..i + 1] == mos[..i] + [item];
      AllHaveAttributesSnoc(mos[..i], item);
      GroupingStep(mos[..i], item);
      element := element[cls := element[cls] + [attributes.value]];
      i := i + 1;
    }
    assert mos[..i] == mos;
    if mos == [] {
      assert element == map[];
    }
    r := Ok(Facts(element));
  }
}
