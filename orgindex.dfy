/**
 * The organisation index: the name-to-id dictionary fetchTopologyOpcoData fills
 * from the topology query, and the resolution of a change's affected OPCO codes
 * against it (with the `SP` to `ES` alias).
 */
module OrgIndex {
  import opened Wrappers

  /** One `_items` entry of the organisation query: its `name` and `uniqueId`. */
  datatype OpcoItem = OpcoItem(name: string, uniqueId: string)

  /** The dictionary after the forEach fill: each name maps to the id of its last item. */
  function IndexOf(items: seq<OpcoItem>): (m: map<string, string>)
    ensures forall k :: k in m <==> exists i :: 0 <= i < |items| && items[i].name == k
  {
    if items == [] then map[]
    else
      var prev := IndexOf(items[..|items| - 1]);
      var last := items[|items| - 1];
      assert forall k :: k in prev ==> exists i :: 0 <= i < |items| && items[i].name == k by {
        forall k | k in prev ensures exists i :: 0 <= i < |items| && items[i].name == k {
          var i :| 0 <= i < |items| - 1 && items[..|items| - 1][i].name == k;
          assert items[i].name == k;
        }
      }
      prev[last.name := last.uniqueId]
  }

  /** Later items with the same name overwrite earlier ones. */
  lemma {:induction false} LastItemWins(items: seq<OpcoItem>, i: nat)
    requires i < |items|
    requires forall j :: i < j < |items| ==> items[j].name != items[i].name
    ensures IndexOf(items)[items[i].name] == items[i].uniqueId
  {
    if i < |items| - 1 {
      var init := items[..|items| - 1];
      forall j | i < j < |init| ensures init[j].name != init[i].name {
        assert init[j] == items[j];
      }
      LastItemWins(init, i);
    }
  }

  /** The forEach loop of fetchTopologyOpcoData over the response items. */
  method BuildOpcoIndex(items: seq<OpcoItem>) returns (opcoToUniqueIdMapping: map<string, string>)
    ensures opcoToUniqueIdMapping == IndexOf(items)
  {
    opcoToUniqueIdMapping := map[];
    var i := 0;
    while i < |items|
      invariant 0 <= i <= |items|
      invariant opcoToUniqueIdMapping == IndexOf(items[..i])
    {
      assert items[..i + 1][..i] == items[..i];
      opcoToUniqueIdMapping := opcoToUniqueIdMapping[items[i].name := items[i].uniqueId];
      i := i + 1;
    }
    assert items[..i] == items;
  }

  /**
   * fetchTopologyOpcoData once the query has answered: `None` stands for a failed
   * request or a response without data or items, which return null.
   */
  method FetchTopologyOpcoData(response: Option<seq<OpcoItem>>) returns (index: Option<map<string, string>>)
    ensures index.Some? <==> response.Some?
    ensures index.Some? ==> index.value == IndexOf(response.value)
  {
    if response.None? {
      return None;
    }
    var m := BuildOpcoIndex(response.value);
    return Some(m);
  }

  /** The hard-coded alias: organisation code SP is looked up as ES. */
  function Alias(code: string): string {
    if code == "SP" then "ES" else code
  }

  /** `opcoTopoData[opco]` is truthy: present and non-empty. */
  predicate Hit(index: map<string, string>, code: string) {
    Alias(code) in index && index[Alias(code)] != ""
  }

  /** The ids pushed onto `affectedOpcos`, in the order of the codes, duplicates kept. */
  function Resolve(index: map<string, string>, codes: seq<string>): (ids: seq<string>)
    ensures |ids| <= |codes|
    ensures forall id :: id in ids ==> id != "" && id in index.Values
  {
    if codes == [] then []
    else
      var prev := Resolve(index, codes[..|codes| - 1]);
      var code := codes[|codes| - 1];
      prev + (if Hit(index, code) then [index[Alias(code)]] else [])
  }

  /** Resolution distributes over concatenation of the code lists. */
  lemma {:induction false} ResolveConcat(index: map<string, string>, a: seq<string>, b: seq<string>)
    ensures Resolve(index, a + b) == Resolve(index, a) + Resolve(index, b)
    decreases |b|
  {
    if b != [] {
      var init := b[..|b| - 1];
      assert (a + b)[..|a + b| - 1] == a + init;
      ResolveConcat(index, a, init);
    } else {
      assert a + b == a;
    }
  }

  /** One code resolves to its index entry when that entry is truthy, and to nothing otherwise. */
  lemma ResolveOne(index: map<string, string>, code: string)
    ensures Resolve(index, [code]) == if Hit(index, code) then [index[Alias(code)]] else []
  {
    assert [code][..0] == [];
  }

  /** Wherever it stands in the list, code SP resolves exactly as code ES does. */
  lemma SpResolvesAsEs(index: map<string, string>, before: seq<string>, after: seq<string>)
    ensures Resolve(index, before + ["SP"] + after) == Resolve(index, before + ["ES"] + after)
  {
    ResolveConcat(index, before + ["SP"], after);
    ResolveConcat(index, before, ["SP"]);
    ResolveConcat(index, before + ["ES"], after);
    ResolveConcat(index, before, ["ES"]);
    ResolveOne(index, "SP");
    ResolveOne(index, "ES");
  }

  /** Each code whose lookup hits contributes one id; the others are dropped. */
  lemma {:induction false} ResolveCounts(index: map<string, string>, codes: seq<string>)
    ensures |Resolve(index, codes)| == |codes| <==> forall i :: 0 <= i < |codes| ==> Hit(index, codes[i])
  {
    if codes != [] {
      var init := codes[..|codes| - 1];
      ResolveCounts(index, init);
      if |Resolve(index, codes)| == |codes| {
        assert Hit(index, codes[|codes| - 1]);
        forall i | 0 <= i < |codes| ensures Hit(index, codes[i]) {
          if i < |init| { assert init[i] == codes[i]; }
        }
      }
    }
  }

  /** The loop of prepareAndSendChangeData that fills `affectedOpcos`. */
  method ResolveAffectedOpcos(opcoTopoData: map<string, string>, affectedOpcosList: seq<string>)
    returns (affectedOpcos: seq<string>)
    ensures affectedOpcos == Resolve(opcoTopoData, affectedOpcosList)
  {
    affectedOpcos := [];
    var i := 0;
    while i < |affectedOpcosList|
      invariant 0 <= i <= |affectedOpcosList|
      invariant affectedOpcos == Resolve(opcoTopoData, affectedOpcosList[..i])
    {
      assert affectedOpcosList[..i + 1][..i] == affectedOpcosList[..i];
      var opco := affectedOpcosList[i];
      if opco == "SP" {
        opco := "ES";
      }
      if opco in opcoTopoData && opcoTopoData[opco] != "" {
        affectedOpcos := affectedOpcos + [opcoTopoData[opco]];
      }
      i := i + 1;
    }
    assert affectedOpcosList[..i] == affectedOpcosList;
  }
}
