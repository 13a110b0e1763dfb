/** The server actions of src/app/actions.ts: the catalog-row serialiser
    `toChineseKeys` and `enrichProposal`, which joins the items chosen by the
    language model to the product catalog by id.  The catalog is a
    parameter: its data file is not part of this model. */
module Actions {
  import opened Wrappers
  import opened Products

  const SourceKey := "来源"
  const UserDefined := "用户自定义"

  /** The seven keys every serialised catalog row carries. */
  const RowKeys: set<string> := {"ID", "名称", "品牌", "品类", "价格", "生态", "描述"}

  /** `toChineseKeys(product, isCustom)`: the product's seven fields under
      fixed Chinese keys (the ecosystem as its tag list), and the source
      marker '来源' = '用户自定义' added exactly when `isCustom` holds. */
  method ToChineseKeys(product: Product, isCustom: bool) returns (row: map<string, JsValue>)
    ensures row.Keys == if isCustom then RowKeys + {SourceKey} else RowKeys
    ensures row["ID"] == JStr(product.id) && row["名称"] == JStr(product.name)
    ensures row["品牌"] == JStr(product.brand) && row["品类"] == JStr(product.category)
    ensures row["价格"] == JNum(product.price) && row["生态"] == JList(product.ecosystem)
    ensures row["描述"] == JStr(product.description)
    ensures isCustom ==> row[SourceKey] == JStr(UserDefined)
  {
    row := map[
      "ID" := JStr(product.id),
      "名称" := JStr(product.name),
      "品牌" := JStr(product.brand),
      "品类" := JStr(product.category),
      "价格" := JNum(product.price),
      "生态" := JList(product.ecosystem),
      "描述" := JStr(product.description)];
    if isCustom {
      row := row[SourceKey := JStr(UserDefined)];
    }
  }

  /** Catalog row `i` is the last one whose id is `id`. */
  predicate IsLastWithId(catalog: seq<Product>, i: int, id: string)
  {
    0 <= i < |catalog| && catalog[i].id == id
    && forall j :: i < j < |catalog| ==> catalog[j].id != id
  }

  /** `new Map(catalog.map(p => [p.id, p]))`: the keys are exactly the ids
      of the catalog, and each key maps to a row with that id. */
  function ProductIndex(catalog: seq<Product>): (index: map<string, Product>)
    ensures index.Keys == set p | p in catalog :: p.id
    ensures forall id :: id in index ==> index[id].id == id && index[id] in catalog
    decreases |catalog|
  {
    if catalog == [] then map[]
    else
      var n := |catalog| - 1;
      assert catalog == catalog[..n] + [catalog[n]];
      ProductIndex(catalog[..n])[catalog[n].id := catalog[n]]
  }

  /** When the catalog holds an id twice, the index keeps the LAST row with
      that id, because each later entry overwrites the earlier one. */
  lemma {:induction false} IndexKeepsLastRow(catalog: seq<Product>, id: string)
    requires id in ProductIndex(catalog)
    ensures exists i :: IsLastWithId(catalog, i, id) && catalog[i] == ProductIndex(catalog)[id]
    decreases |catalog|
  {
    var n := |catalog| - 1;
    if catalog[n].id == id {
      assert IsLastWithId(catalog, n, id);
    } else {
      assert catalog == catalog[..n] + [catalog[n]];
      IndexKeepsLastRow(catalog[..n], id);
      var i :| IsLastWithId(catalog[..n], i, id) && catalog[..n][i] == ProductIndex(catalog[..n])[id];
      assert IsLastWithId(catalog, i, id);
    }
  }

  /** The join of `enrichProposal`: each selected item whose id is a key of
      the index becomes the merge of the item with its product; any other
      item is dropped.  Every result comes from an input item and carries
      exactly the indexed product's fields. */
  function EnrichItems(items: seq<SelectedItem>, index: map<string, Product>): (r: seq<EnrichedItem>)
    ensures |r| <= |items|
    ensures forall e :: e in r ==>
              e.productId in index && ProductPart(e) == index[e.productId] && ItemPart(e) in items
    decreases |items|
  {
    if items == [] then []
    else
      var rest := EnrichItems(items[1..], index);
      if items[0].productId in index then [Merge(items[0], index[items[0].productId])] + rest
      else rest
  }

  /** The selected items whose id the index knows, in their original order. */
  function Matched(items: seq<SelectedItem>, index: map<string, Product>): seq<SelectedItem>
    decreases |items|
  {
    if items == [] then []
    else if items[0].productId in index then [items[0]] + Matched(items[1..], index)
    else Matched(items[1..], index)
  }

  function ItemsOf(es: seq<EnrichedItem>): seq<SelectedItem>
    decreases |es|
  {
    if es == [] then [] else [ItemPart(es[0])] + ItemsOf(es[1..])
  }

  /** `a` can be obtained from `b` by deleting elements, keeping the order. */
  predicate IsSubsequence<T(==)>(a: seq<T>, b: seq<T>)
    decreases |b|
  {
    if a == [] then true
    else if b == [] then false
    else (a[0] == b[0] && IsSubsequence(a[1..], b[1..])) || IsSubsequence(a, b[1..])
  }

  /** Stripping the product fields off the joined items gives exactly the
      matched selected items, in order. */
  lemma {:induction false} EnrichKeepsMatchedItems(items: seq<SelectedItem>, index: map<string, Product>)
    ensures ItemsOf(EnrichItems(items, index)) == Matched(items, index)
    decreases |items|
  {
    if items != [] {
      EnrichKeepsMatchedItems(items[1..], index);
    }
  }

  lemma {:induction false} MatchedIsSubsequence(items: seq<SelectedItem>, index: map<string, Product>)
    ensures IsSubsequence(Matched(items, index), items)
    decreases |items|
  {
    if items != [] {
      MatchedIsSubsequence(items[1..], index);
      if items[0].productId !in index {
        assert Matched(items, index) == Matched(items[1..], index);
        SubsequenceOfTail(Matched(items[1..], index), items);
      }
    }
  }

  lemma {:induction false} SubsequenceOfTail<T>(a: seq<T>, b: seq<T>)
    requires b != [] && IsSubsequence(a, b[1..])
    ensures IsSubsequence(a, b)
  {
  }

  /** The enriched list is an order-preserving subsequence of the selected
      items (after stripping the product fields). */
  lemma EnrichPreservesOrder(items: seq<SelectedItem>, index: map<string, Product>)
    ensures IsSubsequence(ItemsOf(EnrichItems(items, index)), items)
  {
    EnrichKeepsMatchedItems(items, index);
    MatchedIsSubsequence(items, index);
  }

  /** When the index knows every selected id, nothing is dropped and item `i`
      of the result is the merge of selected item `i` with its product. */
  lemma {:induction false} EnrichAllFound(items: seq<SelectedItem>, index: map<string, Product>)
    requires forall i :: 0 <= i < |items| ==> items[i].productId in index
    ensures |EnrichItems(items, index)| == |items|
    ensures forall i :: 0 <= i < |items| ==>
              EnrichItems(items, index)[i] == Merge(items[i], index[items[i].productId])
    decreases |items|
  {
    if items != [] {
      EnrichAllFound(items[1..], index);
      var r := EnrichItems(items, index);
      assert r == [Merge(items[0], index[items[0].productId])] + EnrichItems(items[1..], index);
      forall i | 1 <= i < |items|
        ensures r[i] == Merge(items[i], index[items[i].productId])
      {
        assert r[i] == EnrichItems(items[1..], index)[i - 1];
        assert items[1..][i - 1] == items[i];
      }
    }
  }

  /** The join works item by item, so it distributes over concatenation. */
  lemma {:induction false} EnrichConcat(a: seq<SelectedItem>, b: seq<SelectedItem>, index: map<string, Product>)
    ensures EnrichItems(a + b, index) == EnrichItems(a, index) + EnrichItems(b, index)
    decreases |a|
  {
    if a == [] {
      assert a + b == b;
    } else {
      assert (a + b)[1..] == a[1..] + b;
      EnrichConcat(a[1..], b, index);
    }
  }

  /** A selected item whose id is not in the index contributes nothing:
      removing it from the input leaves the output unchanged. */
  lemma MissIsDropped(a: seq<SelectedItem>, x: SelectedItem, b: seq<SelectedItem>, index: map<string, Product>)
    requires x.productId !in index
    ensures EnrichItems(a + [x] + b, index) == EnrichItems(a + b, index)
  {
    EnrichConcat(a + [x], b, index);
    EnrichConcat(a, [x], index);
    EnrichConcat(a, b, index);
    assert EnrichItems([x], index) == [];
  }

  /** The proposal as returned by the model: the report and the raw selection. */
  datatype Selection = Selection(analysisReport: string, selectedItems: seq<SelectedItem>)

  /** `{ proposal?: Proposal; error?: string }`. */
  datatype ActionResult = ActionResult(proposal: Option<Proposal>, error: Option<string>)

  /** `enrichProposal`: the report is passed through unchanged, the items are
      joined against the catalog, and a missing id never yields an error.
      Every kept item carries the last catalog row with its id. */
  function EnrichProposal(selection: Selection, catalog: seq<Product>): (r: ActionResult)
    ensures r.error == None && r.proposal.Some?
    ensures r.proposal.value.analysisReport == selection.analysisReport
    ensures |r.proposal.value.enrichedItems| <= |selection.selectedItems|
    ensures forall e :: e in r.proposal.value.enrichedItems ==>
              e.id == e.productId && ItemPart(e) in selection.selectedItems
              && exists i :: IsLastWithId(catalog, i, e.productId) && catalog[i] == ProductPart(e)
  {
    var index := ProductIndex(catalog);
    var enriched := EnrichItems(selection.selectedItems, index);
    assert forall e :: e in enriched ==> exists i :: IsLastWithId(catalog, i, e.productId) && catalog[i] == ProductPart(e) by {
      forall e | e in enriched
        ensures exists i :: IsLastWithId(catalog, i, e.productId) && catalog[i] == ProductPart(e)
      {
        IndexKeepsLastRow(catalog, e.productId);
      }
    }
    ActionResult(Some(Proposal(selection.analysisReport, enriched)), None)
  }
}
