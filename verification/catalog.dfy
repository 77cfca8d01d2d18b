/**
  The in-memory product catalog of server.js and the `products.find` lookup
  the handler resolves a recommendation with.
 */
module Catalog {
  import opened Options

  datatype Product = Product(id: int, name: string, price: string, image: string, link: string)

  const LeatherHarness := Product(1, "프리미엄 가죽 하네스", "72,000",
    "https://placehold.co/100x100/A0522D/ffffff?text=Leather", "https://poopky-mall.com/product/1")
  const ReflectiveHarness := Product(2, "반사 스트라이프 산책 하네스", "45,000",
    "https://placehold.co/100x100/0000FF/ffffff?text=Reflective", "https://poopky-mall.com/product/2")
  const AirHarness := Product(3, "초경량 소프트 에어 하네스", "32,000",
    "https://placehold.co/100x100/87CEEB/ffffff?text=AirMesh", "https://poopky-mall.com/product/3")
  const TacticalHarness := Product(4, "대형견용 튼튼한 택티컬 하네스", "98,000",
    "https://placehold.co/100x100/4B0082/ffffff?text=Tactical", "https://poopky-mall.com/product/4")
  const EngravedHarness := Product(5, "맞춤형 이름 각인 하네스", "55,000",
    "https://placehold.co/100x100/FFD700/000000?text=Custom", "https://poopky-mall.com/product/5")

  /** The shipped catalog, in declaration order. */
  const Products: seq<Product> := [LeatherHarness, ReflectiveHarness, AirHarness, TacticalHarness, EngravedHarness]

  /** No two catalog entries share an id. */
  ghost predicate DistinctIds(catalog: seq<Product>)
  {
    forall i, j :: 0 <= i < j < |catalog| ==> catalog[i].id != catalog[j].id
  }

  /** The shipped catalog has ids 1 to 5 in order, hence pairwise distinct. */
  lemma ProductsHaveDistinctIds()
    ensures |Products| == 5
    ensures forall i :: 0 <= i < |Products| ==> Products[i].id == i + 1
    ensures DistinctIds(Products)
  {
  }

  /** Index of the first entry at or after `from` whose id is `id`. */
  function FindIndexFrom(catalog: seq<Product>, id: int, from: nat): (r: Option<nat>)
    requires from <= |catalog|
    ensures r.Some? ==> from <= r.value < |catalog| && catalog[r.value].id == id
    ensures r.Some? ==> forall j :: from <= j < r.value ==> catalog[j].id != id
    ensures r.None? ==> forall j :: from <= j < |catalog| ==> catalog[j].id != id
    decreases |catalog| - from
  {
    if from == |catalog| then None
    else if catalog[from].id == id then Some(from)
    else FindIndexFrom(catalog, id, from + 1)
  }

  /**
    `catalog.find(p => p.id === id)`: the first entry with that id, or
    `undefined` (here `None`) when there is none.
   */
  function Find(catalog: seq<Product>, id: int): (r: Option<Product>)
    ensures r.Some? ==> r.value in catalog && r.value.id == id
    ensures r.None? <==> forall p :: p in catalog ==> p.id != id
    ensures r.Some? ==>
              exists i :: 0 <= i < |catalog| && catalog[i] == r.value
                          && forall j :: 0 <= j < i ==> catalog[j].id != id
  {
    match FindIndexFrom(catalog, id, 0)
    case Some(i) => Some(catalog[i])
    case None => None
  }

  /** With distinct ids, the entry found is the only one carrying that id. */
  lemma FindIsUnique(catalog: seq<Product>, id: int, i: nat)
    requires DistinctIds(catalog)
    requires i < |catalog| && catalog[i].id == id
    ensures Find(catalog, id) == Some(catalog[i])
  {
  }
}
