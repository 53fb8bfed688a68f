/** The supplier's product page: search and category filter, the category list,
    pausing and reactivating, deletion after confirmation, and the statistics. */
module MyProducts {
  import opened Text
  import Lists

  datatype Product = Product(id: int, nome: string, categoria: string, status: string, vendas: int, visualizacoes: int)

  predicate MatchesSearch(p: Product, searchTerm: string) {
    Contains(Lower(p.nome), Lower(searchTerm)) || Contains(Lower(p.categoria), Lower(searchTerm))
  }

  predicate MatchesCategory(p: Product, selectedCategory: string) {
    selectedCategory == "" || p.categoria == selectedCategory
  }

  /** `filteredProducts`: the products passing both tests, in order. */
  function FilteredProducts(l: seq<Product>, searchTerm: string, selectedCategory: string): (r: seq<Product>)
    ensures forall p :: p in r <==> p in l && MatchesSearch(p, searchTerm) && MatchesCategory(p, selectedCategory)
    ensures Lists.Subsequence(r, l)
  {
    var keep := (p: Product) => MatchesSearch(p, searchTerm) && MatchesCategory(p, selectedCategory);
    Lists.FilterSubsequence(l, keep);
    Lists.Filter(l, keep)
  }

  /** With no search and no category every product is shown. */
  lemma EmptyFiltersShowAll(l: seq<Product>)
    ensures FilteredProducts(l, "", "") == l
  {
    var keep := (p: Product) => MatchesSearch(p, "") && MatchesCategory(p, "");
    forall p | p in l
      ensures keep(p)
    {
      assert "" <= Lower(p.nome);
    }
    Lists.FilterAll(l, keep);
  }

  /** `[...new Set(xs)]`: each value once, where it first occurs. */
  function Distinct(xs: seq<string>): (r: seq<string>)
    ensures forall x :: x in r <==> x in xs
    ensures forall i, j :: 0 <= i < j < |r| ==> r[i] != r[j]
  {
    if xs == [] then []
    else
      var d := Distinct(xs[..|xs| - 1]);
      assert forall x :: x in xs <==> x in xs[..|xs| - 1] || x == xs[|xs| - 1];
      if xs[|xs| - 1] in d then d else d + [xs[|xs| - 1]]
  }

  /** Values keep the order of their first occurrences: extending the list only appends. */
  lemma DistinctExtends(xs: seq<string>, x: string)
    ensures Distinct(xs) <= Distinct(xs + [x])
  {
    assert (xs + [x])[..|xs + [x]| - 1] == xs;
  }

  /** `categories`. */
  function Categories(l: seq<Product>): (r: seq<string>)
    ensures forall c :: c in r <==> exists p :: p in l && p.categoria == c
  {
    var cats := Lists.Map(l, (p: Product) => p.categoria);
    assert forall c :: c in cats <==> exists p :: p in l && p.categoria == c by {
      forall c | c in cats
        ensures exists p :: p in l && p.categoria == c
      {
        var i :| 0 <= i < |cats| && cats[i] == c;
        assert l[i] in l;
      }
      forall p | p in l
        ensures p.categoria in cats
      {
        var i :| 0 <= i < |l| && l[i] == p;
        assert cats[i] == p.categoria;
      }
    }
    Distinct(cats)
  }

  /** `ativo` becomes `pausado`; any other status becomes `ativo`. */
  function NextStatus(status: string): (next: string)
    ensures next == "ativo" || next == "pausado"
    ensures next != status
  {
    if status == "ativo" then "pausado" else "ativo"
  }

  /** Toggling twice restores `ativo` and `pausado`, and turns any other status into `pausado`. */
  lemma NextStatusTwice(status: string)
    ensures status == "ativo" || status == "pausado" ==> NextStatus(NextStatus(status)) == status
    ensures status != "ativo" && status != "pausado" ==> NextStatus(NextStatus(status)) == "pausado"
  {
  }

  /** `toggleProductStatus(id)`'s `map`. */
  function ToggleStatus(l: seq<Product>, id: int): (r: seq<Product>)
    ensures |r| == |l|
    ensures forall i :: 0 <= i < |l| ==> r[i] == if l[i].id == id then l[i].(status := NextStatus(l[i].status)) else l[i]
  {
    Lists.Map(l, (p: Product) => if p.id == id then p.(status := NextStatus(p.status)) else p)
  }

  /** `deleteProduct(id)`'s `filter`. */
  function RemoveProduct(l: seq<Product>, id: int): (r: seq<Product>)
    ensures forall p :: p in r <==> p in l && p.id != id
    ensures Lists.Subsequence(r, l)
  {
    Lists.FilterSubsequence(l, (p: Product) => p.id != id);
    Lists.Filter(l, (p: Product) => p.id != id)
  }

  datatype Stats = Stats(total: nat, active: nat, sales: int, views: int)

  /** The four statistics cards. */
  function ComputeStats(l: seq<Product>): (s: Stats)
    ensures s.total == |l| && s.active <= s.total
  {
    Stats(|l|, Lists.Count(l, (p: Product) => p.status == "ativo"),
          Lists.SumOf(l, (p: Product) => p.vendas), Lists.SumOf(l, (p: Product) => p.visualizacoes))
  }

  /** Pausing or reactivating changes neither the number of products nor sales nor views. */
  lemma {:induction false} ToggleKeepsTotals(l: seq<Product>, id: int)
    ensures ComputeStats(ToggleStatus(l, id)).total == ComputeStats(l).total
    ensures ComputeStats(ToggleStatus(l, id)).sales == ComputeStats(l).sales
    ensures ComputeStats(ToggleStatus(l, id)).views == ComputeStats(l).views
  {
    if l != [] {
      var init := l[..|l| - 1];
      ToggleKeepsTotals(init, id);
      assert ToggleStatus(l, id)[..|l| - 1] == ToggleStatus(init, id);
    }
  }

  class ProductsPage {
    var produtos: seq<Product>

    constructor (initial: seq<Product>)
      ensures produtos == initial
    {
      produtos := initial;
    }

    /** `toggleProductStatus(id)`. */
    method ToggleProductStatus(id: int)
      modifies this
      ensures produtos == ToggleStatus(old(produtos), id)
      ensures ComputeStats(produtos).total == ComputeStats(old(produtos)).total
      ensures ComputeStats(produtos).sales == ComputeStats(old(produtos)).sales
      ensures ComputeStats(produtos).views == ComputeStats(old(produtos)).views
    {
      ToggleKeepsTotals(produtos, id);
      produtos := ToggleStatus(produtos, id);
    }

    /** `deleteProduct(id)`: only once the user confirmed. */
    method DeleteProduct(id: int, confirmed: bool)
      modifies this
      ensures confirmed ==> produtos == RemoveProduct(old(produtos), id)
      ensures !confirmed ==> produtos == old(produtos)
    {
      if confirmed {
        produtos := RemoveProduct(produtos, id);
      }
    }
  }
}
