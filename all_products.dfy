/** The product list screen (`AllProducts`): a guarded one-shot load and a
    delete that touches the local list only after the server confirms it. */
module ProductList {
  import opened Types
  import opened Effects
  import opened Session
  import opened Collections

  function ProductKey(p: Product): int
  {
    p.id
  }

  class AllProducts {
    var products: seq<Product>
    var loading: bool
    ghost var trace: seq<Event>

    constructor ()
      ensures products == [] && loading && trace == []
    {
      products := [];
      loading := true;
      trace := [];
    }

    /** The mount effect. `response` is what `getAllProducts` answers, None
        standing for `success: false`. */
    method LoadEffect(token: Option<string>, response: Option<seq<Product>>)
      modifies this
      ensures Admits(token) ==>
        && products == (if response.Some? then response.value else old(products))
        && !loading
        && trace == old(trace) + [Remote(GetAllProducts)]
                   + (if response.Some? then [] else [Toast(Error, "Erro ao buscar dados de produtos")])
      ensures !Admits(token) ==>
        && products == old(products)
        && loading == old(loading)
        && trace == old(trace) + [Toast(Warning, LoginRequired), Push(LoginPath)]
    {
      if Admits(token) {
        trace := trace + [Remote(GetAllProducts)];
        if response.Some? {
          products := response.value;
        } else {
          trace := trace + [Toast(Error, "Erro ao buscar dados de produtos")];
        }
        loading := false;
      } else {
        trace := trace + [Toast(Warning, LoginRequired)];
        trace := trace + [Push(LoginPath)];
      }
    }

    /** `handleRemoveProduct(id)`; `removed` is the server's answer to `removeProduct(id)`. */
    method HandleRemoveProduct(id: int, removed: bool)
      modifies this
      ensures loading == old(loading)
      ensures products == if removed then WithoutKey(old(products), ProductKey, id) else old(products)
      ensures trace == old(trace) + [Remote(RemoveProduct(id))]
                       + [if removed then Toast(Success, "Produto removido") else Toast(Error, "Erro ao remover produto")]
    {
      trace := trace + [Remote(RemoveProduct(id))];
      if removed {
        var updatedProducts := WithoutKey(products, ProductKey, id);
        products := updatedProducts;
        trace := trace + [Toast(Success, "Produto removido")];
      } else {
        trace := trace + [Toast(Error, "Erro ao remover produto")];
      }
    }

    /** Which of the three blocks the screen renders. */
    function View(): ListView
      reads this
    {
      ViewOf(loading, |products|)
    }
  }
}
