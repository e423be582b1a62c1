/** The cart list screen (`CartsSection`): same guard spelling as the user
    list; its delete filters a copy of the list. */
module CartList {
  import opened Types
  import opened Effects
  import opened Session
  import opened Collections

  function CartKey(c: Cart): int
  {
    c.id
  }

  class CartsSection {
    var carts: seq<Cart>
    var loading: bool
    ghost var trace: seq<Event>

    constructor ()
      ensures carts == [] && loading && trace == []
    {
      carts := [];
      loading := true;
      trace := [];
    }

    /** The mount effect. `response` is what `getAllCarts` answers, None
        standing for `success: false`. */
    method LoadEffect(token: Option<string>, response: Option<seq<Cart>>)
      modifies this
      ensures !RejectsAsWritten(token) ==>
        && carts == (if response.Some? then response.value else old(carts))
        && !loading
        && trace == old(trace) + [Remote(GetAllCarts)]
                   + (if response.Some? then [] else [Toast(Error, "Erro ao buscar produtos")])
      ensures RejectsAsWritten(token) ==>
        && carts == old(carts)
        && loading == old(loading)
        && trace == old(trace) + [Push(LoginPath), Toast(Warning, LoginRequired)]
    {
      if RejectsAsWritten(token) {
        trace := trace + [Push(LoginPath)];
        trace := trace + [Toast(Warning, LoginRequired)];
      } else {
        trace := trace + [Remote(GetAllCarts)];
        if response.Some? {
          carts := response.value;
        } else {
          trace := trace + [Toast(Error, "Erro ao buscar produtos")];
        }
        loading := false;
      }
    }

    /** `handleRemoveCart(id)`; `removed` is the server's answer to `removeCart(id)`. */
    method HandleRemoveCart(id: int, removed: bool)
      modifies this
      ensures loading == old(loading)
      ensures carts == if removed then WithoutKey(old(carts), CartKey, id) else old(carts)
      ensures trace == old(trace) + [Remote(RemoveCart(id))]
                       + [if removed then Toast(Success, "Carrinho deletado") else Toast(Error, "Erro ao remover carrinho")]
    {
      trace := trace + [Remote(RemoveCart(id))];
      if removed {
        var previousCarts := carts;
        var newCarts := WithoutKey(previousCarts, CartKey, id);
        carts := newCarts;
        trace := trace + [Toast(Success, "Carrinho deletado")];
      } else {
        trace := trace + [Toast(Error, "Erro ao remover carrinho")];
      }
    }

    /** Which of the three blocks the screen renders. */
    function View(): ListView
      reads this
    {
      ViewOf(loading, |carts|)
    }
  }
}
