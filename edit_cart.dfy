/** The cart form (`EditCart`): a draft cart whose line items are added through
    two prompts and removed by position, and a submit gated on the user id and
    the item list whose create-or-update choice follows the current path. */
module CartEditor {
  import opened Types
  import opened Effects
  import opened Text
  import opened Dates
  import opened Collections

  const InitialData := CartData(0, "", [])

  const NewCartPath := "/novo-carrinho"
  const EditCartPath := "/editar-carrinho"

  /** A prompt answer read with `Number`, None standing for NaN, passes
      `!(isNaN(n) || n <= 0)`. */
  predicate PositiveAnswer(answer: Option<int>)
  {
    answer.Some? && answer.value > 0
  }

  /** Every line item has a positive product id and a positive quantity. */
  predicate PositiveItems(items: seq<CartItem>)
  {
    forall i :: 0 <= i < |items| ==> items[i].productId > 0 && items[i].quantity > 0
  }

  /** The draft after a valid add: one `{productId, quantity}` at the end,
      every earlier item and the other fields as they were. */
  function WithItem(c: CartData, productId: int, quantity: int): (r: CartData)
    ensures |r.products| == |c.products| + 1
    ensures r.products[..|c.products|] == c.products
    ensures r.products[|c.products|] == CartItem(productId, quantity)
    ensures r.userId == c.userId && r.date == c.date
  {
    c.(products := c.products + [CartItem(productId, quantity)])
  }

  /** The prompts and warnings of `handleAddItem`: the quantity is asked for
      only once the id has passed its check. */
  function AddItemEffects(idAnswer: Option<int>, quantityAnswer: Option<int>): seq<Event>
  {
    [Prompt("informe o id do item")]
    + if !PositiveAnswer(idAnswer) then [Toast(Warning, "Precisa ser um id válido")]
      else [Prompt("Informe a quantidade de itens do id " + DecimalString(idAnswer.value))]
           + if !PositiveAnswer(quantityAnswer) then [Toast(Warning, "Precisa ser uma quantidade válida")] else []
  }

  /** The warning that stops a submission, checked in the source's order:
      the user id first, then the item list. */
  function SubmitGate(c: CartData): (w: Option<string>)
    ensures w.None? <==> c.userId > 0 && |c.products| > 0
    ensures c.userId <= 0 ==> w == Some("Informe um id de usuário válido")
    ensures c.userId > 0 && c.products == [] ==> w == Some("Adicione ao menos um item")
  {
    if c.userId <= 0 then Some("Informe um id de usuário válido")
    else if |c.products| == 0 then Some("Adicione ao menos um item")
    else None
  }

  /** The remote call a gated submission issues. */
  datatype Mode = Create | Update | NoCall

  /** The path, not the `editing` prop, chooses between create and update. */
  function ModeOf(path: string): (m: Mode)
    ensures m == Create <==> path == NewCartPath
    ensures m == Update <==> path == EditCartPath
    ensures m == NoCall <==> path != NewCartPath && path != EditCartPath
  {
    if path == NewCartPath then Create
    else if path == EditCartPath then Update
    else NoCall
  }

  /** The warnings, remote call and notifications of `handleFormSubmit` for a
      draft `c`, the chosen mode, the numeric cart id, the formatted date and
      the server's answer. */
  function SubmitEffects(c: CartData, mode: Mode, cartId: int, date: string, accepted: bool): seq<Event>
  {
    match SubmitGate(c)
    case Some(warning) => [Toast(Warning, warning)]
    case None =>
      match mode
      case Create =>
        [Remote(CreateCartItem(c.(date := date))),
         if accepted then Toast(Success, "Carrinho criado com sucesso") else Toast(Error, "Erro ao criar carrinho")]
      case Update =>
        [Remote(UpdateCartItems(cartId, c.(date := date)))]
        + if accepted then [Toast(Success, "Carrinho editado com sucesso"), Push("/carrinhos")]
          else [Toast(Error, "Erro ao editar carrinho")]
      case NoCall => []
  }

  /** The draft after `handleFormSubmit`: only a confirmed creation resets it. */
  function CartAfterSubmit(c: CartData, mode: Mode, accepted: bool): CartData
  {
    if SubmitGate(c).None? && mode == Create && accepted then InitialData else c
  }

  /** A refused submission issues no remote call: its only effect is the
      gate's warning, and the draft stays as it was. */
  lemma RefusedSubmitIssuesNoCall(c: CartData, mode: Mode, cartId: int, date: string, accepted: bool)
    requires SubmitGate(c).Some?
    ensures SubmitEffects(c, mode, cartId, date, accepted) == [Toast(Warning, SubmitGate(c).value)]
    ensures NoRemote(SubmitEffects(c, mode, cartId, date, accepted))
    ensures CartAfterSubmit(c, mode, accepted) == c
  {
  }

  /** A submission that passes the gate on a known path issues exactly one
      remote call, first, carrying the draft stamped with the submitted date. */
  lemma SubmitIssuesOneCall(c: CartData, mode: Mode, cartId: int, date: string, accepted: bool)
    requires SubmitGate(c).None? && mode != NoCall
    ensures var e := SubmitEffects(c, mode, cartId, date, accepted);
      && |e| >= 2
      && e[0] == Remote(if mode == Create then CreateCartItem(c.(date := date)) else UpdateCartItems(cartId, c.(date := date)))
      && NoRemote(e[1..])
  {
  }

  /** A rejected call leaves the draft as typed and never navigates; only a
      confirmed creation resets it. */
  lemma RejectedSubmitKeepsDraft(c: CartData, mode: Mode, cartId: int, date: string, accepted: bool)
    ensures !accepted ==> CartAfterSubmit(c, mode, accepted) == c
    ensures !accepted ==> forall i :: 0 <= i < |SubmitEffects(c, mode, cartId, date, accepted)| ==>
      !SubmitEffects(c, mode, cartId, date, accepted)[i].Push?
    ensures CartAfterSubmit(c, mode, accepted) != c ==> mode == Create && accepted
  {
  }

  class EditCart {
    const editing: bool
    const id: Option<QueryId>
    const path: string
    var cart: CartData
    var loading: bool
    ghost var trace: seq<Event>

    constructor (editing: bool, id: Option<QueryId>, path: string)
      ensures this.editing == editing && this.id == id && this.path == path
      ensures cart == InitialData && loading && trace == []
    {
      this.editing := editing;
      this.id := id;
      this.path := path;
      cart := InitialData;
      loading := true;
      trace := [];
    }

    /** The mount effect: fetch only in editing mode with an id; `response` is
        what `getCart` answers, None standing for `success: false`. */
    method LoadEffect(response: Option<CartData>)
      modifies this
      ensures !loading
      ensures editing && IdPresent(id) ==>
        && cart == (if response.Some? then response.value else old(cart))
        && trace == old(trace) + [Remote(GetCart(id.value.number))]
                   + (if response.Some? then [] else [Toast(Error, "Erro ao buscar dados do carrinho")])
      ensures !(editing && IdPresent(id)) ==> cart == old(cart) && trace == old(trace)
    {
      if editing && IdPresent(id) {
        trace := trace + [Remote(GetCart(id.value.number))];
        if response.Some? {
          cart := response.value;
        } else {
          trace := trace + [Toast(Error, "Erro ao buscar dados do carrinho")];
        }
        loading := false;
      } else {
        loading := false;
      }
    }

    /** `handleAddItem`; the two arguments are the prompts' answers read with
        `Number`. */
    method HandleAddItem(idAnswer: Option<int>, quantityAnswer: Option<int>)
      modifies this
      ensures loading == old(loading)
      ensures cart == if PositiveAnswer(idAnswer) && PositiveAnswer(quantityAnswer)
                      then WithItem(old(cart), idAnswer.value, quantityAnswer.value)
                      else old(cart)
      ensures PositiveItems(old(cart).products) ==> PositiveItems(cart.products)
      ensures trace == old(trace) + AddItemEffects(idAnswer, quantityAnswer)
    {
      trace := trace + [Prompt("informe o id do item")];
      if !PositiveAnswer(idAnswer) {
        trace := trace + [Toast(Warning, "Precisa ser um id válido")];
        return;
      }
      var productId := idAnswer.value;
      trace := trace + [Prompt("Informe a quantidade de itens do id " + DecimalString(productId))];
      if !PositiveAnswer(quantityAnswer) {
        trace := trace + [Toast(Warning, "Precisa ser uma quantidade válida")];
        return;
      }
      var quantity := quantityAnswer.value;
      cart := cart.(products := cart.products + [CartItem(productId, quantity)]);
    }

    /** `handleDeleteItem(index)`: exactly position `index` goes, the rest
        keep their order; an index outside the list changes nothing. */
    method HandleDeleteItem(index: int)
      modifies this
      ensures loading == old(loading) && trace == old(trace)
      ensures cart.userId == old(cart).userId && cart.date == old(cart).date
      ensures cart.products == if 0 <= index < |old(cart).products|
                               then old(cart).products[..index] + old(cart).products[index + 1..]
                               else old(cart).products
      ensures PositiveItems(old(cart).products) ==> PositiveItems(cart.products)
    {
      var newItems := WithoutIndex(cart.products, index);
      WithoutIndexSlices(cart.products, index);
      cart := cart.(products := newItems);
    }

    /** `handleUserIdChange`; `number` is `Number(value)`. */
    method HandleUserIdChange(number: int)
      modifies this
      ensures cart == old(cart).(userId := number)
      ensures loading == old(loading) && trace == old(trace)
    {
      cart := cart.(userId := number);
    }

    /** `handleFormSubmit`: the clock's year, 0-based month and day, and the
        server's answer `accepted` to the call issued. */
    method HandleFormSubmit(year: nat, month0: nat, day: nat, accepted: bool)
      requires month0 < 12 && 1 <= day <= 31
      modifies this
      ensures loading == old(loading)
      ensures cart == CartAfterSubmit(old(cart), ModeOf(path), accepted)
      ensures trace == old(trace) + SubmitEffects(old(cart), ModeOf(path), IdNumber(id), FormatDate(year, month0, day), accepted)
    {
      var warning := SubmitGate(cart);
      if warning.Some? {
        trace := trace + [Toast(Warning, warning.value)];
        return;
      }
      var formattedDate := FormatDate(year, month0, day);
      SendCart(formattedDate, accepted);
    }

    /** The second half of `handleFormSubmit`, once the gate has passed and
        the date is formatted: create or update as the path says. */
    method SendCart(formattedDate: string, accepted: bool)
      requires SubmitGate(cart).None?
      modifies this
      ensures loading == old(loading)
      ensures cart == CartAfterSubmit(old(cart), ModeOf(path), accepted)
      ensures trace == old(trace) + SubmitEffects(old(cart), ModeOf(path), IdNumber(id), formattedDate, accepted)
    {
      var sent := cart.(date := formattedDate);
      match ModeOf(path)
      case Create =>
        trace := trace + [Remote(CreateCartItem(sent))];
        if accepted {
          trace := trace + [Toast(Success, "Carrinho criado com sucesso")];
          cart := InitialData;
        } else {
          trace := trace + [Toast(Error, "Erro ao criar carrinho")];
        }
      case Update =>
        trace := trace + [Remote(UpdateCartItems(IdNumber(id), sent))];
        if accepted {
          trace := trace + [Toast(Success, "Carrinho editado com sucesso")];
          trace := trace + [Push("/carrinhos")];
        } else {
          trace := trace + [Toast(Error, "Erro ao editar carrinho")];
        }
      case NoCall =>
    }
  }
}
