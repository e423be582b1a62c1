/** Client runs of the screens, showing what callers can conclude from the
    handlers' contracts alone. */
module Scenarios {
  import opened Types
  import opened Effects
  import opened Collections
  import ProductList
  import UserList
  import ProductEditor
  import CartEditor

  /** A failed product load ends loading on an empty list, and the screen shows
      the "nothing found" line. */
  method FailedLoadShowsEmptyMessage()
  {
    var screen := new ProductList.AllProducts();
    screen.LoadEffect(Some("abc"), None);
    assert !screen.loading && screen.products == [];
    assert screen.View() == EmptyMessage;
  }

  /** Without a session cookie the user list redirects, warns and fetches nothing. */
  method MissingTokenFetchesNothing()
  {
    var screen := new UserList.UsersSection();
    screen.LoadEffect(None, Some([User(1, "ana", "a@x")]));
    assert screen.loading && screen.users == [];
    assert NoRemote(screen.trace);
  }

  /** A confirmed creation resets the product draft and does not navigate. */
  method CreatedProductResetsDraft()
  {
    var form := new ProductEditor.EditProduct(false, None);
    form.HandleInputChange(ProductEditor.Title, "Soda", 0);
    form.HandleInputChange(ProductEditor.Price, "5", 5);
    assert form.product.title == "Soda" && form.product.price == 5;
    form.HandleFormSubmit(ProductEditor.Passed, true);
    assert form.product == ProductEditor.InitialData;
  }

  /** A cart without a positive user id is refused before any remote call. */
  method CartWithoutUserIsRefused()
  {
    var form := new CartEditor.EditCart(false, None, "/novo-carrinho");
    form.HandleFormSubmit(2024, 0, 15, true);
    assert form.cart == CartEditor.InitialData;
    assert NoRemote(form.trace);
  }

  /** A rejected cart update leaves the draft as typed and does not navigate. */
  method RejectedCartUpdateKeepsDraft()
  {
    var form := new CartEditor.EditCart(true, Some(QueryId("42", 42)), "/editar-carrinho");
    form.HandleUserIdChange(3);
    form.HandleAddItem(Some(7), Some(2));
    var typed := form.cart;
    assert typed.products == [CartItem(7, 2)];
    form.HandleFormSubmit(2024, 0, 15, false);
    assert form.cart == typed;
  }
}
