/** The product form (`EditProduct`): a draft, a per-field error map that an
    edit clears and a failed validation fills, and a submit that creates or
    updates depending on the `editing` prop. */
module ProductEditor {
  import opened Types
  import opened Effects

  datatype ProductField = Title | Price | Description | Category | Image

  type FieldErrors = map<ProductField, seq<string>>

  const AllFields: set<ProductField> := {Title, Price, Description, Category, Image}

  const InitialData := ProductData("", 0, "", "", "")

  const InitialErrors: FieldErrors :=
    map[Title := [], Price := [], Description := [], Category := [], Image := []]

  /** What `editProductSchema.safeParse(product)` answers: success, or the
      field errors it reports (fields without errors may be absent). */
  datatype Validation = Passed | Failed(fieldErrors: map<ProductField, seq<string>>)

  /** The value a draft holds in one field. */
  datatype FieldValue = Text(text: string) | Number(number: int)

  function Get(p: ProductData, field: ProductField): FieldValue
  {
    match field
    case Title => Text(p.title)
    case Price => Number(p.price)
    case Description => Text(p.description)
    case Category => Text(p.category)
    case Image => Text(p.image)
  }

  /** The draft update of `handleInputChange`: the price input stores
      `Number(value)`, every other input stores the raw text. */
  function ApplyInput(p: ProductData, field: ProductField, value: string, number: int): (r: ProductData)
    ensures Get(r, field) == if field == Price then Number(number) else Text(value)
    ensures forall g :: g != field ==> Get(r, g) == Get(p, g)
  {
    match field
    case Title => p.(title := value)
    case Price => p.(price := number)
    case Description => p.(description := value)
    case Category => p.(category := value)
    case Image => p.(image := value)
  }

  /** Editing a field and then typing its old value back restores the draft,
      so a later submission sends the same product. */
  lemma ApplyInputRevert(p: ProductData, field: ProductField, value: string, number: int,
                         oldValue: string, oldNumber: int)
    requires Get(p, field) == if field == Price then Number(oldNumber) else Text(oldValue)
    ensures ApplyInput(ApplyInput(p, field, value, number), field, oldValue, oldNumber) == p
  {
  }

  /** `{...initialErrors, ...fieldErrors}`: every field is present; a reported
      field carries the reported messages and every other field none. */
  function MergeErrors(reported: map<ProductField, seq<string>>): (r: FieldErrors)
    ensures r.Keys == AllFields
    ensures forall f :: f in r ==> r[f] == if f in reported then reported[f] else []
  {
    FieldsCovered(reported.Keys);
    InitialErrors + reported
  }

  /** Every field name belongs to `AllFields`. */
  lemma FieldsCovered(fields: set<ProductField>)
    ensures fields <= AllFields
  {
    forall f | f in fields
      ensures f in AllFields
    {
      match f
      case Title =>
      case Price =>
      case Description =>
      case Category =>
      case Image =>
    }
  }

  /** The effects of `sendDataToCreateProduct` for the answer `ok`. */
  function CreateEffects(draft: ProductData, ok: bool): seq<Event>
  {
    [Remote(CreateProduct(draft))]
    + if ok then [Toast(Success, "Produto criado"), ClearFileInput]
      else [Toast(Error, "Não foi possível criar o produto")]
  }

  /** The effects of `sendDataToUpdateProduct` for the answer `ok`. */
  function UpdateEffects(productId: int, draft: ProductData, ok: bool): seq<Event>
  {
    [Remote(UpdateProduct(productId, draft))]
    + if ok then [Toast(Success, "Produto Atualizado com sucesso"), ClearFileInput, Push("/produtos")]
      else [Toast(Error, "Não foi possível atualizar o produto")]
  }

  class EditProduct {
    const editing: bool
    const id: Option<QueryId>
    var product: ProductData
    var productErrors: FieldErrors
    var loading: bool
    ghost var trace: seq<Event>

    /** The error map always has an entry for every field. */
    ghost predicate Valid()
      reads this
    {
      productErrors.Keys == AllFields
    }

    constructor (editing: bool, id: Option<QueryId>)
      ensures Valid() && this.editing == editing && this.id == id
      ensures product == InitialData && productErrors == InitialErrors && loading && trace == []
    {
      this.editing := editing;
      this.id := id;
      product := InitialData;
      productErrors := InitialErrors;
      loading := true;
      trace := [];
    }

    /** The mount effect: fetch only in editing mode with an id; `response` is
        what `getProduct` answers, None standing for `success: false`. */
    method LoadEffect(response: Option<Product>)
      requires Valid()
      modifies this
      ensures Valid() && productErrors == old(productErrors) && !loading
      ensures editing && IdPresent(id) ==>
        && product == (if response.Some? then response.value.data else old(product))
        && trace == old(trace) + [Remote(GetProduct(id.value.number))]
                   + (if response.Some? then [] else [Toast(Error, "Erro ao buscar dados")])
      ensures !(editing && IdPresent(id)) ==> product == old(product) && trace == old(trace)
    {
      if editing && IdPresent(id) {
        trace := trace + [Remote(GetProduct(id.value.number))];
        if response.Some? {
          var fetched := response.value.data;
          product := ProductData(fetched.title, fetched.price, fetched.description, fetched.category, fetched.image);
        } else {
          trace := trace + [Toast(Error, "Erro ao buscar dados")];
        }
        loading := false;
      } else {
        loading := false;
      }
    }

    /** `handleInputChange` for the input named `field`; `number` is `Number(value)`. */
    method HandleInputChange(field: ProductField, value: string, number: int)
      requires Valid()
      modifies this
      ensures Valid()
      ensures productErrors == old(productErrors)[field := []]
      ensures product == ApplyInput(old(product), field, value, number)
      ensures loading == old(loading) && trace == old(trace)
    {
      productErrors := productErrors[field := []];
      if field != Price {
        product := ApplyInput(product, field, value, number);
      } else {
        product := product.(price := number);
      }
    }

    /** `handleImageChange`; `objectUrl` is the URL created for the chosen
        file, None when no file was chosen. */
    method HandleImageChange(objectUrl: Option<string>)
      requires Valid()
      modifies this
      ensures Valid()
      ensures productErrors == old(productErrors)[Image := []]
      ensures product == if objectUrl.Some? then old(product).(image := objectUrl.value) else old(product)
      ensures loading == old(loading) && trace == old(trace)
    {
      productErrors := productErrors[Image := []];
      if objectUrl.Some? {
        product := product.(image := objectUrl.value);
      }
    }

    /** `sendDataToCreateProduct`; `created` is the server's answer. */
    method SendDataToCreateProduct(created: bool)
      requires Valid()
      modifies this
      ensures Valid() && productErrors == old(productErrors) && loading == old(loading)
      ensures product == if created then InitialData else old(product)
      ensures trace == old(trace) + CreateEffects(old(product), created)
    {
      trace := trace + [Remote(CreateProduct(product))];
      if created {
        trace := trace + [Toast(Success, "Produto criado")];
        product := InitialData;
        trace := trace + [ClearFileInput];
      } else {
        trace := trace + [Toast(Error, "Não foi possível criar o produto")];
      }
    }

    /** `sendDataToUpdateProduct`: does nothing without an id; `updated` is
        the server's answer. */
    method SendDataToUpdateProduct(updated: bool)
      requires Valid()
      modifies this
      ensures Valid() && productErrors == old(productErrors) && loading == old(loading)
      ensures IdPresent(id) ==>
        && product == (if updated then InitialData else old(product))
        && trace == old(trace) + UpdateEffects(id.value.number, old(product), updated)
      ensures !IdPresent(id) ==> product == old(product) && trace == old(trace)
    {
      if IdPresent(id) {
        trace := trace + [Remote(UpdateProduct(id.value.number, product))];
        if updated {
          trace := trace + [Toast(Success, "Produto Atualizado com sucesso")];
          product := InitialData;
          trace := trace + [ClearFileInput];
          trace := trace + [Push("/produtos")];
        } else {
          trace := trace + [Toast(Error, "Não foi possível atualizar o produto")];
        }
      }
    }

    /** `handleFormSubmit`: `validation` is the schema's verdict on the
        current draft and `accepted` the server's answer to the call it leads to. */
    method HandleFormSubmit(validation: Validation, accepted: bool)
      requires Valid()
      modifies this
      ensures Valid() && loading == old(loading)
      ensures validation.Failed? ==>
        && productErrors == MergeErrors(validation.fieldErrors)
        && product == old(product)
        && trace == old(trace)
      ensures validation.Passed? && !editing ==>
        && productErrors == old(productErrors)
        && product == (if accepted then InitialData else old(product))
        && trace == old(trace) + CreateEffects(old(product), accepted)
      ensures validation.Passed? && editing && IdPresent(id) ==>
        && productErrors == old(productErrors)
        && product == (if accepted then InitialData else old(product))
        && trace == old(trace) + UpdateEffects(id.value.number, old(product), accepted)
      ensures validation.Passed? && editing && !IdPresent(id) ==>
        productErrors == old(productErrors) && product == old(product) && trace == old(trace)
    {
      if validation.Passed? {
        if editing {
          SendDataToUpdateProduct(accepted);
        } else {
          SendDataToCreateProduct(accepted);
        }
      } else {
        productErrors := MergeErrors(validation.fieldErrors);
      }
    }
  }
}
