/** The product catalogue screen: form validation, add, edit by id, delete
    and form reset. `parseFloat` of the price field is not modelled: the
    caller supplies its value. */
module Products {
  import opened Options
  import opened Text
  import Catalogue

  datatype Product = Product(id: string, name: string, description: string, price: real, category: string, stock: int)

  /** The raw text of the form fields. */
  datatype ProductForm = ProductForm(name: string, description: string, price: string, category: string, stock: string)

  datatype Editor = Editor(form: ProductForm, isEditing: bool, editing: Option<Product>)

  function IdOf(p: Product): string { p.id }

  const EmptyForm: ProductForm := ProductForm("", "", "", "", "")

  /** `resetForm`: every field empty and edit mode left, whatever came before. */
  function ResetForm(e: Editor): (r: Editor)
    ensures r.form.name == "" && r.form.description == "" && r.form.price == ""
    ensures r.form.category == "" && r.form.stock == ""
    ensures !r.isEditing && r.editing.None?
  {
    Editor(EmptyForm, false, None)
  }

  /** The id a submission is stored under: the edited product's id, unless
      that is empty, else the fresh one. */
  function TargetId(e: Editor, freshId: string): (id: string)
    ensures e.editing.Some? && e.editing.value.id != "" ==> id == e.editing.value.id
    ensures e.editing.None? || e.editing.value.id == "" ==> id == freshId
  {
    if e.editing.Some? && e.editing.value.id != "" then e.editing.value.id else freshId
  }

  /** The product a valid form describes; an unparseable stock is 0. */
  function FromForm(e: Editor, freshId: string, price: real): (p: Product)
    ensures p.id == TargetId(e, freshId)
    ensures (p.name, p.description, p.category) == (e.form.name, e.form.description, e.form.category)
    ensures p.price == price
    ensures ParseInt(e.form.stock).None? ==> p.stock == 0
    ensures ParseInt(e.form.stock).Some? ==> p.stock == ParseInt(e.form.stock).value
  {
    Product(TargetId(e, freshId), e.form.name, e.form.description, price, e.form.category,
            ParseIntOrZero(e.form.stock))
  }

  /** `handleSubmit`: without a name or a price nothing changes; otherwise
      the product is appended (add mode) or replaces every product with the
      edited id (edit mode), and the form is reset. */
  function HandleSubmit(products: seq<Product>, e: Editor, freshId: string, price: real)
    : (r: (seq<Product>, Editor))
    ensures e.form.name == "" || e.form.price == "" ==> r == (products, e)
    ensures e.form.name != "" && e.form.price != "" ==> r.1 == ResetForm(e)
    ensures e.form.name != "" && e.form.price != "" && e.editing.None? ==>
              r.0 == products + [FromForm(e, freshId, price)]
    ensures e.form.name != "" && e.form.price != "" && e.editing.Some? ==>
              |r.0| == |products|
              && forall i :: 0 <= i < |products| ==>
                   r.0[i] == if products[i].id == e.editing.value.id then FromForm(e, freshId, price) else products[i]
  {
    if e.form.name == "" || e.form.price == "" then (products, e)
    else
      var p := FromForm(e, freshId, price);
      var editing := if e.editing.Some? then Some(e.editing.value.id) else None;
      (Catalogue.Upsert(products, IdOf, editing, p), ResetForm(e))
  }

  /** `handleDelete`: exactly the products with that id go. */
  function HandleDelete(products: seq<Product>, id: string): (r: seq<Product>)
    ensures forall i :: 0 <= i < |r| ==> r[i].id != id && r[i] in products
    ensures forall p :: p in products && p.id != id ==> p in r
  {
    Catalogue.Delete(products, IdOf, id)
  }

  /** Editing a product with a non-empty id keeps every id in place, so the
      list's length, order and keys are unchanged. */
  lemma {:induction false} EditKeepsIds(products: seq<Product>, e: Editor, freshId: string, price: real)
    requires e.form.name != "" && e.form.price != ""
    requires e.editing.Some? && e.editing.value.id != ""
    ensures var r := HandleSubmit(products, e, freshId, price).0;
            |r| == |products| && forall i :: 0 <= i < |r| ==> r[i].id == products[i].id
  {
    Catalogue.ReplaceKeepsIds(products, IdOf, e.editing.value.id, FromForm(e, freshId, price));
  }

  /** A stock typed as an integer is stored as that integer. */
  lemma {:induction false} StockRoundTrip(e: Editor, freshId: string, price: real, n: int)
    requires e.form.stock == IntToString(n)
    ensures FromForm(e, freshId, price).stock == n
  {
    ParseIntOfIntToString(n, "");
    assert IntToString(n) + "" == IntToString(n);
  }

  /** Adding a product under a fresh id and then deleting that id restores
      the catalogue. */
  lemma {:induction false} AddThenDelete(products: seq<Product>, e: Editor, freshId: string, price: real)
    requires e.form.name != "" && e.form.price != "" && e.editing.None?
    requires forall p :: p in products ==> p.id != freshId
    ensures HandleDelete(HandleSubmit(products, e, freshId, price).0, freshId) == products
  {
    Catalogue.AddThenDelete(products, IdOf, FromForm(e, freshId, price));
  }
}
