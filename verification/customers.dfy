/** The customer list screen: form validation, add, edit by id, loading a
    customer into the form, and delete. */
module Customers {
  import opened Options
  import Catalogue

  datatype Customer = Customer(id: string, name: string, email: string, phone: string, address: string, company: string)

  datatype CustomerForm = CustomerForm(name: string, email: string, phone: string, address: string, company: string)

  datatype Editor = Editor(form: CustomerForm, isEditing: bool, editing: Option<Customer>)

  function IdOf(c: Customer): string { c.id }

  /** `resetForm`: every field empty and edit mode left. */
  function ResetForm(e: Editor): (r: Editor)
    ensures r.form == CustomerForm("", "", "", "", "") && !r.isEditing && r.editing.None?
  {
    Editor(CustomerForm("", "", "", "", ""), false, None)
  }

  /** `handleEdit`: the form shows exactly that customer's fields, and the
      editor remembers which customer is being edited. */
  function HandleEdit(c: Customer): (r: Editor)
    ensures r.form.name == c.name && r.form.email == c.email && r.form.phone == c.phone
    ensures r.form.address == c.address && r.form.company == c.company
    ensures r.isEditing && r.editing == Some(c)
  {
    Editor(CustomerForm(c.name, c.email, c.phone, c.address, c.company), true, Some(c))
  }

  /** The customer a valid form describes, under the edited customer's id
      (when non-empty) or the fresh one. */
  function FromForm(e: Editor, freshId: string): (c: Customer)
    ensures e.editing.Some? && e.editing.value.id != "" ==> c.id == e.editing.value.id
    ensures e.editing.None? || e.editing.value.id == "" ==> c.id == freshId
    ensures (c.name, c.email, c.phone, c.address, c.company)
            == (e.form.name, e.form.email, e.form.phone, e.form.address, e.form.company)
  {
    var id := if e.editing.Some? && e.editing.value.id != "" then e.editing.value.id else freshId;
    Customer(id, e.form.name, e.form.email, e.form.phone, e.form.address, e.form.company)
  }

  /** `handleSubmit`: without a name or an email nothing changes; otherwise
      the customer is appended (add mode) or replaces every customer with the
      edited id (edit mode), and the form is reset. */
  function HandleSubmit(customers: seq<Customer>, e: Editor, freshId: string): (r: (seq<Customer>, Editor))
    ensures e.form.name == "" || e.form.email == "" ==> r == (customers, e)
    ensures e.form.name != "" && e.form.email != "" ==> r.1 == ResetForm(e)
    ensures e.form.name != "" && e.form.email != "" && e.editing.None? ==>
              r.0 == customers + [FromForm(e, freshId)]
    ensures e.form.name != "" && e.form.email != "" && e.editing.Some? ==>
              |r.0| == |customers|
              && forall i :: 0 <= i < |customers| ==>
                   r.0[i] == if customers[i].id == e.editing.value.id then FromForm(e, freshId) else customers[i]
  {
    if e.form.name == "" || e.form.email == "" then (customers, e)
    else
      var editing := if e.editing.Some? then Some(e.editing.value.id) else None;
      (Catalogue.Upsert(customers, IdOf, editing, FromForm(e, freshId)), ResetForm(e))
  }

  /** `handleDelete`: exactly the customers with that id go. */
  function HandleDelete(customers: seq<Customer>, id: string): (r: seq<Customer>)
    ensures forall i :: 0 <= i < |r| ==> r[i].id != id && r[i] in customers
    ensures forall c :: c in customers && c.id != id ==> c in r
  {
    Catalogue.Delete(customers, IdOf, id)
  }

  /** Opening a stored customer for editing and submitting the form untouched
      leaves the list exactly as it was (when ids identify customers). */
  lemma {:induction false} EditThenSubmitUnchanged(customers: seq<Customer>, c: Customer, freshId: string)
    requires c.name != "" && c.email != "" && c.id != ""
    requires forall x :: x in customers && x.id == c.id ==> x == c
    ensures HandleSubmit(customers, HandleEdit(c), freshId).0 == customers
  {
    assert FromForm(HandleEdit(c), freshId) == c;
    Catalogue.ReplaceBySelf(customers, IdOf, c.id, c);
  }

  /** Deleting after a delete of the same id changes nothing more, and the
      survivors keep their order across any split of the list. */
  lemma {:induction false} DeleteLaws(a: seq<Customer>, b: seq<Customer>, id: string)
    ensures HandleDelete(HandleDelete(a, id), id) == HandleDelete(a, id)
    ensures HandleDelete(a + b, id) == HandleDelete(a, id) + HandleDelete(b, id)
  {
    Catalogue.DeleteIdempotent(a, IdOf, id);
    Catalogue.DeleteAppend(a, b, IdOf, id);
  }
}
