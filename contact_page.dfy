/**
 * The contact page: a three-field form record. A change event writes one
 * field by its input's `name`; a submit hands the current record over and
 * clears every field.
 */
module ContactPage {

  /** The `name` attributes of the form's three inputs. */
  datatype Field = Nome | Email | Mensagem

  datatype FormData = FormData(nome: string, email: string, mensagem: string)
  {
    /** The value of one field. */
    function Get(field: Field): string {
      match field
      case Nome => nome
      case Email => email
      case Mensagem => mensagem
    }

    /** `{ ...prevData, [name]: value }`. */
    function With(field: Field, value: string): (r: FormData)
      ensures r.Get(field) == value
      ensures forall other :: other != field ==> r.Get(other) == Get(other)
    {
      match field
      case Nome => this.(nome := value)
      case Email => this.(email := value)
      case Mensagem => this.(mensagem := value)
    }
  }

  /** The record the page starts with and resets to. */
  const Empty := FormData("", "", "")

  /** Two records that agree on every field are the same record. */
  lemma FieldsDetermineRecord(a: FormData, b: FormData)
    requires forall field :: a.Get(field) == b.Get(field)
    ensures a == b
  {
    assert a.Get(Nome) == b.Get(Nome);
    assert a.Get(Email) == b.Get(Email);
    assert a.Get(Mensagem) == b.Get(Mensagem);
  }

  /** Writing a field twice leaves the second value, so repeating a change is harmless. */
  lemma WithOverwrites(d: FormData, field: Field, first: string, second: string)
    ensures d.With(field, first).With(field, second) == d.With(field, second)
  {
    var x, y := d.With(field, first).With(field, second), d.With(field, second);
    forall other
      ensures x.Get(other) == y.Get(other)
    {
    }
    FieldsDetermineRecord(x, y);
  }

  /** Writes to different fields do not interfere, in either order. */
  lemma WithCommutes(d: FormData, f: Field, u: string, g: Field, v: string)
    requires f != g
    ensures d.With(f, u).With(g, v) == d.With(g, v).With(f, u)
  {
    var x, y := d.With(f, u).With(g, v), d.With(g, v).With(f, u);
    forall other
      ensures x.Get(other) == y.Get(other)
    {
    }
    FieldsDetermineRecord(x, y);
  }

  /** Writing a field its current value changes nothing. */
  lemma WithSameValue(d: FormData, field: Field)
    ensures d.With(field, d.Get(field)) == d
  {
    var x := d.With(field, d.Get(field));
    forall other
      ensures x.Get(other) == d.Get(other)
    {
    }
    FieldsDetermineRecord(x, d);
  }

  class ContactForm {
    var formData: FormData

    constructor ()
      ensures formData == Empty
    {
      formData := Empty;
    }

    /** `handleChange`: the input named `field` now holds `value`. */
    method HandleChange(field: Field, value: string)
      modifies this
      ensures formData.Get(field) == value
      ensures forall other :: other != field ==> formData.Get(other) == old(formData.Get(other))
    {
      formData := formData.With(field, value);
    }

    /**
     * `handleSubmit`: whatever the fields hold, `sent` is the record as it
     * was and the form is empty again.
     */
    method HandleSubmit() returns (sent: FormData)
      modifies this
      ensures sent == old(formData)
      ensures formData == Empty
    {
      sent := formData;
      formData := Empty;
    }
  }

  /** Fill all three fields and submit: the record sent holds the three values. */
  method FillAndSubmit(nome: string, email: string, mensagem: string) returns (sent: FormData, after: FormData)
    ensures sent == FormData(nome, email, mensagem)
    ensures after == Empty
  {
    var form := new ContactForm();
    form.HandleChange(Mensagem, mensagem);
    form.HandleChange(Nome, nome);
    form.HandleChange(Email, email);
    FieldsDetermineRecord(form.formData, FormData(nome, email, mensagem));
    sent := form.HandleSubmit();
    after := form.formData;
  }
}
