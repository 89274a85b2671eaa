/** The card form of the payment page. The form state is an object of string
    fields; an edit replaces one field with the typed value after the field's
    mask, copying every other field unchanged. */
module PaymentForm {
  import opened Masks

  type Form = map<string, string>

  const InitialForm: Form := map[
    "cardNumber" := "", "cardName" := "", "cardExpiry" := "", "cardCVC" := "",
    "billingAddress" := "", "billingCity" := "", "billingState" := "",
    "billingZipCode" := "", "billingCountry" := "México"]

  /** The fields that have an input mask; every other field is stored as
      typed. */
  const MaskedFields: set<string> := {"cardNumber", "cardExpiry", "cardCVC"}

  function Masked(name: string, value: string): string {
    if name == "cardNumber" then CardNumberMask(value)
    else if name == "cardExpiry" then ExpiryMask(value)
    else if name == "cardCVC" then CvcMask(value)
    else value
  }

  /** `handleChange` for an input named `name` whose new content is
      `value`. */
  function HandleChange(form: Form, name: string, value: string): (r: Form)
    ensures r.Keys == form.Keys + {name}
    ensures forall k :: k in form && k != name ==> r[k] == form[k]
    ensures name !in MaskedFields ==> r[name] == value
    ensures name == "cardNumber" ==> r[name] == CardNumberMask(value)
    ensures name == "cardExpiry" ==> r[name] == ExpiryMask(value)
    ensures name == "cardCVC" ==> r[name] == CvcMask(value)
    ensures name == "cardNumber" ==> AllIn(r[name], DigitOrSpace) && |r[name]| <= CardNumberMaxLength
    ensures name == "cardExpiry" ==> ExpiryShape(r[name]) && |r[name]| <= ExpiryMaxDigits + 1
    ensures name == "cardCVC" ==> AllIn(r[name], Digit) && |r[name]| <= CvcMaxLength
  {
    form[name := Masked(name, value)]
  }

  /** Feeding a field's stored value back through `handleChange` (as a
      controlled input re-emitting its content does) changes nothing. */
  lemma HandleChangeStable(form: Form, name: string, value: string)
    ensures var r := HandleChange(form, name, value);
            HandleChange(r, name, r[name]) == r
  {
    var r := HandleChange(form, name, value);
    if name == "cardNumber" {
      CardNumberMaskIdempotent(value);
    } else if name == "cardExpiry" {
      ExpiryMaskIdempotent(value);
    } else if name == "cardCVC" {
      CvcMaskIdempotent(value);
    }
    assert Masked(name, r[name]) == r[name];
  }

  /** Edits to two different fields commute. */
  lemma EditsOfDifferentFieldsCommute(form: Form, a: string, va: string, b: string, vb: string)
    requires a != b
    ensures HandleChange(HandleChange(form, a, va), b, vb) == HandleChange(HandleChange(form, b, vb), a, va)
  {
  }

  /** An edit never drops a field the form had, so the initial fields are
      always present. */
  lemma InitialFieldsPersist(form: Form, name: string, value: string)
    requires InitialForm.Keys <= form.Keys
    ensures InitialForm.Keys <= HandleChange(form, name, value).Keys
  {
  }
}
