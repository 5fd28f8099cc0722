/** The price-alert dialog of frontend/components/alerts/new-alert-modal.tsx.
    Its `open` flag belongs to the parent; `onOpenChange(false)` is modelled
    as clearing it. */
module NewAlertModal {
  import Common
  import Models

  datatype Currency = Currency(id: string, name: string)

  const Cryptocurrencies: seq<Currency> := [
    Currency("BTC", "Bitcoin (BTC)"),
    Currency("ETH", "Ethereum (ETH)"),
    Currency("SOL", "Solana (SOL)"),
    Currency("ADA", "Cardano (ADA)"),
    Currency("XRP", "Ripple (XRP)"),
    Currency("DOGE", "Dogecoin (DOGE)"),
    Currency("MATIC", "Polygon (MATIC)"),
    Currency("LINK", "Chainlink (LINK)"),
    Currency("ARB", "Arbitrum (ARB)"),
    Currency("OP", "Optimism (OP)")
  ]

  datatype AlertForm = AlertForm(currency: string, price: string, condition: string)

  const InitialForm: AlertForm := AlertForm("BTC", "", "above")

  /** The choice list has ten distinct symbols. */
  lemma ChoicesDistinct()
    ensures |Cryptocurrencies| == 10
    ensures forall i, j :: 0 <= i < j < |Cryptocurrencies| ==> Cryptocurrencies[i].id != Cryptocurrencies[j].id
  {
    var ids := seq(10, i requires 0 <= i < 10 => Cryptocurrencies[i].id);
    assert ids == ["BTC", "ETH", "SOL", "ADA", "XRP", "DOGE", "MATIC", "LINK", "ARB", "OP"];
    forall i, j | 0 <= i < j < 10 ensures ids[i] != ids[j] {
      assert ids[i][0] != ids[j][0] || |ids[i]| != |ids[j]| || ids[i][1] != ids[j][1];
    }
  }

  /** The initial form picks one of the choices and a condition the back-end
      `Alert` accepts. */
  lemma InitialFormValid()
    ensures exists i :: 0 <= i < |Cryptocurrencies| && Cryptocurrencies[i].id == InitialForm.currency
    ensures Models.ParseCondition(InitialForm.condition) == Common.Some(Models.Above)
  {
    assert Cryptocurrencies[0].id == InitialForm.currency;
    assert Models.ParseCondition("above") == Common.Some(Models.Above);
  }

  /** `setFormData((prev) => ({ ...prev, [name]: value }))` for the named input. */
  function WithField(form: AlertForm, name: string, value: string): (r: AlertForm)
    ensures name == "currency" ==> r == form.(currency := value)
    ensures name == "price" ==> r == form.(price := value)
    ensures name == "condition" ==> r == form.(condition := value)
    ensures name !in {"currency", "price", "condition"} ==> r == form
  {
    if name == "currency" then form.(currency := value)
    else if name == "price" then form.(price := value)
    else if name == "condition" then form.(condition := value)
    else form
  }

  /** Changing one input and then another touches only their own fields. */
  lemma FieldsIndependent(form: AlertForm, v1: string, v2: string)
    ensures WithField(WithField(form, "price", v1), "condition", v2) == AlertForm(form.currency, v1, v2)
    ensures WithField(WithField(form, "price", v1), "price", v2) == WithField(form, "price", v2)
  {
  }

  class Modal {
    var formData: AlertForm
    var open: bool

    constructor (open: bool)
      ensures formData == InitialForm && this.open == open
    {
      formData := InitialForm;
      this.open := open;
    }

    method HandleInputChange(name: string, value: string)
      modifies this
      ensures formData == WithField(old(formData), name, value) && open == old(open)
    {
      formData := WithField(formData, name, value);
    }

    /** `handleSubmit`: the alert is only logged; the form resets and the dialog closes. */
    method HandleSubmit()
      modifies this
      ensures formData == InitialForm && !open
    {
      formData := InitialForm;
      open := false;
    }

    /** The Cancel button closes the dialog and keeps what was typed. */
    method Cancel()
      modifies this
      ensures formData == old(formData) && !open
    {
      open := false;
    }
  }
}
