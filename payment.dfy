/** The checkout dialog of src/components/PaymentModal.tsx: the card-number
    formatter, the all-fields-filled check, and the form → processing →
    success steps with the reset on opening. The browser's own input limits
    (`maxLength`, `type="email"`) are not modelled. */
module Payment {
  import opened Text

  /** `.substring(0, 16)`. */
  function Take16(s: string): (r: string)
    ensures r <= s && |r| <= 16
    ensures |s| <= 16 ==> r == s
    ensures |s| > 16 ==> |r| == 16
  {
    if |s| <= 16 then s else s[..16]
  }

  /** `value.match(/.{1,4}/g)?.join(' ') || value` on a digit string: groups
      of four from the left joined by single spaces; the empty string stays
      empty. */
  function Group4(d: string): (r: string)
    requires AllDigits(d)
    ensures d == [] <==> r == []
    ensures d != [] ==> |r| == |d| + (|d| - 1) / 4
    decreases |d|
  {
    if |d| <= 4 then d else d[..4] + " " + Group4(d[4..])
  }

  /** Spaces stand exactly at every fifth position of a grouped number. */
  lemma {:induction false} Group4Spaces(d: string)
    requires AllDigits(d)
    ensures forall p :: 0 <= p < |Group4(d)| ==> (Group4(d)[p] == ' ' <==> p % 5 == 4)
    decreases |d|
  {
    var r := Group4(d);
    if |d| <= 4 {
      forall p | 0 <= p < |r| ensures r[p] == ' ' <==> p % 5 == 4 {
        assert IsDigit(d[p]);
      }
    } else {
      var rest := Group4(d[4..]);
      Group4Spaces(d[4..]);
      assert r == d[..4] + " " + rest;
      forall p | 0 <= p < |r| ensures r[p] == ' ' <==> p % 5 == 4 {
        if p < 4 {
          assert r[p] == d[p] && IsDigit(d[p]);
        } else if p >= 5 {
          assert r[p] == rest[p - 5];
          assert p % 5 == (p - 5) % 5;
        }
      }
    }
  }

  /** Taking the spaces back out of a grouped number gives the digits. */
  lemma {:induction false} DigitsOfGroup4(d: string)
    requires AllDigits(d)
    ensures Digits(Group4(d)) == d
    decreases |d|
  {
    if |d| > 4 {
      DigitsOfGroup4(d[4..]);
      DigitsAppend(d[..4] + " ", Group4(d[4..]));
      DigitsAppend(d[..4], " ");
      assert d[..4] + d[4..] == d;
    }
  }

  /** `handleCardNumberChange`: keep the first sixteen digits, then group. */
  function FormatCardNumber(value: string): (r: string)
    ensures |r| <= 19
    ensures forall p :: 0 <= p < |r| ==> (r[p] == ' ' <==> p % 5 == 4)
    ensures Digits(value) == [] ==> r == []
  {
    Group4Spaces(Take16(Digits(value)));
    Group4(Take16(Digits(value)))
  }

  /** Removing the spaces from a formatted number gives exactly the first
      sixteen digits of what was typed. */
  lemma FormattedDigits(value: string)
    ensures Digits(FormatCardNumber(value)) == Take16(Digits(value))
  {
    DigitsOfGroup4(Take16(Digits(value)));
  }

  /** Formatting a formatted number again changes nothing: the field is
      stable under its own `onChange`. */
  lemma FormatCardNumberIdempotent(value: string)
    ensures FormatCardNumber(FormatCardNumber(value)) == FormatCardNumber(value)
  {
    FormattedDigits(value);
  }

  /** The six fields of the form. */
  datatype Field = Email | Name | CardNumber | Expiry | Cvc | Zip

  datatype FormData = FormData(email: string, name: string, cardNumber: string, expiry: string, cvc: string, zip: string)
  {
    function Get(f: Field): string {
      match f
      case Email => email
      case Name => name
      case CardNumber => cardNumber
      case Expiry => expiry
      case Cvc => cvc
      case Zip => zip
    }

    /** `{ ...prev, [name]: value }`. */
    function With(f: Field, value: string): (r: FormData)
      ensures r.Get(f) == value
      ensures forall g :: g != f ==> r.Get(g) == Get(g)
    {
      match f
      case Email => this.(email := value)
      case Name => this.(name := value)
      case CardNumber => this.(cardNumber := value)
      case Expiry => this.(expiry := value)
      case Cvc => this.(cvc := value)
      case Zip => this.(zip := value)
    }
  }

  const EmptyForm := FormData("", "", "", "", "", "")
  const TestCard := FormData("alex.johnson@example.com", "Dr. Alex Johnson", "4242 4242 4242 4242", "12/28", "123", "90210")

  /** The `isFilled` conjunction of `handlePay`: no field trims to the
      empty string, that is, no field is blank. */
  predicate IsFilled(form: FormData) {
    forall f: Field :: !Blank(form.Get(f))
  }

  /** The conjunction as the handler writes it, over `trim()`. */
  lemma IsFilledIffTrimmedNonEmpty(form: FormData)
    ensures IsFilled(form) <==> forall f: Field :: Trim(form.Get(f)) != []
  {
    forall f: Field ensures Trim(form.Get(f)) == [] <==> Blank(form.Get(f)) {
      TrimEmptyIffBlank(form.Get(f));
    }
  }

  /** The test card passes the fill check. */
  lemma TestCardIsFilled()
    ensures IsFilled(TestCard)
  {
    forall f: Field ensures !Blank(TestCard.Get(f)) {
      assert !IsJsSpace(TestCard.Get(f)[0]);
    }
  }

  datatype Step = FormStep | Processing | Success

  /** Calls the dialog makes to its host. */
  datatype HostCall = OnClose | OnSuccess

  class PaymentModal {
    var step: Step
    var formData: FormData
    /** Payment timers started and not yet fired. */
    var timers: nat
    var hostCalls: seq<HostCall>

    constructor ()
      ensures step == FormStep && formData == EmptyForm && timers == 0 && hostCalls == []
    {
      step, formData, timers, hostCalls := FormStep, EmptyForm, 0, [];
    }

    /** The effect that runs when `isOpen` becomes true. */
    method Open()
      modifies this`step, this`formData
      ensures step == FormStep && formData == EmptyForm
      ensures forall f: Field :: formData.Get(f) == ""
    {
      step := FormStep;
      formData := EmptyForm;
    }

    /** `handleInputChange`, the `onChange` of every field except the card
        number, which is wired to `handleCardNumberChange` instead. */
    method InputChange(field: Field, value: string)
      modifies this`formData
      ensures formData.Get(field) == value
      ensures forall g :: g != field ==> formData.Get(g) == old(formData).Get(g)
    {
      formData := formData.With(field, value);
    }

    /** `handleCardNumberChange`. */
    method CardNumberChange(value: string)
      modifies this`formData
      ensures formData == old(formData).With(CardNumber, FormatCardNumber(value))
    {
      formData := formData.(cardNumber := FormatCardNumber(value));
    }

    /** `fillTestCard`. */
    method FillTestCard()
      modifies this`formData
      ensures formData == TestCard
    {
      formData := TestCard;
    }

    /** `handlePay`: an incompletely filled form closes the dialog and leaves
        the step alone; a filled one moves to processing and starts the
        payment timer. */
    method Pay()
      modifies this`step, this`timers, this`hostCalls
      ensures !IsFilled(formData) ==>
        hostCalls == old(hostCalls) + [OnClose] && step == old(step) && timers == old(timers)
      ensures IsFilled(formData) ==>
        step == Processing && timers == old(timers) + 1 && hostCalls == old(hostCalls)
    {
      var emailEmpty := TrimsToEmpty(formData.email);
      var nameEmpty := TrimsToEmpty(formData.name);
      var cardEmpty := TrimsToEmpty(formData.cardNumber);
      var expiryEmpty := TrimsToEmpty(formData.expiry);
      var cvcEmpty := TrimsToEmpty(formData.cvc);
      var zipEmpty := TrimsToEmpty(formData.zip);
      var filled := !emailEmpty && !nameEmpty && !cardEmpty && !expiryEmpty && !cvcEmpty && !zipEmpty;
      assert filled <==> IsFilled(formData) by {
        if !filled {
          if emailEmpty { assert Blank(formData.Get(Email)); }
          else if nameEmpty { assert Blank(formData.Get(Name)); }
          else if cardEmpty { assert Blank(formData.Get(CardNumber)); }
          else if expiryEmpty { assert Blank(formData.Get(Expiry)); }
          else if cvcEmpty { assert Blank(formData.Get(Cvc)); }
          else { assert Blank(formData.Get(Zip)); }
        }
      }
      if !filled {
        hostCalls := hostCalls + [OnClose];
        return;
      }
      step := Processing;
      timers := timers + 1;
    }

    /** The payment timer fires: the step becomes success, whatever it is. */
    method PaymentTimerFires()
      requires timers > 0
      modifies this`step, this`timers
      ensures step == Success && timers == old(timers) - 1
    {
      step := Success;
      timers := timers - 1;
    }

    /** `handleFinalize`: success first, then close. */
    method Finalize()
      modifies this`hostCalls
      ensures hostCalls == old(hostCalls) + [OnSuccess, OnClose]
    {
      hostCalls := hostCalls + [OnSuccess];
      hostCalls := hostCalls + [OnClose];
    }

    /** The dialog's close button. */
    method Close()
      modifies this`hostCalls
      ensures hostCalls == old(hostCalls) + [OnClose]
    {
      hostCalls := hostCalls + [OnClose];
    }
  }
}
