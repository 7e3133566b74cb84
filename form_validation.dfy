/**
 * The checks run before a payment is submitted: the CPF check digits
 * (the Receita Federal mod-11 scheme) and the per-field bounds that
 * `validateForm` combines.
 */
module FormValidation {
  import opened Text
  import Formatters

  // ---------------------------------------------------------------------------
  // CPF

  /** `Σ_{i<n} d_i·(top − i)`: the weighted sum the check-digit loops accumulate. */
  function WeightedSum(d: string, n: nat, top: int): int
    requires n <= |d| && AllDigits(d)
  {
    if n == 0 then 0 else WeightedSum(d, n - 1, top) + DigitValue(d[n - 1]) * (top - (n - 1))
  }

  /** The check digit over the first `n` digits: `(sum·10) mod 11`, with 10 read as 0. */
  function CheckDigit(d: string, n: nat): (r: nat)
    requires n <= |d| && AllDigits(d)
    ensures r < 10
  {
    var rem := (WeightedSum(d, n, n + 1) * 10) % 11;
    if rem == 10 then 0 else rem
  }

  /** `/^(\d)\1+$/`: at least two digits, all the same. */
  predicate Repeated(d: string)
  {
    |d| >= 2 && forall i :: 0 <= i < |d| ==> d[i] == d[0]
  }

  /** What `validateCPF` accepts: eleven digits, not all alike, both check digits right. */
  predicate CpfValid(cpf: string)
  {
    var d := Digits(cpf);
    |d| == 11 && !Repeated(d) && CheckDigit(d, 9) == DigitValue(d[9]) && CheckDigit(d, 10) == DigitValue(d[10])
  }

  /** `validateCPF`, with its two summing loops. */
  method ValidateCPF(cpf: string) returns (valid: bool)
    ensures valid == CpfValid(cpf)
  {
    var numbers := Digits(cpf);
    if |numbers| != 11 {
      return false;
    }
    var same := true;
    for k := 1 to 11
      invariant same <==> forall i :: 0 <= i < k ==> numbers[i] == numbers[0]
    {
      if numbers[k] != numbers[0] {
        same := false;
      }
    }
    if same {
      return false;
    }

    var sum := 0;
    for i := 0 to 9
      invariant sum == WeightedSum(numbers, i, 10)
    {
      sum := sum + DigitValue(numbers[i]) * (10 - i);
    }
    var remainder := (sum * 10) % 11;
    if remainder == 10 {
      remainder := 0;
    }
    if remainder != DigitValue(numbers[9]) {
      return false;
    }

    sum := 0;
    for i := 0 to 10
      invariant sum == WeightedSum(numbers, i, 11)
    {
      sum := sum + DigitValue(numbers[i]) * (11 - i);
    }
    remainder := (sum * 10) % 11;
    if remainder == 10 {
      remainder := 0;
    }
    return remainder == DigitValue(numbers[10]);
  }

  /**
   * The check digit in its usual statement: with `r` the weighted sum mod 11,
   * the digit is 0 when `r < 2` and `11 − r` otherwise.
   */
  lemma CheckDigitStandard(d: string, n: nat)
    requires n <= |d| && AllDigits(d)
    ensures var r := WeightedSum(d, n, n + 1) % 11;
            CheckDigit(d, n) == if r < 2 then 0 else 11 - r
  {
    TenTimesMod11(WeightedSum(d, n, n + 1));
  }

  /** `10·s mod 11` is 0 when `s mod 11` is 0 and `11 − (s mod 11)` otherwise. */
  lemma TenTimesMod11(sum: int)
    ensures var r := sum % 11; (sum * 10) % 11 == if r == 0 then 0 else 11 - r
  {
    var q, r := sum / 11, sum % 11;
    if r == 0 {
      RemainderOf(sum * 10, 10 * q, 0);
    } else {
      RemainderOf(sum * 10, 10 * q + r - 1, 11 - r);
    }
  }

  /** The remainder mod 11 is the unique `t` in [0, 11) with `m == 11·k + t`. */
  lemma RemainderOf(m: int, k: int, t: int)
    requires m == 11 * k + t && 0 <= t < 11
    ensures m % 11 == t
  {
  }

  /** Separators and any other non-digit make no difference. */
  lemma CpfIgnoresNonDigits(a: string, b: string)
    requires Digits(a) == Digits(b)
    ensures CpfValid(a) == CpfValid(b)
  {
  }

  /** A CPF number with correct check digits. */
  lemma ValidCpfExample()
    ensures CpfValid("52998224725")
  {
    var d := "52998224725";
    CpfExampleDigits();
    CpfExampleChecks();
  }

  lemma CpfExampleDigits()
    ensures AllDigits("52998224725") && Digits("52998224725") == "52998224725" && !Repeated("52998224725")
  {
    var d := "52998224725";
    assert AllDigits(d);
    assert d[1] != d[0];
  }

  lemma CpfExampleChecks()
    ensures CheckDigit("52998224725", 9) == 2 && CheckDigit("52998224725", 10) == 5
  {
    var d := "52998224725";
    assert WeightedSum(d, 3, 10) == 140;
    assert WeightedSum(d, 6, 10) == 261;
    assert WeightedSum(d, 9, 10) == 295;
    assert WeightedSum(d, 3, 11) == 156;
    assert WeightedSum(d, 6, 11) == 296;
    assert WeightedSum(d, 10, 11) == 347;
  }

  /** Eleven equal digits satisfy both check digits, and are still refused. */
  lemma RepeatedCpfRefused()
    ensures var d := "11111111111"; CheckDigit(d, 9) == DigitValue(d[9]) && CheckDigit(d, 10) == DigitValue(d[10])
    ensures !CpfValid("11111111111")
  {
    var d := "11111111111";
    RepeatedCpfChecks();
    assert AllDigits(d);
    assert Repeated(d);
  }

  lemma RepeatedCpfChecks()
    ensures CheckDigit("11111111111", 9) == 1 && CheckDigit("11111111111", 10) == 1
  {
    var d := "11111111111";
    assert WeightedSum(d, 3, 10) == 27;
    assert WeightedSum(d, 6, 10) == 45;
    assert WeightedSum(d, 9, 10) == 54;
    assert WeightedSum(d, 3, 11) == 30;
    assert WeightedSum(d, 6, 11) == 51;
    assert WeightedSum(d, 10, 11) == 65;
  }

  // ---------------------------------------------------------------------------
  // validateForm

  /** The form fields that have an error slot. */
  datatype Field = CardNumber | CardName | Cvv | Cpf | Email | Phone

  /** The values of the form's inputs. */
  datatype Form = Form(cardNumber: string, cardName: string, cvv: string, cpf: string,
                       email: string, phone: string, amount: string)

  /** The message `validateForm` shows for a field that fails. */
  function Message(f: Field): (m: string)
    ensures m != ""
  {
    match f
    case CardNumber => "Número do cartão inválido"
    case CardName => "Nome inválido"
    case Cvv => "CVV inválido"
    case Cpf => "CPF inválido"
    case Email => "E-mail inválido"
    case Phone => "Telefone inválido"
  }

  /** Whether one field passes its check. */
  predicate FieldOk(form: Form, f: Field)
  {
    match f
    case CardNumber => 13 <= |Digits(form.cardNumber)| <= 19
    case CardName => Utf16Length(Trim(form.cardName)) >= 3
    case Cvv => 3 <= |Digits(form.cvv)| <= 4
    case Cpf => CpfValid(form.cpf)
    case Email => Formatters.ValidateEmail(form.email)
    case Phone => 10 <= |Digits(form.phone)| <= 11
  }

  /** The amount is at least 1 real, i.e. at least 100 cents; it has no message of its own. */
  predicate AmountOk(form: Form)
  {
    Formatters.AmountCents(form.amount) >= 100
  }

  /** `validateForm` returns true exactly when every field and the amount pass. */
  predicate FormValid(form: Form)
  {
    (forall f :: FieldOk(form, f)) && AmountOk(form)
  }

  /** The error text `validateForm` leaves for a field. */
  function ErrorText(form: Form, f: Field): string
  {
    if FieldOk(form, f) then "" else Message(f)
  }

  /**
   * `clearError` followed, when the check fails, by `setError`: the field's
   * error text ends up empty or its message, and a failure turns `isValid` off.
   */
  method ApplyCheck(ghost form: Form, ok: bool, f: Field, isValid: bool, errors: map<Field, string>)
    returns (isValid': bool, errors': map<Field, string>)
    requires ok == FieldOk(form, f)
    ensures isValid' == (isValid && FieldOk(form, f))
    ensures errors' == errors[f := ErrorText(form, f)]
  {
    isValid', errors' := isValid, errors[f := ""];
    if !ok {
      errors' := errors'[f := Message(f)];
      isValid' := false;
    }
  }

  /**
   * `validateForm`: every check runs, with no short-circuit, so each field's
   * error text reflects its own check, and `isValid` is the conjunction of all
   * of them and the amount check.
   */
  method ValidateForm(form: Form) returns (isValid: bool, errors: map<Field, string>)
    ensures isValid <==> FormValid(form)
    ensures forall f :: f in errors && errors[f] == (if FieldOk(form, f) then "" else Message(f))
  {
    isValid := true;
    errors := map[];

    var cardNumbers := Digits(form.cardNumber);
    isValid, errors := ApplyCheck(form, !(|cardNumbers| < 13 || |cardNumbers| > 19), CardNumber, isValid, errors);

    isValid, errors := ApplyCheck(form, !(Utf16Length(Trim(form.cardName)) < 3), CardName, isValid, errors);

    var cvvNumbers := Digits(form.cvv);
    isValid, errors := ApplyCheck(form, !(|cvvNumbers| < 3 || |cvvNumbers| > 4), Cvv, isValid, errors);

    var cpfOk := ValidateCPF(form.cpf);
    isValid, errors := ApplyCheck(form, cpfOk, Cpf, isValid, errors);

    isValid, errors := ApplyCheck(form, Formatters.ValidateEmail(form.email), Email, isValid, errors);

    var phoneNumbers := Digits(form.phone);
    isValid, errors := ApplyCheck(form, !(|phoneNumbers| < 10 || |phoneNumbers| > 11), Phone, isValid, errors);

    if Formatters.AmountCents(form.amount) < 100 {
      isValid := false;
    }

    AllFieldsChecked(form, errors);
    FormValidFields(form);
  }

  /** `FormValid` field by field. */
  lemma FormValidFields(form: Form)
    ensures FormValid(form) <==> FieldOk(form, CardNumber) && FieldOk(form, CardName) && FieldOk(form, Cvv) &&
                                 FieldOk(form, Cpf) && FieldOk(form, Email) && FieldOk(form, Phone) && AmountOk(form)
  {
    if FieldOk(form, CardNumber) && FieldOk(form, CardName) && FieldOk(form, Cvv) &&
       FieldOk(form, Cpf) && FieldOk(form, Email) && FieldOk(form, Phone)
    {
      forall f ensures FieldOk(form, f) {
        match f
        case CardNumber =>
        case CardName =>
        case Cvv =>
        case Cpf =>
        case Email =>
        case Phone =>
      }
    }
  }

  lemma AllFieldsChecked(form: Form, errors: map<Field, string>)
    requires errors == map[][CardNumber := ErrorText(form, CardNumber)][CardName := ErrorText(form, CardName)]
                         [Cvv := ErrorText(form, Cvv)][Cpf := ErrorText(form, Cpf)]
                         [Email := ErrorText(form, Email)][Phone := ErrorText(form, Phone)]
    ensures forall f :: f in errors && errors[f] == (if FieldOk(form, f) then "" else Message(f))
  {
    SixEntries(errors, f => ErrorText(form, f));
  }

  /** A map that writes `e(f)` for each of the six fields holds `e(f)` for every field. */
  lemma SixEntries(errors: map<Field, string>, e: Field -> string)
    requires errors == map[][CardNumber := e(CardNumber)][CardName := e(CardName)][Cvv := e(Cvv)]
                         [Cpf := e(Cpf)][Email := e(Email)][Phone := e(Phone)]
    ensures forall f :: f in errors && errors[f] == e(f)
  {
    forall f ensures f in errors && errors[f] == e(f) {
      match f
      case CardNumber =>
      case CardName =>
      case Cvv =>
      case Cpf =>
      case Email =>
      case Phone =>
    }
  }

  /** The form is valid exactly when every error slot is empty and the amount passes. */
  lemma FormValidIffNoErrors(form: Form, errors: map<Field, string>)
    requires forall f :: f in errors && errors[f] == (if FieldOk(form, f) then "" else Message(f))
    ensures FormValid(form) <==> (forall f :: errors[f] == "") && AmountOk(form)
  {
  }
}
