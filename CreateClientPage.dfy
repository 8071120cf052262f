/** The create-client form: input sanitisers and live per-field errors applied on every
    change, and the validity gate that decides whether submitting sends the request. */
module CreateClientPage {
  import opened Wrappers
  import opened Text
  import opened Collections
  import Patterns
  import ClientsRoute
  import Store

  datatype Field = Dni | Name | Phone

  /** The shape shared by the `formData` and `errors` state records. */
  datatype Fields = Fields(dni: string, name: string, phone: string)
  {
    function Get(f: Field): string {
      match f
      case Dni => dni
      case Name => name
      case Phone => phone
    }

    /** `{ ...this, [f]: v }`. */
    function With(f: Field, v: string): (r: Fields)
      ensures r.Get(f) == v
      ensures forall g :: g != f ==> r.Get(g) == Get(g)
    {
      match f
      case Dni => this.(dni := v)
      case Name => this.(name := v)
      case Phone => this.(phone := v)
    }
  }

  /** The record with every entry empty: the initial form data, and the error record
      with no error set. */
  const Empty := Fields("", "", "")

  const DniLengthMessage := "El DNI debe tener 8 d\U{ED}gitos"
  const NameLengthMessage := "El nombre debe tener al menos 2 caracteres"
  const PhoneStartMessage := "El tel\U{E9}fono debe comenzar con 9"
  const PhoneLengthMessage := "M\U{E1}ximo 9 d\U{ED}gitos"
  const PhoneMissingMessage := "Ingrese un tel\U{E9}fono"
  const PhoneFormatMessage := "El tel\U{E9}fono debe comenzar con 9 y tener 9 d\U{ED}gitos"
  const NameInvalidMessage := "Ingrese un nombre v\U{E1}lido (m\U{ED}nimo 2 letras)"

  /** `[a-zA-ZáéíóúÁÉÍÓÚñÑüÜ\s]`. */
  predicate IsNameChar(c: char) {
    || 'a' <= c <= 'z' || 'A' <= c <= 'Z'
    || c in "\U{E1}\U{E9}\U{ED}\U{F3}\U{FA}\U{C1}\U{C9}\U{CD}\U{D3}\U{DA}\U{F1}\U{D1}\U{FC}\U{DC}"
    || IsSpace(c)
  }

  /** `value.replace(/[^0-9]/g, '')`. */
  function KeepDigits(s: string): (r: string)
    ensures AllDigits(r) && |r| <= |s|
  {
    Keep(s, IsDigit)
  }

  /** `value.replace(/[^a-zA-ZáéíóúÁÉÍÓÚñÑüÜ\s]/g, '')`. */
  function KeepNameChars(s: string): (r: string)
    ensures forall i :: 0 <= i < |r| ==> IsNameChar(r[i])
    ensures |r| <= |s|
  {
    Keep(s, IsNameChar)
  }

  /** The sanitiser `handleChange` applies to the changed field. */
  function Sanitise(f: Field, v: string): (r: string)
    ensures f == Name ==> forall i :: 0 <= i < |r| ==> IsNameChar(r[i])
    ensures f != Name ==> AllDigits(r)
    ensures |r| <= |v|
  {
    match f
    case Dni => KeepDigits(v)
    case Phone => KeepDigits(v)
    case Name => KeepNameChars(v)
  }

  predicate StartsWith9(s: string) {
    |s| > 0 && s[0] == '9'
  }

  /** The error `handleChange` shows under the changed field for its sanitised value. */
  function LiveError(f: Field, v: string): string {
    match f
    case Dni => if |v| != 8 && |v| > 0 then DniLengthMessage else ""
    case Phone =>
      if !StartsWith9(v) && |v| > 0 then PhoneStartMessage
      else if !(|v| <= 9) then PhoneLengthMessage
      else ""
    case Name => if |v| < 2 && |v| > 0 then NameLengthMessage else ""
  }

  /** The errors `handleSubmit` computes, each field on its own. */
  function SubmitErrors(form: Fields): Fields {
    Fields(
      if |form.dni| != 8 then DniLengthMessage else "",
      if |form.name| < 2 then NameInvalidMessage else "",
      if !StartsWith9(form.phone) || |form.phone| != 9 then
        (if |form.phone| == 0 then PhoneMissingMessage else PhoneFormatMessage)
      else "")
  }

  /** The `formIsValid` that `handleSubmit` ends with. */
  predicate SubmitOk(form: Fields) {
    |form.dni| == 8 && StartsWith9(form.phone) && |form.phone| == 9 && |form.name| >= 2
  }

  /** What the sanitisers leave in the form: digits in `dni` and `phone`, name characters
      in `name`. */
  predicate Sanitised(form: Fields) {
    && AllDigits(form.dni) && AllDigits(form.phone)
    && forall i :: 0 <= i < |form.name| ==> IsNameChar(form.name[i])
  }

  /** The digit sanitiser leaves only digits, never lengthens, and is idempotent. */
  lemma KeepDigitsProperties(s: string)
    ensures AllDigits(KeepDigits(s))
    ensures |KeepDigits(s)| <= |s|
    ensures KeepDigits(KeepDigits(s)) == KeepDigits(s)
  {
    KeepIdempotent(s, IsDigit);
  }

  /** The name sanitiser leaves only letters, the listed accented letters and whitespace,
      never lengthens, and is idempotent. */
  lemma KeepNameCharsProperties(s: string)
    ensures forall i :: 0 <= i < |KeepNameChars(s)| ==> IsNameChar(KeepNameChars(s)[i])
    ensures |KeepNameChars(s)| <= |s|
    ensures KeepNameChars(KeepNameChars(s)) == KeepNameChars(s)
  {
    KeepIdempotent(s, IsNameChar);
  }

  /** The live error rules, field by field. */
  lemma LiveErrorRules(v: string)
    ensures LiveError(Dni, v) != "" <==> 0 < |v| && |v| != 8
    ensures LiveError(Name, v) != "" <==> 0 < |v| < 2
    ensures LiveError(Phone, v) == (if 0 < |v| && v[0] != '9' then PhoneStartMessage
                                    else if |v| > 9 then PhoneLengthMessage
                                    else "")
    ensures LiveError(Phone, "") == ""
  {
  }

  /** The live check is never stricter than the submit check: a field that shows a live
      error also gets an error on submit. */
  lemma LiveErrorImpliesSubmitError(form: Fields, f: Field)
    ensures LiveError(f, form.Get(f)) != "" ==> SubmitErrors(form).Get(f) != ""
  {
  }

  /** The converse fails: a phone of one digit `9` shows no live error, yet the gate
      refuses it. */
  lemma ShortPhoneSilentUntilSubmit(form: Fields)
    requires form.phone == "9"
    ensures LiveError(Phone, form.phone) == ""
    ensures SubmitErrors(form).phone == PhoneFormatMessage && !SubmitOk(form)
  {
  }

  /** Submitting is allowed exactly when no field has an error; each field's error depends
      on that field alone, and an empty phone gets its own message. */
  lemma SubmitGate(form: Fields)
    ensures SubmitOk(form) <==> SubmitErrors(form) == Empty
    ensures SubmitErrors(form).dni != "" <==> |form.dni| != 8
    ensures SubmitErrors(form).name != "" <==> |form.name| < 2
    ensures SubmitErrors(form).phone != "" <==> !(|form.phone| == 9 && form.phone[0] == '9')
    ensures form.phone == "" ==> SubmitErrors(form).phone == PhoneMissingMessage
    ensures form.phone != "" && SubmitErrors(form).phone != "" ==> SubmitErrors(form).phone == PhoneFormatMessage
  {
  }

  /** A sanitised form that passes the gate also passes the server's DNI and phone checks:
      the server can then refuse it only for a whitespace-only name or a DNI already taken. */
  lemma GateAgreesWithServer(form: Fields, clients: seq<Store.Client>)
    requires Sanitised(form) && SubmitOk(form)
    ensures var req := ClientsRoute.ClientRequest(Some(form.name), Some(form.dni), Some(form.phone));
            var outcome := ClientsRoute.Check(req, clients);
            && (outcome == Some(ClientsRoute.NameRequired) <==> AllSpace(form.name))
            && (outcome.Some? && !AllSpace(form.name) ==> outcome.value.DuplicateDni?)
  {
    var req := ClientsRoute.ClientRequest(Some(form.name), Some(form.dni), Some(form.phone));
    assert !ClientsRoute.Blank(req.dni) by {
      ClientsRoute.BlankIffAllSpace(req.dni);
      assert !IsSpace(form.dni[0]);
    }
    assert Patterns.Matches(Patterns.DniPattern(), form.dni) by {
      Patterns.DniPatternIff(form.dni);
    }
    assert ClientsRoute.PhoneAcceptable(req.phone) by {
      ClientsRoute.PhoneRule(req.phone);
    }
    ClientsRoute.PastFormatChecks(req, clients);
    ClientsRoute.BlankIffAllSpace(req.name);
  }

  /** The gate counts characters without trimming, so a name of two spaces passes it and
      is then refused by the server as missing. */
  lemma BlankNamePassesGate(clients: seq<Store.Client>)
    ensures var form := Fields("12345678", "  ", "987654321");
            && Sanitised(form) && SubmitOk(form)
            && ClientsRoute.Check(ClientsRoute.ClientRequest(Some(form.name), Some(form.dni), Some(form.phone)), clients)
               == Some(ClientsRoute.NameRequired)
  {
    var form := Fields("12345678", "  ", "987654321");
    assert AllSpace(form.name);
    GateAgreesWithServer(form, clients);
  }

  /** The form state of the page. */
  class CreateClientForm {
    var formData: Fields
    var errors: Fields

    ghost predicate Valid()
      reads this
    {
      Sanitised(formData)
    }

    constructor ()
      ensures Valid() && formData == Empty && errors == Empty
    {
      formData := Empty;
      errors := Empty;
    }

    /** `handleChange`: sanitises the new value, stores it in its field and recomputes
        that field's error; every other field and error is left as it was. */
    method HandleChange(f: Field, value: string)
      requires Valid()
      modifies this
      ensures Valid()
      ensures formData == old(formData).With(f, Sanitise(f, value))
      ensures errors == old(errors).With(f, LiveError(f, formData.Get(f)))
      ensures forall g :: g != f ==> formData.Get(g) == old(formData).Get(g) && errors.Get(g) == old(errors).Get(g)
    {
      var processed := value;
      if f == Dni || f == Phone {
        processed := KeepDigits(value);
      } else if f == Name {
        processed := KeepNameChars(value);
      }
      assert processed == Sanitise(f, value);
      formData := formData.With(f, processed);
      if f == Dni {
        errors := errors.(dni := if |processed| != 8 && |processed| > 0 then DniLengthMessage else "");
      }
      if f == Phone {
        var startsWith9 := StartsWith9(processed);
        var isValidLength := |processed| <= 9;
        errors := errors.(phone :=
          if !startsWith9 && |processed| > 0 then PhoneStartMessage
          else if !isValidLength then PhoneLengthMessage
          else "");
      }
      if f == Name {
        errors := errors.(name := if |processed| < 2 && |processed| > 0 then NameLengthMessage else "");
      }
    }

    /** `handleSubmit`: recomputes all three errors, and sends the form as the request body
        only when it is valid. A sent form has passed the server's DNI and phone format
        checks already. */
    method HandleSubmit() returns (request: Option<Fields>)
      requires Valid()
      modifies this
      ensures Valid()
      ensures formData == old(formData)
      ensures errors == SubmitErrors(formData)
      ensures request.Some? <==> SubmitOk(formData)
      ensures request.Some? ==> request.value == formData
    {
      var formIsValid := true;
      var newErrors := Empty;
      if |formData.dni| != 8 {
        newErrors := newErrors.(dni := DniLengthMessage);
        formIsValid := false;
      }
      if !StartsWith9(formData.phone) || |formData.phone| != 9 {
        newErrors := newErrors.(phone := if |formData.phone| == 0 then PhoneMissingMessage else PhoneFormatMessage);
        formIsValid := false;
      }
      if |formData.name| < 2 {
        newErrors := newErrors.(name := NameInvalidMessage);
        formIsValid := false;
      }
      errors := newErrors;
      if !formIsValid {
        return None;
      }
      request := Some(formData);
    }
  }
}
