/**
 * `ServerForm` of `ServerForm.tsx`: the dialog that collects a server's
 * connection fields. It holds the form values, one error text per field and a
 * submitting flag; typing into a field parses the port and clears that field's
 * error, and submitting validates before anything is sent.
 */
module ServerForm {
  import opened Values
  import opened Outcomes

  // ---------------------------------------------------------------------------
  // `parseInt(value)` with no radix
  // ---------------------------------------------------------------------------

  /** The white space `parseInt` skips before the number: the ECMAScript WhiteSpace and LineTerminator characters. */
  predicate IsJsSpace(c: char)
  {
    c == '\t' || c == '\n' || c == '\U{000B}' || c == '\U{000C}' || c == '\r' || c == ' ' ||
    c == '\U{00A0}' || c == '\U{1680}' || ('\U{2000}' <= c <= '\U{200A}') ||
    c == '\U{2028}' || c == '\U{2029}' || c == '\U{202F}' || c == '\U{205F}' ||
    c == '\U{3000}' || c == '\U{FEFF}'
  }

  /** `s` without its leading white space. */
  function TrimStart(s: string): (r: string)
    ensures |r| <= |s| && r == s[|s| - |r|..]
    ensures |r| > 0 ==> !IsJsSpace(r[0])
    decreases |s|
  {
    if |s| > 0 && IsJsSpace(s[0]) then TrimStart(s[1..]) else s
  }

  predicate IsHexLetter(c: char)
  {
    'a' <= c <= 'f' || 'A' <= c <= 'F'
  }

  /** A digit of radix 16 when `hex`, of radix 10 otherwise. */
  predicate IsRadixDigit(c: char, hex: bool)
  {
    IsDigit(c) || (hex && IsHexLetter(c))
  }

  function RadixDigitValue(c: char, hex: bool): (r: nat)
    requires IsRadixDigit(c, hex)
    ensures r < (if hex then 16 else 10)
  {
    if IsDigit(c) then DigitValue(c)
    else if 'a' <= c <= 'f' then (c as int - 'a' as int + 10) as nat
    else (c as int - 'A' as int + 10) as nat
  }

  /** The longest prefix of `s` made of digits of the radix. */
  function DigitPrefix(s: string, hex: bool): (r: string)
    ensures |r| <= |s| && r == s[..|r|]
    ensures forall i :: 0 <= i < |r| ==> IsRadixDigit(r[i], hex)
    ensures |r| < |s| ==> !IsRadixDigit(s[|r|], hex)
    decreases |s|
  {
    if |s| > 0 && IsRadixDigit(s[0], hex) then [s[0]] + DigitPrefix(s[1..], hex) else ""
  }

  /** The value of a string of digits of the radix, most significant first. */
  function RadixValue(z: string, hex: bool): nat
    requires forall i :: 0 <= i < |z| ==> IsRadixDigit(z[i], hex)
    decreases |z|
  {
    if |z| == 0 then 0
    else (if hex then 16 else 10) * RadixValue(z[..|z| - 1], hex) + RadixDigitValue(z[|z| - 1], hex)
  }

  /** The value of the longest digit run at the start of `v`; none at all is NaN. */
  function DigitsOf(v: string, hex: bool): Option<nat>
  {
    var z := DigitPrefix(v, hex);
    if |z| == 0 then None else Some(RadixValue(z, hex))
  }

  /** Whether the text after the sign starts with `0x` or `0X`. */
  predicate HexPrefixed(u: string)
  {
    |u| >= 2 && u[0] == '0' && (u[1] == 'x' || u[1] == 'X')
  }

  /** The number after the sign: radix 16 after a `0x` prefix, radix 10 otherwise. */
  function ParseUnsigned(u: string): Option<nat>
  {
    if HexPrefixed(u) then DigitsOf(u[2..], true) else DigitsOf(u, false)
  }

  /**
   * `parseInt(s)`: leading white space skipped, one optional sign, then a
   * `0x`/`0X` prefix switches to radix 16; the longest run of digits that
   * follows is the value and the rest of the text is ignored. No digit at all
   * is NaN, here `None`.
   */
  function ParseInt(s: string): (r: Option<int>)
  {
    var t := TrimStart(s);
    if |t| > 0 && t[0] == '-' then
      match ParseUnsigned(t[1..])
      case None => None
      case Some(n) => Some(0 - n)
    else if |t| > 0 && t[0] == '+' then
      match ParseUnsigned(t[1..])
      case None => None
      case Some(n) => Some(n)
    else
      match ParseUnsigned(t)
      case None => None
      case Some(n) => Some(n)
  }

  /** `parseInt(value) || 0`: NaN, and a negative zero, become 0. */
  function PortInput(value: string): (r: int)
    ensures ParseInt(value).None? ==> r == 0
    ensures ParseInt(value).Some? ==> r == ParseInt(value).value
  {
    match ParseInt(value)
    case None => 0
    case Some(n) => n
  }

  lemma {:induction false} DecimalValue(z: string)
    requires AllDigits(z)
    ensures RadixValue(z, false) == DigitsValue(z)
    decreases |z|
  {
    if |z| > 0 {
      DecimalValue(z[..|z| - 1]);
    }
  }

  lemma {:induction false} AllDigitsPrefix(s: string)
    requires AllDigits(s)
    ensures DigitPrefix(s, false) == s
    decreases |s|
  {
    if |s| > 0 {
      AllDigitsPrefix(s[1..]);
    }
  }

  /** The longest digit run stops where the digits stop, whatever follows. */
  lemma {:induction false} DigitPrefixStops(z: string, rest: string)
    requires AllDigits(z)
    requires |rest| == 0 || !IsDigit(rest[0])
    ensures DigitPrefix(z + rest, false) == z
    decreases |z|
  {
    if |z| > 0 {
      assert (z + rest)[1..] == z[1..] + rest;
      DigitPrefixStops(z[1..], rest);
    } else {
      assert z + rest == rest;
    }
  }

  /** A digit is no white space, so the text is left as it is. */
  lemma TrimDigit(s: string)
    requires |s| > 0 && (IsDigit(s[0]) || s[0] == '-')
    ensures TrimStart(s) == s
  {
    var c := s[0];
    assert '0' <= c <= '9' || c == '-';
    assert !IsJsSpace(c);
  }

  /** Text starting with a decimal digit, and not with "0x", is read in radix 10 from its first character. */
  lemma ParseIntDecimal(s: string)
    requires |s| > 0 && IsDigit(s[0]) && !HexPrefixed(s)
    ensures ParseInt(s) == DigitsOf(s, false)
  {
    TrimDigit(s);
  }

  /** Text starting with `-`, and not "-0x", is the negated radix-10 reading of the rest. */
  lemma ParseIntNegative(s: string, d: nat)
    requires |s| > 1 && s[0] == '-' && !HexPrefixed(s[1..])
    requires DigitsOf(s[1..], false) == Some(d)
    ensures ParseInt(s) == Some(0 - d)
  {
    TrimDigit(s);
  }

  /** Some digits, then text that is no digit, are read as those digits. */
  lemma DigitsOfDecimal(z: string, rest: string)
    requires |z| >= 1 && AllDigits(z)
    requires |rest| == 0 || !IsDigit(rest[0])
    ensures DigitsOf(z + rest, false) == Some(DigitsValue(z))
  {
    DigitPrefixStops(z, rest);
    DecimalValue(z);
  }

  /** Digits followed by text that is no digit and no `x` are read as those digits. */
  lemma PortInputOfDigits(z: string, rest: string)
    requires |z| >= 1 && AllDigits(z)
    requires |rest| == 0 || (!IsDigit(rest[0]) && rest[0] != 'x' && rest[0] != 'X')
    ensures PortInput(z + rest) == DigitsValue(z)
  {
    var s := z + rest;
    assert s[0] == z[0];
    if |s| >= 2 {
      assert s[1] == (if |z| >= 2 then z[1] else rest[0]);
    }
    ParseIntDecimal(s);
    DigitsOfDecimal(z, rest);
  }

  /** A decimal number typed into the port field, followed by non-digits or nothing, is read as that number. */
  lemma PortInputOfDecimal(n: nat, rest: string)
    requires |rest| == 0 || (!IsDigit(rest[0]) && rest[0] != 'x' && rest[0] != 'X')
    ensures PortInput(NatToString(n) + rest) == n
  {
    PortInputOfDigits(NatToString(n), rest);
    NatToStringValue(n);
  }

  /** The printed form of any integer reads back as that integer, a negative one included. */
  lemma PortInputOfPrinted(n: int)
    ensures PortInput(IntToString(n)) == n
  {
    if n >= 0 {
      PortInputOfDecimal(n, "");
      assert NatToString(n) + "" == NatToString(n);
    } else {
      var m: nat := -n;
      var z := NatToString(m);
      var s := "-" + z;
      assert IntToString(n) == s;
      assert s[1..] == z;
      if |z| >= 2 {
        assert IsDigit(z[1]);
      }
      DigitsOfDecimal(z, "");
      assert z + "" == z;
      NatToStringValue(m);
      ParseIntNegative(s, m);
    }
  }

  /** Text without a single decimal digit, letters and signs included, becomes port 0. */
  lemma NoDigitIsZero(value: string)
    requires forall i :: 0 <= i < |value| ==> !IsDigit(value[i])
    ensures PortInput(value) == 0
  {
    var t := TrimStart(value);
    var u := if |t| > 0 && (t[0] == '-' || t[0] == '+') then t[1..] else t;
    assert u == value[|value| - |u|..];
    if |u| > 0 {
      assert u[0] == value[|value| - |u|];
    }
    assert !HexPrefixed(u);
    assert DigitPrefix(u, false) == "";
  }

  /** The hexadecimal digits "10" are sixteen. */
  lemma HexTen()
    ensures DigitsOf("10", true) == Some(16)
  {
    var one := "1";
    var zero := "0";
    assert zero[1..] == "";
    assert DigitPrefix(zero, true) == zero;
    assert "10"[1..] == zero;
    assert DigitPrefix("10", true) == "10";
    assert one[..0] == "";
    assert RadixValue(one, true) == 1;
    assert "10"[..1] == one;
  }

  /** Without a radix, "0x10" is read in hexadecimal. */
  lemma HexPort()
    ensures PortInput("0x10") == 16
  {
    var s := "0x10";
    assert !IsJsSpace(s[0]);
    assert TrimStart(s) == s;
    assert HexPrefixed(s) && s[2..] == "10";
    HexTen();
    assert ParseUnsigned(s) == Some(16);
  }

  // ---------------------------------------------------------------------------
  // Form values and their validation
  // ---------------------------------------------------------------------------

  /** The inputs of the form, each named as its `name` attribute. */
  datatype FieldName = NameField | HostField | PortField | UsernameField | PasswordField

  /** The `name` attribute of the input, which is also its key in the error record. */
  function FieldKey(f: FieldName): string
  {
    match f
    case NameField => "name"
    case HostField => "host"
    case PortField => "port"
    case UsernameField => "username"
    case PasswordField => "password"
  }

  datatype FormData = FormData(name: string, host: string, port: int, username: string, password: string)

  /** What a new server's form opens with. */
  const Defaults := FormData("", "localhost", 5432, "postgres", "")

  /** The value of one field, as `formData[name]` reads it. */
  function FieldValue(d: FormData, f: FieldName): Value
  {
    match f
    case NameField => VStr(d.name)
    case HostField => VStr(d.host)
    case PortField => VNum(d.port)
    case UsernameField => VStr(d.username)
    case PasswordField => VStr(d.password)
  }

  /** `{ ...prev, [name]: newValue }` of `handleChange`: the port parsed, every other field as typed. */
  function WithField(d: FormData, f: FieldName, value: string): (r: FormData)
    ensures FieldValue(r, f) == if f == PortField then VNum(PortInput(value)) else VStr(value)
    ensures forall g :: g != f ==> FieldValue(r, g) == FieldValue(d, g)
  {
    match f
    case NameField => d.(name := value)
    case HostField => d.(host := value)
    case PortField => d.(port := PortInput(value))
    case UsernameField => d.(username := value)
    case PasswordField => d.(password := value)
  }

  const NameRequired := "Name is required"
  const HostRequired := "Host is required"
  const PortRequired := "Port is required"
  const PortRange := "Port must be between 1 and 65535"
  const UsernameRequired := "Username is required"

  /** What a valid form is, field by field; the password is never looked at. */
  predicate FormOk(d: FormData)
  {
    d.name != "" && d.host != "" && 1 <= d.port <= 65535 && d.username != ""
  }

  /** `newErrors` of `validateForm`: one message per failed check. */
  function ValidationErrors(d: FormData): (r: map<string, string>)
    ensures r.Keys <= {"name", "host", "port", "username"}
    ensures forall k :: k in r ==> r[k] != ""
  {
    var e0: map<string, string> := map[];
    var e1 := if d.name == "" then e0["name" := NameRequired] else e0;
    var e2 := if d.host == "" then e1["host" := HostRequired] else e1;
    var e3 := if d.port == 0 then e2["port" := PortRequired]
              else if d.port < 1 || d.port > 65535 then e2["port" := PortRange]
              else e2;
    if d.username == "" then e3["username" := UsernameRequired] else e3
  }

  /** The record of errors is empty exactly when the form is valid. */
  lemma ValidIffNoErrors(d: FormData)
    ensures ValidationErrors(d) == map[] <==> FormOk(d)
  {
    var r := ValidationErrors(d);
    if !FormOk(d) {
      assert "name" in r || "host" in r || "port" in r || "username" in r;
    }
  }

  /** Each text field is reported exactly when it is empty; the password never is. */
  lemma FieldErrors(d: FormData)
    ensures "name" in ValidationErrors(d) <==> d.name == ""
    ensures "host" in ValidationErrors(d) <==> d.host == ""
    ensures "username" in ValidationErrors(d) <==> d.username == ""
    ensures "port" in ValidationErrors(d) <==> !(1 <= d.port <= 65535)
    ensures "password" !in ValidationErrors(d)
  {
  }

  /** Port 0 is "required", any other port out of range gets the range message, and the two never meet. */
  lemma PortMessages(d: FormData)
    ensures d.port == 0 ==> ValidationErrors(d)["port"] == PortRequired
    ensures d.port != 0 && !(1 <= d.port <= 65535) ==> ValidationErrors(d)["port"] == PortRange
    ensures PortRequired != PortRange
  {
  }

  /** Non-numeric text in the port field leaves the form invalid with "Port is required". */
  lemma NonNumericPortRequired(d: FormData, value: string)
    requires forall i :: 0 <= i < |value| ==> !IsDigit(value[i])
    ensures !FormOk(WithField(d, PortField, value))
    ensures "port" in ValidationErrors(WithField(d, PortField, value)) &&
            ValidationErrors(WithField(d, PortField, value))["port"] == PortRequired
  {
    NoDigitIsZero(value);
    assert WithField(d, PortField, value).port == 0;
  }

  /** `if (errors[name]) setErrors({ ...prev, [name]: "" })`: only that field's error is blanked, and only if it had one. */
  function ClearError(errors: map<string, string>, k: string): (r: map<string, string>)
    ensures r.Keys == errors.Keys
    ensures forall j :: j in errors && j != k ==> r[j] == errors[j]
    ensures k in errors ==> r[k] == ""
  {
    if k in errors && errors[k] != "" then errors[k := ""] else errors
  }

  /** The dialog's state. */
  class Form {
    var formData: FormData
    var errors: map<string, string>
    var isSubmitting: bool

    constructor ()
      ensures formData == Defaults && errors == map[] && !isSubmitting
    {
      formData := Defaults;
      errors := map[];
      isSubmitting := false;
    }

    /**
     * The effect on `[isOpen, server]`: opening on a server shows its fields,
     * opening without one resets to the defaults, closing keeps the values;
     * either way the errors are cleared.
     */
    method OpenChanged(isOpen: bool, server: Option<FormData>)
      modifies this
      ensures formData == if isOpen && server.Some? then server.value else if isOpen then Defaults else old(formData)
      ensures errors == map[]
      ensures isSubmitting == old(isSubmitting)
    {
      if isOpen && server.Some? {
        formData := server.value;
      } else if isOpen {
        formData := Defaults;
      }
      errors := map[];
    }

    /** `handleChange`: the typed value goes into its field, and that field's error, if any, is blanked. */
    method HandleChange(f: FieldName, value: string)
      modifies this
      ensures formData == WithField(old(formData), f, value)
      ensures errors == ClearError(old(errors), FieldKey(f))
      ensures isSubmitting == old(isSubmitting)
    {
      formData := WithField(formData, f, value);
      var k := FieldKey(f);
      if k in errors && errors[k] != "" {
        errors := errors[k := ""];
      }
    }

    /** `validateForm`: the errors are replaced by the failed checks; valid exactly when there is none. */
    method ValidateForm() returns (ok: bool)
      modifies this
      ensures errors == ValidationErrors(formData)
      ensures ok <==> FormOk(formData)
      ensures formData == old(formData) && isSubmitting == old(isSubmitting)
    {
      var d := formData;
      var newErrors: map<string, string> := map[];
      if d.name == "" {
        newErrors := newErrors["name" := NameRequired];
      }
      if d.host == "" {
        newErrors := newErrors["host" := HostRequired];
      }
      if d.port == 0 {
        newErrors := newErrors["port" := PortRequired];
      } else if d.port < 1 || d.port > 65535 {
        newErrors := newErrors["port" := PortRange];
      }
      if d.username == "" {
        newErrors := newErrors["username" := UsernameRequired];
      }
      assert newErrors == ValidationErrors(d);
      errors := newErrors;
      ValidIffNoErrors(d);
      ok := newErrors == map[];
    }

    /**
     * `handleSubmit`, with `onSubmit`'s settled outcome as a parameter: an
     * invalid form sends nothing; a valid one is sent as it stands, and the
     * dialog closes only when the send succeeds. The flag ends false.
     */
    method HandleSubmit(sent: Outcome<()>) returns (submitted: Option<FormData>, closed: bool)
      modifies this
      ensures errors == ValidationErrors(old(formData)) && formData == old(formData)
      ensures submitted == if FormOk(formData) then Some(formData) else None
      ensures closed <==> submitted.Some? && sent.Ok?
      ensures isSubmitting == if FormOk(formData) then false else old(isSubmitting)
    {
      var ok := ValidateForm();
      if !ok {
        return None, false;
      }
      isSubmitting := true;
      submitted := Some(formData);
      closed := sent.Ok?;
      isSubmitting := false;
    }
  }
}
