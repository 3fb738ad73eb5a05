/** The sign-up form (app/register/page.tsx): field handlers, the
    notification-channel checkboxes, the password confirmation check and the
    choice of error message after a failed registration. */
module RegisterPage {
  import opened Types

  datatype Channel = EMAIL | PUSH

  datatype RegisterForm = RegisterForm(
    username: string,
    email: string,
    password: string,
    juegoPreferido: string,
    regionPreferida: string,
    rangoMinPreferido: string,
    rangoMaxPreferido: string,
    canalesPreferidos: seq<Channel>)

  const InitialForm: RegisterForm :=
    RegisterForm("", "", "", "Valorant", "LATAM", "Oro", "Diamante", [EMAIL])

  /** The text-valued fields the inputs and selects name. */
  datatype TextField =
    Username | Email | Password | JuegoPreferido | RegionPreferida | RangoMinPreferido | RangoMaxPreferido

  function FieldValue(f: RegisterForm, name: TextField): (r: string) {
    match name
    case Username => f.username
    case Email => f.email
    case Password => f.password
    case JuegoPreferido => f.juegoPreferido
    case RegionPreferida => f.regionPreferida
    case RangoMinPreferido => f.rangoMinPreferido
    case RangoMaxPreferido => f.rangoMaxPreferido
  }

  /** `{ ...prev, [name]: value }`, shared by `handleChange` and
      `handleSelectChange`: the named field takes the value, nothing else changes. */
  function SetField(f: RegisterForm, name: TextField, value: string): (r: RegisterForm)
    ensures FieldValue(r, name) == value
    ensures forall other: TextField :: other != name ==> FieldValue(r, other) == FieldValue(f, other)
    ensures r.canalesPreferidos == f.canalesPreferidos
  {
    match name
    case Username => f.(username := value)
    case Email => f.(email := value)
    case Password => f.(password := value)
    case JuegoPreferido => f.(juegoPreferido := value)
    case RegionPreferida => f.(regionPreferida := value)
    case RangoMinPreferido => f.(rangoMinPreferido := value)
    case RangoMaxPreferido => f.(rangoMaxPreferido := value)
  }

  // ---------- the channel list ----------

  predicate NoDuplicates(s: seq<Channel>) {
    forall i, j :: 0 <= i < j < |s| ==> s[i] != s[j]
  }

  /** `[...new Set(s)]`: each element of `s` exactly once. */
  function Dedup(s: seq<Channel>): (r: seq<Channel>)
    ensures NoDuplicates(r)
    ensures forall x :: x in r <==> x in s
    ensures |r| <= |s|
  {
    if s == [] then []
    else
      var d := Dedup(s[..|s| - 1]);
      if s[|s| - 1] in d then d else d + [s[|s| - 1]]
  }

  /** `s.filter(x => x !== c)`. */
  function Without(s: seq<Channel>, c: Channel): (r: seq<Channel>)
    ensures forall x :: x in r <==> x in s && x != c
    ensures |r| <= |s|
  {
    if s == [] then []
    else if s[0] == c then Without(s[1..], c)
    else [s[0]] + Without(s[1..], c)
  }

  /** `handleChannelChange(channel, checked)`: checking yields a list without
      duplicates that holds the channel and what was there; unchecking removes
      the channel and keeps every other one. Only the channel list changes. */
  function ToggleChannel(f: RegisterForm, channel: Channel, checked: bool): (r: RegisterForm)
    ensures r == f.(canalesPreferidos := r.canalesPreferidos)
    ensures checked ==> NoDuplicates(r.canalesPreferidos) && channel in r.canalesPreferidos
    ensures checked ==> forall x :: x in r.canalesPreferidos <==> x in f.canalesPreferidos || x == channel
    ensures !checked ==> channel !in r.canalesPreferidos
    ensures !checked ==> forall x :: x != channel ==> (x in r.canalesPreferidos <==> x in f.canalesPreferidos)
  {
    if checked then f.(canalesPreferidos := Dedup(f.canalesPreferidos + [channel]))
    else f.(canalesPreferidos := Without(f.canalesPreferidos, channel))
  }

  lemma {:induction false} DedupOfDistinct(s: seq<Channel>)
    requires NoDuplicates(s)
    ensures Dedup(s) == s
  {
    if s != [] {
      var init := s[..|s| - 1];
      assert NoDuplicates(init);
      DedupOfDistinct(init);
      assert s[|s| - 1] !in init;
      assert init + [s[|s| - 1]] == s;
    }
  }

  /** Checking a channel on a list without duplicates appends it when it is
      missing and changes nothing when it is there. */
  lemma CheckAppendsIfMissing(s: seq<Channel>, c: Channel)
    requires NoDuplicates(s)
    ensures Dedup(s + [c]) == if c in s then s else s + [c]
  {
    DedupOfDistinct(s);
    assert (s + [c])[..|s + [c]| - 1] == s;
  }

  lemma {:induction false} WithoutAbsent(s: seq<Channel>, c: Channel)
    requires c !in s
    ensures Without(s, c) == s
  {
    if s != [] {
      WithoutAbsent(s[1..], c);
      assert [s[0]] + s[1..] == s;
    }
  }

  /** Unchecking keeps the remaining channels in their original order: the
      filter works piecewise over any split of the list. */
  lemma {:induction false} WithoutConcat(a: seq<Channel>, b: seq<Channel>, c: Channel)
    ensures Without(a + b, c) == Without(a, c) + Without(b, c)
  {
    if a == [] {
      assert a + b == b;
    } else {
      assert (a + b)[0] == a[0];
      assert (a + b)[1..] == a[1..] + b;
      WithoutConcat(a[1..], b, c);
    }
  }

  /** Checking or unchecking the same channel twice is the same as once. */
  lemma ToggleIdempotent(f: RegisterForm, channel: Channel, checked: bool)
    ensures ToggleChannel(ToggleChannel(f, channel, checked), channel, checked) == ToggleChannel(f, channel, checked)
  {
    var once := ToggleChannel(f, channel, checked);
    if checked {
      CheckAppendsIfMissing(once.canalesPreferidos, channel);
    } else {
      WithoutAbsent(once.canalesPreferidos, channel);
    }
  }

  // ---------- submitting ----------

  const MismatchMessage: string := "Las contraseñas no coinciden."
  const GenericRegisterError: string := "Ocurrió un error al registrar la cuenta."

  /** The message shown after a failed registration: the backend's `error`
      when the response carries one, the generic message otherwise. */
  function RegisterErrorMessage(body: Option<ErrorBody>): (m: string)
    ensures body.Some? && Truthy(body.value.error) ==> m == body.value.error.value
    ensures !(body.Some? && Truthy(body.value.error)) ==> m == GenericRegisterError
  {
    if body.Some? && Truthy(body.value.error) then body.value.error.value else GenericRegisterError
  }

  class RegisterPageState {
    var formData: RegisterForm
    var confirmPassword: string
    var error: Option<string>

    constructor ()
      ensures formData == InitialForm && confirmPassword == "" && error.None?
    {
      formData, confirmPassword, error := InitialForm, "", None;
    }

    /** `handleChange` and `handleSelectChange`. */
    method HandleFieldChange(name: TextField, value: string)
      modifies this`formData
      ensures formData == SetField(old(formData), name, value)
    {
      formData := SetField(formData, name, value);
    }

    method HandleConfirmChange(value: string)
      modifies this`confirmPassword
      ensures confirmPassword == value
    {
      confirmPassword := value;
    }

    method HandleChannelChange(channel: Channel, checked: bool)
      modifies this`formData
      ensures formData == ToggleChannel(old(formData), channel, checked)
    {
      formData := ToggleChannel(formData, channel, checked);
    }

    /** `handleSubmit`, up to the request: the error is cleared; when the two
        passwords differ the mismatch error is set and no request is made;
        otherwise the whole form is sent. */
    method Submit() returns (request: Option<RegisterForm>)
      modifies this`error
      ensures request.Some? <==> formData.password == confirmPassword
      ensures request.Some? ==> request.value == formData && error.None?
      ensures request.None? ==> error == Some(MismatchMessage)
    {
      error := None;
      if formData.password != confirmPassword {
        error := Some(MismatchMessage);
        return None;
      }
      request := Some(formData);
    }

    /** `handleSubmit`, after the response: success asks for the login page,
        failure shows the chosen message. */
    method FinishSubmit(response: Response<()>) returns (nav: Option<Nav>)
      modifies this`error
      ensures response.Ok? ==> nav == Some(NavLogin) && error == old(error)
      ensures response.Failed? ==> nav.None? && error == Some(RegisterErrorMessage(response.body))
    {
      match response {
        case Ok(_) => nav := Some(NavLogin);
        case Failed(body) =>
          error := Some(RegisterErrorMessage(body));
          nav := None;
      }
    }
  }
}
