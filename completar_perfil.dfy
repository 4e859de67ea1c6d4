/**
 * The profile-completion form of
 * src/app/screens/completar-perfil/completar-perfil.component.ts: the
 * password-match validator, the phone field (digits stored, dashes shown),
 * the telefono validators, the display-name split, and the children list.
 */
module CompletarPerfil {
  import opened Wrappers
  import opened Text
  import opened Seqs

  // ---------------------------------------------------------------------------
  // Password match

  datatype ValidationError = PasswordsMismatch

  /** `passwordsMatchValidator`: no error exactly when the two values are identical. */
  function PasswordsMatchValidator(password: Option<string>, confirmPassword: Option<string>): (r: Option<ValidationError>)
    ensures r.None? <==> password == confirmPassword
    ensures r.Some? ==> r.value == PasswordsMismatch
  {
    if password == confirmPassword then None else Some(PasswordsMismatch)
  }

  /** The validator does not care which of the two fields was typed first. */
  lemma PasswordsMatchSymmetric(a: Option<string>, b: Option<string>)
    ensures PasswordsMatchValidator(a, b) == PasswordsMatchValidator(b, a)
  {
  }

  // ---------------------------------------------------------------------------
  // Phone number

  /** `s.substring(0, n)`. */
  function Take(s: string, n: nat): (r: string)
    ensures |r| == if |s| < n then |s| else n
    ensures r == s[..|r|]
  {
    if |s| <= n then s else s[..n]
  }

  /** What the telefono control stores: the first ten digits of the input, non-digits dropped. */
  function StoredDigits(input: string): (r: string)
    ensures AllDigits(r) && |r| <= 10
    ensures r == Take(DigitsOf(input), 10)
  {
    Take(DigitsOf(input), 10)
  }

  /** What the input shows for stored digits: `ddd`, `ddd-rest` or `ddd-ddd-rest`. */
  function Displayed(d: string): (r: string)
    ensures |d| <= 3 ==> r == d
    ensures 3 < |d| <= 6 ==> |r| == |d| + 1 && r[3] == '-' && r[..3] == d[..3] && r[4..] == d[3..]
    ensures 6 < |d| ==> |r| == |d| + 2 && r[3] == '-' && r[7] == '-'
                        && r[..3] == d[..3] && r[4..7] == d[3..6] && r[8..] == d[6..]
  {
    if |d| > 6 then d[..3] + "-" + d[3..6] + "-" + d[6..]
    else if |d| > 3 then d[..3] + "-" + d[3..]
    else d
  }

  /** The string with every dash removed. */
  function RemoveDashes(s: string): (r: string)
    ensures |r| <= |s|
  {
    if s == [] then []
    else if s[0] == '-' then RemoveDashes(s[1..])
    else [s[0]] + RemoveDashes(s[1..])
  }

  lemma {:induction false} RemoveDashesConcat(a: string, b: string)
    ensures RemoveDashes(a + b) == RemoveDashes(a) + RemoveDashes(b)
  {
    if a == [] {
      assert a + b == b;
    } else {
      assert (a + b)[1..] == a[1..] + b;
      RemoveDashesConcat(a[1..], b);
    }
  }

  lemma {:induction false} RemoveDashesOfDigits(s: string)
    requires AllDigits(s)
    ensures RemoveDashes(s) == s
  {
    if s != [] {
      RemoveDashesOfDigits(s[1..]);
    }
  }

  lemma DashJoinRemoved(a: string, b: string)
    ensures RemoveDashes(a + "-" + b) == RemoveDashes(a) + RemoveDashes(b)
  {
    assert RemoveDashes("-") == "";
    RemoveDashesConcat(a + "-", b);
    RemoveDashesConcat(a, "-");
  }

  lemma DashJoinDigits(a: string, b: string)
    ensures DigitsOf(a + "-" + b) == DigitsOf(a) + DigitsOf(b)
  {
    assert DigitsOf("-") == "";
    DigitsOfConcat(a + "-", b);
    DigitsOfConcat(a, "-");
  }

  /** Removing the dashes from what is shown gives back the stored digits. */
  lemma DisplayedRoundTrip(d: string)
    requires AllDigits(d)
    ensures RemoveDashes(Displayed(d)) == d
  {
    if |d| > 6 {
      var a, b, c := d[..3], d[3..6], d[6..];
      assert Displayed(d) == (a + "-" + b) + "-" + c;
      DashJoinRemoved(a + "-" + b, c);
      DashJoinRemoved(a, b);
      RemoveDashesOfDigits(a);
      RemoveDashesOfDigits(b);
      RemoveDashesOfDigits(c);
      assert a + b + c == d;
    } else if |d| > 3 {
      var a, b := d[..3], d[3..];
      assert Displayed(d) == a + "-" + b;
      DashJoinRemoved(a, b);
      RemoveDashesOfDigits(a);
      RemoveDashesOfDigits(b);
      assert a + b == d;
    } else {
      RemoveDashesOfDigits(d);
    }
  }

  /** The digits of what is shown are the stored digits. */
  lemma DigitsOfDisplayed(d: string)
    requires AllDigits(d)
    ensures DigitsOf(Displayed(d)) == d
  {
    if |d| > 6 {
      var a, b, c := d[..3], d[3..6], d[6..];
      assert Displayed(d) == (a + "-" + b) + "-" + c;
      DashJoinDigits(a + "-" + b, c);
      DashJoinDigits(a, b);
      DigitsOfDigits(a);
      DigitsOfDigits(b);
      DigitsOfDigits(c);
      assert a + b + c == d;
    } else if |d| > 3 {
      var a, b := d[..3], d[3..];
      assert Displayed(d) == a + "-" + b;
      DashJoinDigits(a, b);
      DigitsOfDigits(a);
      DigitsOfDigits(b);
      assert a + b == d;
    } else {
      DigitsOfDigits(d);
    }
  }

  /** Typing into the formatted field again stores the same digits: formatting is stable. */
  lemma ReformatIsStable(input: string)
    ensures StoredDigits(Displayed(StoredDigits(input))) == StoredDigits(input)
  {
    DigitsOfDisplayed(StoredDigits(input));
  }

  /**
   * The telefono control's validators: required, minLength 10 (which lets the
   * empty value through), maxLength 10 and the pattern `^[0-9]*$`.
   */
  predicate TelefonoValid(s: string) {
    && s != ""
    && (s == "" || |s| >= 10)
    && |s| <= 10
    && AllDigits(s)
  }

  /** The telefono control accepts exactly ten digits. */
  lemma TelefonoValidExactly(s: string)
    ensures TelefonoValid(s) <==> |s| == 10 && AllDigits(s)
  {
  }

  /** What the phone formatter stores is valid exactly when the input held at least ten digits. */
  lemma StoredPhoneValid(input: string)
    ensures TelefonoValid(StoredDigits(input)) <==> |DigitsOf(input)| >= 10
  {
  }

  // ---------------------------------------------------------------------------
  // Display name

  /** `parts.join(sep)`: the parts with sep between each two of them. */
  function Join(parts: seq<string>, sep: string): string {
    if parts == [] then ""
    else if |parts| == 1 then parts[0]
    else parts[0] + sep + Join(parts[1..], sep)
  }

  /**
   * `s.split(' ')`: the pieces between single spaces, empty ones included;
   * joining them with single spaces gives s back.
   */
  function Split(s: string): (r: seq<string>)
    ensures |r| >= 1
    ensures forall k :: 0 <= k < |r| ==> ' ' !in r[k]
    ensures Join(r, " ") == s
  {
    if s == [] then [""]
    else
      var rest := Split(s[1..]);
      if s[0] == ' ' then
        assert [s[0]] + s[1..] == s;
        [""] + rest
      else
        var r := [[s[0]] + rest[0]] + rest[1..];
        if |rest| == 1 then
          assert [s[0]] + s[1..] == s;
          r
        else
          calc {
            Join(r, " ");
            ([s[0]] + rest[0]) + " " + Join(rest[1..], " ");
            [s[0]] + (rest[0] + " " + Join(rest[1..], " "));
            [s[0]] + Join(rest, " ");
            s;
          }
          r
  }

  /**
   * `displayName.split(' ').filter(part => part)`: the words of the name, the
   * non-empty pieces of the split in their order.
   */
  function Words(s: string): (r: seq<string>)
    ensures forall k :: 0 <= k < |r| ==> r[k] != "" && ' ' !in r[k]
    ensures IsSubsequence(r, Split(s))
    ensures forall p :: p in Split(s) && p != "" ==> p in r
  {
    var parts := Split(s);
    FilterIsSubsequence(parts, (p: string) => p != "");
    forall p | p in parts && p != "" ensures p in Filter(parts, (p: string) => p != "") {
      var k :| 0 <= k < |parts| && parts[k] == p;
    }
    Filter(parts, (p: string) => p != "")
  }

  datatype NameParts = NameParts(nombre: string, apellidoP: string, apellidoM: string)

  /**
   * `parseDisplayName`: no name gives three empty strings; one to three words
   * fill nombre, apellidoP and apellidoM in order; four or more make the first
   * two the (compound) nombre and the next two the surnames.
   */
  function ParseDisplayName(displayName: Option<string>): (r: NameParts)
    ensures displayName.None? || displayName == Some("") ==> r == NameParts("", "", "")
    ensures displayName.Some? && displayName.value != "" ==>
      var w := Words(displayName.value);
      && (|w| == 0 ==> r == NameParts("", "", ""))
      && (1 <= |w| <= 3 ==>
            (r.nombre == w[0]
             && r.apellidoP == (if |w| >= 2 then w[1] else "")
             && r.apellidoM == (if |w| == 3 then w[2] else "")))
      && (|w| >= 4 ==> r == NameParts(w[0] + " " + w[1], w[2], w[3]))
  {
    match displayName
    case None => NameParts("", "", "")
    case Some(name) =>
      if name == "" then NameParts("", "", "")
      else
        var parts := Words(name);
        if |parts| == 1 then NameParts(parts[0], "", "")
        else if |parts| == 2 then NameParts(parts[0], parts[1], "")
        else if |parts| == 3 then NameParts(parts[0], parts[1], parts[2])
        else if |parts| >= 4 then NameParts(parts[0] + " " + parts[1], parts[2], parts[3])
        else NameParts("", "", "")
  }

  lemma {:induction false} SplitWord(w: string)
    requires ' ' !in w
    ensures Split(w) == [w]
  {
    if w != [] {
      SplitWord(w[1..]);
      assert [w[0]] + w[1..] == w;
    }
  }

  lemma {:induction false} SplitWordThenRest(w: string, rest: string)
    requires ' ' !in w
    ensures Split(w + " " + rest) == [w] + Split(rest)
  {
    if w == [] {
      assert w + " " + rest == [' '] + rest;
      assert ([' '] + rest)[1..] == rest;
    } else {
      assert (w + " " + rest)[1..] == w[1..] + " " + rest;
      SplitWordThenRest(w[1..], rest);
      assert [w[0]] + w[1..] == w;
    }
  }

  /** A name written as three words split by single spaces is read back as those three parts. */
  lemma ThreeWordNameRoundTrip(nombre: string, apellidoP: string, apellidoM: string)
    requires nombre != "" && apellidoP != "" && apellidoM != ""
    requires ' ' !in nombre && ' ' !in apellidoP && ' ' !in apellidoM
    ensures ParseDisplayName(Some(nombre + " " + apellidoP + " " + apellidoM)) == NameParts(nombre, apellidoP, apellidoM)
  {
    var name := nombre + " " + apellidoP + " " + apellidoM;
    assert name == nombre + " " + (apellidoP + " " + apellidoM);
    SplitWordThenRest(nombre, apellidoP + " " + apellidoM);
    SplitWordThenRest(apellidoP, apellidoM);
    SplitWord(apellidoM);
    assert Split(name) == [nombre, apellidoP, apellidoM];
    FilterAll([nombre, apellidoP, apellidoM], (p: string) => p != "");
  }

  // ---------------------------------------------------------------------------
  // The form's children list and phone field

  /** One child's sub-form; `nuevoHijo` starts it empty with sex 'H'. */
  datatype ChildForm = ChildForm(nombre: string, apellidoPaterno: string, apellidoMaterno: string,
                                 fechaNacimiento: string, sexo: string, alergias: string)

  const NuevoHijo := ChildForm("", "", "", "", "H", "")

  /** The index `FormArray.removeAt(i)` removes at: negative indices count from the end, clamped at 0. */
  function RemoveIndex(len: nat, i: int): (r: nat)
    ensures 0 <= i < len ==> r == i
    ensures i < 0 && 0 <= len + i ==> r == len + i
    ensures len + i < 0 ==> r == 0
    ensures i >= len ==> r == i
  {
    if i < 0 then (if i + len < 0 then 0 else i + len) else i
  }

  class CompletarPerfilForm {
    var hijos: seq<ChildForm>
    var telefono: string

    /** The form always holds at least one child. */
    ghost predicate Valid()
      reads this
    {
      |hijos| >= 1
    }

    constructor()
      ensures hijos == [NuevoHijo] && telefono == ""
      ensures Valid()
    {
      hijos := [NuevoHijo];
      telefono := "";
    }

    /** `agregarHijo`: one empty child appended. */
    method AgregarHijo()
      requires Valid()
      modifies this`hijos
      ensures Valid()
      ensures hijos == old(hijos) + [NuevoHijo]
    {
      hijos := hijos + [NuevoHijo];
    }

    /** `eliminarHijo`: the last remaining child is never removed; otherwise one is, as `removeAt` picks it. */
    method EliminarHijo(i: int)
      requires Valid()
      modifies this`hijos
      ensures Valid()
      ensures |old(hijos)| == 1 ==> hijos == old(hijos)
      ensures |old(hijos)| > 1 && RemoveIndex(|old(hijos)|, i) < |old(hijos)| ==>
        var k := RemoveIndex(|old(hijos)|, i);
        hijos == old(hijos)[..k] + old(hijos)[k + 1..]
      ensures |old(hijos)| > 1 && RemoveIndex(|old(hijos)|, i) >= |old(hijos)| ==> hijos == old(hijos)
      ensures |old(hijos)| - 1 <= |hijos| <= |old(hijos)|
    {
      if |hijos| > 1 {
        var k := RemoveIndex(|hijos|, i);
        if k < |hijos| {
          hijos := hijos[..k] + hijos[k + 1..];
        }
      }
    }

    /**
     * `formatPhoneNumber`: the control stores the first ten digits typed, and
     * the input is given back the dashed form of them.
     */
    method FormatPhoneNumber(inputValue: string) returns (shown: string)
      modifies this`telefono
      ensures telefono == StoredDigits(inputValue)
      ensures shown == Displayed(telefono)
      ensures RemoveDashes(shown) == telefono
    {
      var digitsOnly := StoredDigits(inputValue);
      telefono := digitsOnly;
      shown := digitsOnly;
      if |digitsOnly| > 6 {
        shown := digitsOnly[..3] + "-" + digitsOnly[3..6] + "-" + digitsOnly[6..];
      } else if |digitsOnly| > 3 {
        shown := digitsOnly[..3] + "-" + digitsOnly[3..];
      }
      DisplayedRoundTrip(digitsOnly);
    }
  }
}
