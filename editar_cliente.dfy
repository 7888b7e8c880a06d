/**
 * The client-edit form's validation rules: seven required fields, and the
 * email pattern `^[A-Z0-9._%+-]+@[A-Z0-9.-]+\.[A-Z]{2,}$` with the
 * case-insensitive flag.
 */
module EditarCliente {
  import opened Wrappers
  import opened Text

  /** Characters of the local part, `[A-Z0-9._%+-]` ignoring case. */
  predicate IsLocalChar(c: char) {
    IsLetter(c) || IsDigit(c) || c == '.' || c == '_' || c == '%' || c == '+' || c == '-'
  }

  /** Characters of the domain, `[A-Z0-9.-]` ignoring case. */
  predicate IsDomainChar(c: char) {
    IsLetter(c) || IsDigit(c) || c == '.' || c == '-'
  }

  predicate AllChars(t: string, ok: char -> bool) {
    forall i :: 0 <= i < |t| ==> ok(t[i])
  }

  /**
   * The regular expression matches `s` with the `@` at index `a` and the
   * final `.` at index `b`: a non-empty local part, the `@`, a non-empty
   * domain, the `.`, and at least two letters up to the end.
   */
  predicate EmailSplit(s: string, a: int, b: int) {
    0 < a && a + 1 < b && b + 3 <= |s|
    && AllChars(s[..a], IsLocalChar)
    && s[a] == '@'
    && AllChars(s[a + 1..b], IsDomainChar)
    && s[b] == '.'
    && AllChars(s[b + 1..], IsLetter)
  }

  /** The anchored pattern matches the whole of `s`. */
  ghost predicate MatchesEmailPattern(s: string) {
    exists a, b | 0 <= a < |s| && 0 <= b < |s| :: EmailSplit(s, a, b)
  }

  /** The first index of `c` in `s`, or `|s|` when there is none. */
  function IndexOf(s: string, c: char): (k: nat)
    ensures k <= |s|
    ensures k < |s| ==> s[k] == c
    ensures forall j :: 0 <= j < k ==> s[j] != c
  {
    if s == [] then 0
    else if s[0] == c then 0
    else 1 + IndexOf(s[1..], c)
  }

  /** The last index of `c` in `s`, or -1 when there is none. */
  function LastIndexOf(s: string, c: char): (k: int)
    ensures -1 <= k < |s|
    ensures k >= 0 ==> s[k] == c
    ensures forall j :: k < j < |s| ==> s[j] != c
  {
    if s == [] then -1
    else if s[|s| - 1] == c then |s| - 1
    else LastIndexOf(s[..|s| - 1], c)
  }

  /**
   * A one-pass reading of the pattern: the first `@` ends a non-empty local
   * part, everything after it is domain characters, and the last `.` after
   * it has a non-empty domain before it and two or more letters after it.
   */
  predicate EmailValido(s: string) {
    var a := IndexOf(s, '@');
    0 < a < |s| && AllChars(s[..a], IsLocalChar) &&
    var rest := s[a + 1..];
    AllChars(rest, IsDomainChar) &&
    var b := LastIndexOf(rest, '.');
    1 <= b && b + 3 <= |rest| && AllChars(rest[b + 1..], IsLetter)
  }

  /** Where the pattern matches with `@` at `a` and the final `.` at `b`, which class each character is in. */
  lemma SplitClassifies(s: string, a: int, b: int, k: int)
    requires EmailSplit(s, a, b) && 0 <= k < |s|
    ensures k < a ==> IsLocalChar(s[k])
    ensures a < k < b ==> IsDomainChar(s[k])
    ensures b < k ==> IsLetter(s[k])
    ensures s[k] == '@' <==> k == a
    ensures s[k] == '.' && a < k ==> k <= b
  {
    if k < a {
      assert s[..a][k] == s[k];
    } else if a < k < b {
      assert s[a + 1..b][k - a - 1] == s[k];
    } else if b < k {
      assert s[b + 1..][k - b - 1] == s[k];
    }
  }

  /** Whatever the one-pass check accepts, the pattern matches. */
  lemma EmailValidoSound(s: string)
    requires EmailValido(s)
    ensures MatchesEmailPattern(s)
  {
    var a := IndexOf(s, '@');
    var rest := s[a + 1..];
    var b := a + 1 + LastIndexOf(rest, '.');
    assert s[a + 1..b] == rest[..b - a - 1];
    assert s[b + 1..] == rest[b - a..];
    assert EmailSplit(s, a, b);
  }

  /** Whatever the pattern matches, the one-pass check accepts. */
  lemma EmailValidoComplete(s: string)
    requires MatchesEmailPattern(s)
    ensures EmailValido(s)
  {
    var a, b :| 0 <= a < |s| && 0 <= b < |s| && EmailSplit(s, a, b);
    forall k | 0 <= k < |s|
      ensures (s[k] == '@' <==> k == a) && (a < k ==> IsDomainChar(s[k]))
      ensures s[k] == '.' && a < k ==> k <= b
    {
      SplitClassifies(s, a, b, k);
    }
    assert IndexOf(s, '@') == a;
    var rest := s[a + 1..];
    assert AllChars(rest, IsDomainChar);
    var l := LastIndexOf(rest, '.');
    assert rest[b - a - 1] == s[b];
    assert l == b - a - 1;
    assert rest[l + 1..] == s[b + 1..];
  }

  /** The one-pass check accepts exactly the strings the pattern matches. */
  lemma EmailValidoIff(s: string)
    ensures EmailValido(s) <==> MatchesEmailPattern(s)
  {
    if EmailValido(s) {
      EmailValidoSound(s);
    }
    if MatchesEmailPattern(s) {
      EmailValidoComplete(s);
    }
  }

  /** Two strings that differ only in the case of their letters. */
  predicate SameUpToCase(s: string, t: string) {
    |s| == |t| && forall i :: 0 <= i < |s| ==> ToLower(s[i]) == ToLower(t[i])
  }

  /** Characters equal up to case belong to the same classes of the pattern. */
  lemma SameClasses(c: char, d: char)
    requires ToLower(c) == ToLower(d)
    ensures IsLocalChar(c) <==> IsLocalChar(d)
    ensures IsDomainChar(c) <==> IsDomainChar(d)
    ensures IsLetter(c) <==> IsLetter(d)
    ensures c == '@' <==> d == '@'
    ensures c == '.' <==> d == '.'
  {
  }

  lemma MatchesUpToCase(s: string, t: string)
    requires SameUpToCase(s, t)
    requires MatchesEmailPattern(s)
    ensures MatchesEmailPattern(t)
  {
    var a, b :| 0 <= a < |s| && 0 <= b < |s| && EmailSplit(s, a, b);
    forall k | 0 <= k < |s|
      ensures k < a ==> IsLocalChar(t[k])
      ensures a < k < b ==> IsDomainChar(t[k])
      ensures b < k ==> IsLetter(t[k])
      ensures t[a] == '@' && t[b] == '.'
    {
      SplitClassifies(s, a, b, k);
      SameClasses(s[k], t[k]);
      SameClasses(s[a], t[a]);
      SameClasses(s[b], t[b]);
    }
    assert EmailSplit(t, a, b);
  }

  /** Changing the case of letters never changes whether the email is valid. */
  lemma EmailCaseInsensitive(s: string, t: string)
    requires SameUpToCase(s, t)
    ensures MatchesEmailPattern(s) <==> MatchesEmailPattern(t)
  {
    if MatchesEmailPattern(s) {
      MatchesUpToCase(s, t);
    }
    if MatchesEmailPattern(t) {
      MatchesUpToCase(t, s);
    }
  }

  /** The pattern is anchored: one character outside every class (a space, say) rejects the email. */
  lemma ForeignCharRejected(s: string, k: int)
    requires 0 <= k < |s|
    requires !IsDomainChar(s[k]) && !IsLocalChar(s[k]) && s[k] != '@'
    ensures !MatchesEmailPattern(s)
  {
    forall a, b | 0 <= a < |s| && 0 <= b < |s| && EmailSplit(s, a, b)
      ensures false
    {
      SplitClassifies(s, a, b, k);
    }
  }

  /** A second `@` rejects the email. */
  lemma TwoAtSignsRejected(s: string, i: int, j: int)
    requires 0 <= i < j < |s| && s[i] == '@' && s[j] == '@'
    ensures !MatchesEmailPattern(s)
  {
    forall a, b | 0 <= a < |s| && 0 <= b < |s| && EmailSplit(s, a, b)
      ensures false
    {
      SplitClassifies(s, a, b, i);
      SplitClassifies(s, a, b, j);
    }
  }

  datatype ClienteForm = ClienteForm(
    nombre: string,
    nif: string,
    email: string,
    telefono: string,
    direccion: string,
    ciudad: string,
    codigoPostal: string)

  datatype Campo = Nombre | Nif | Email | Telefono | Direccion | Ciudad | CodigoPostal

  /** The registered fields, in form order. */
  const Campos := [Nombre, Nif, Email, Telefono, Direccion, Ciudad, CodigoPostal]

  function Valor(form: ClienteForm, c: Campo): string {
    match c
    case Nombre => form.nombre
    case Nif => form.nif
    case Email => form.email
    case Telefono => form.telefono
    case Direccion => form.direccion
    case Ciudad => form.ciudad
    case CodigoPostal => form.codigoPostal
  }

  const Requerido := "Este campo es requerido"
  const EmailInvalido := "Email inválido"

  /**
   * The message shown under a field: the required rule first, then, for the
   * email, the pattern.
   */
  function ErrorDe(form: ClienteForm, c: Campo): (e: Option<string>)
    ensures Valor(form, c) == "" ==> e == Some(Requerido)
    ensures c != Email ==> (e.None? <==> Valor(form, c) != "")
    ensures c == Email ==> (e.None? <==> Valor(form, c) != "" && MatchesEmailPattern(Valor(form, c)))
    ensures c == Email && Valor(form, c) != "" && !MatchesEmailPattern(Valor(form, c)) ==> e == Some(EmailInvalido)
  {
    var v := Valor(form, c);
    EmailValidoIff(v);
    if v == "" then Some(Requerido)
    else if c == Email && !EmailValido(v) then Some(EmailInvalido)
    else None
  }

  /** The form submits only when no field shows an error. */
  predicate FormularioValido(form: ClienteForm) {
    forall c | c in Campos :: ErrorDe(form, c).None?
  }

  /** A valid form has all seven fields non-empty and an email the pattern matches. */
  lemma FormularioValidoIff(form: ClienteForm)
    ensures FormularioValido(form) <==>
      form.nombre != "" && form.nif != "" && form.email != "" && form.telefono != ""
      && form.direccion != "" && form.ciudad != "" && form.codigoPostal != ""
      && MatchesEmailPattern(form.email)
  {
    assert ErrorDe(form, Nombre).None? <==> form.nombre != "";
    assert ErrorDe(form, Nif).None? <==> form.nif != "";
    assert ErrorDe(form, Email).None? <==> form.email != "" && MatchesEmailPattern(form.email);
    assert ErrorDe(form, Telefono).None? <==> form.telefono != "";
    assert ErrorDe(form, Direccion).None? <==> form.direccion != "";
    assert ErrorDe(form, Ciudad).None? <==> form.ciudad != "";
    assert ErrorDe(form, CodigoPostal).None? <==> form.codigoPostal != "";
  }

  /** The values the form is pre-filled with. */
  const Precargado := ClienteForm("Empresa ABC S.L.", "B12345678", "contacto@empresaabc.com",
                                  "912345678", "Calle Principal 123", "Madrid", "28001")

  /** The pre-filled form passes every rule. */
  lemma PrecargadoValido()
    ensures FormularioValido(Precargado)
  {
    var s := Precargado.email;
    assert s[8] == '@' && s[19] == '.';
    assert EmailSplit(s, 8, 19);
    FormularioValidoIff(Precargado);
  }
}
