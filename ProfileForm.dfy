/** The social worker's profile page (ProfileFormAssistenteSocial): field formatters
    and validators, and a form whose working copy `formData` is edited while the copy
    shown in the sidebar, `originalData`, changes only on load and after a save. */
module ProfileForm {
  import opened Wrappers
  import opened Text

  // ---------------------------------------------------------------------------
  // Form data

  datatype Endereco = Endereco(
    rua: string, numero: string, complemento: string, bairro: string,
    cidade: string, estado: string, cep: string)

  /** AssistenteSocialFormData, without the three dashboard figures (see README). */
  datatype FormData = FormData(
    idUsuario: int,
    nome: string,
    sobrenome: string,
    crp: string,
    especialidade: string,
    telefone: string,
    email: string,
    bio: string,
    dataNascimento: string,
    genero: string,
    fotoUrl: Option<string>,
    endereco: Endereco)

  const DefaultEndereco := Endereco("", "", "", "", "", "", "")
  const DefaultFormData := FormData(0, "", "", "", "", "", "", "", "", "", None, DefaultEndereco)

  /** The text fields of the form, one per input of the page. */
  datatype Field =
    | Nome | Sobrenome | Email | Telefone | DataNascimento | Genero
    | Crp | Especialidade | Bio
    | Rua | Numero | Complemento | Bairro | Cidade | Estado | Cep

  /** The input's `name` attribute. */
  function InputName(f: Field): string
  {
    match f
    case Nome => "nome"
    case Sobrenome => "sobrenome"
    case Email => "email"
    case Telefone => "telefone"
    case DataNascimento => "dataNascimento"
    case Genero => "genero"
    case Crp => "crp"
    case Especialidade => "especialidade"
    case Bio => "bio"
    case Rua => "endereco.rua"
    case Numero => "endereco.numero"
    case Complemento => "endereco.complemento"
    case Bairro => "endereco.bairro"
    case Cidade => "endereco.cidade"
    case Estado => "endereco.estado"
    case Cep => "endereco.cep"
  }

  predicate IsAddressField(f: Field)
  {
    f in {Rua, Numero, Complemento, Bairro, Cidade, Estado, Cep}
  }

  lemma DottedNamesAreAddressFields(f: Field)
    ensures '.' in InputName(f) <==> IsAddressField(f)
  {
    match f
    case Nome => assert InputName(f)[0] != '.' && InputName(f)[1] != '.';
    case Sobrenome =>
    case Email =>
    case Telefone =>
    case DataNascimento =>
    case Genero =>
    case Crp =>
    case Especialidade =>
    case Bio =>
    case Rua => assert InputName(f)[8] == '.';
    case Numero => assert InputName(f)[8] == '.';
    case Complemento => assert InputName(f)[8] == '.';
    case Bairro => assert InputName(f)[8] == '.';
    case Cidade => assert InputName(f)[8] == '.';
    case Estado => assert InputName(f)[8] == '.';
    case Cep => assert InputName(f)[8] == '.';
  }

  function Get(d: FormData, f: Field): string
  {
    match f
    case Nome => d.nome
    case Sobrenome => d.sobrenome
    case Email => d.email
    case Telefone => d.telefone
    case DataNascimento => d.dataNascimento
    case Genero => d.genero
    case Crp => d.crp
    case Especialidade => d.especialidade
    case Bio => d.bio
    case Rua => d.endereco.rua
    case Numero => d.endereco.numero
    case Complemento => d.endereco.complemento
    case Bairro => d.endereco.bairro
    case Cidade => d.endereco.cidade
    case Estado => d.endereco.estado
    case Cep => d.endereco.cep
  }

  /** `{ ...formData, [name]: value }`, or `{ ...formData, endereco: { ...formData.endereco, [child]: value } }`
      for a dotted name. */
  function Set(d: FormData, f: Field, v: string): FormData
  {
    match f
    case Nome => d.(nome := v)
    case Sobrenome => d.(sobrenome := v)
    case Email => d.(email := v)
    case Telefone => d.(telefone := v)
    case DataNascimento => d.(dataNascimento := v)
    case Genero => d.(genero := v)
    case Crp => d.(crp := v)
    case Especialidade => d.(especialidade := v)
    case Bio => d.(bio := v)
    case Rua => d.(endereco := d.endereco.(rua := v))
    case Numero => d.(endereco := d.endereco.(numero := v))
    case Complemento => d.(endereco := d.endereco.(complemento := v))
    case Bairro => d.(endereco := d.endereco.(bairro := v))
    case Cidade => d.(endereco := d.endereco.(cidade := v))
    case Estado => d.(endereco := d.endereco.(estado := v))
    case Cep => d.(endereco := d.endereco.(cep := v))
  }

  /** Setting a field changes that field and nothing else. */
  lemma SetChangesOnlyThatField(d: FormData, f: Field, v: string)
    ensures forall g :: Get(Set(d, f, v), g) == if g == f then v else Get(d, g)
    ensures Set(d, f, v).idUsuario == d.idUsuario && Set(d, f, v).fotoUrl == d.fotoUrl
    ensures !IsAddressField(f) ==> Set(d, f, v).endereco == d.endereco
  {
  }

  lemma FieldsDetermineForm(a: FormData, b: FormData)
    requires a.idUsuario == b.idUsuario && a.fotoUrl == b.fotoUrl
    requires forall g :: Get(a, g) == Get(b, g)
    ensures a == b
  {
    assert Get(a, Nome) == Get(b, Nome) && Get(a, Sobrenome) == Get(b, Sobrenome);
    assert Get(a, Email) == Get(b, Email) && Get(a, Telefone) == Get(b, Telefone);
    assert Get(a, DataNascimento) == Get(b, DataNascimento) && Get(a, Genero) == Get(b, Genero);
    assert Get(a, Crp) == Get(b, Crp) && Get(a, Especialidade) == Get(b, Especialidade);
    assert Get(a, Bio) == Get(b, Bio) && Get(a, Rua) == Get(b, Rua) && Get(a, Numero) == Get(b, Numero);
    assert Get(a, Complemento) == Get(b, Complemento) && Get(a, Bairro) == Get(b, Bairro);
    assert Get(a, Cidade) == Get(b, Cidade) && Get(a, Estado) == Get(b, Estado) && Get(a, Cep) == Get(b, Cep);
  }

  // ---------------------------------------------------------------------------
  // Formatters and shape checks

  /** `formatters.phone`: keep at most 11 digits and mask them progressively as
      `(DD`, `(DD) D…`, `(DD) DDDD-D…` or `(DD) DDDDD-DDDD`; no digit leaves the text as it is. */
  function Phone(value: string): (r: string)
    ensures Digits(value) == [] ==> r == value
    decreases |value|
  {
    var numbers := Digits(value);
    if |numbers| > 11 then Phone(numbers[..11])
    else if |numbers| >= 10 then
      if |numbers| == 11 then "(" + numbers[..2] + ") " + numbers[2..7] + "-" + numbers[7..]
      else "(" + numbers[..2] + ") " + numbers[2..6] + "-" + numbers[6..]
    else if |numbers| >= 6 then "(" + numbers[..2] + ") " + numbers[2..6] + "-" + numbers[6..]
    else if |numbers| >= 2 then "(" + numbers[..2] + ") " + numbers[2..]
    else if |numbers| > 0 then "(" + numbers
    else value
  }

  /** `isPhone`: `^\(\d{2}\) \d{4,5}-\d{4}$`. */
  predicate IsPhone(v: string): (r: bool)
    ensures r ==> |v| == 14 || |v| == 15
  {
    && |v| >= 5 && v[0] == '(' && IsDigit(v[1]) && IsDigit(v[2]) && v[3] == ')' && v[4] == ' '
    && var rest := v[5..];
       && (|rest| == 9 || |rest| == 10)
       && AllDigits(rest[..|rest| - 5]) && rest[|rest| - 5] == '-' && AllDigits(rest[|rest| - 4..])
  }

  /** The first (at most) eleven digits of a text. */
  function PhoneDigits(s: string): (d: string)
    ensures AllDigits(d) && |d| <= 11
  {
    Take11(Digits(s))
  }

  function Take11(d: string): (r: string)
    ensures |r| == if |d| <= 11 then |d| else 11
    ensures r <= d
  {
    if |d| <= 11 then d else d[..11]
  }

  lemma DigitsOfPunctuation()
    ensures Digits("(") == [] && Digits(") ") == [] && Digits("-") == []
  {
    assert !IsDigit('(') && !IsDigit(')') && !IsDigit(' ') && !IsDigit('-');
    assert ") "[1..] == " ";
  }

  lemma DigitsOfShortMask(d: string)
    requires AllDigits(d) && 2 <= |d|
    ensures Digits("(" + d[..2] + ") " + d[2..]) == d
  {
    DigitsOfPunctuation();
    DigitsAppend("(", d[..2]);
    DigitsAppend("(" + d[..2], ") ");
    DigitsAppend("(" + d[..2] + ") ", d[2..]);
    DigitsOfAllDigits(d[..2]);
    DigitsOfAllDigits(d[2..]);
    assert d == d[..2] + d[2..];
  }

  lemma DigitsOfPieces(x: string, y: string, z: string)
    requires AllDigits(x) && AllDigits(y) && AllDigits(z)
    ensures Digits("(" + x + ") " + y + "-" + z) == x + y + z
  {
    var p1 := "(" + x;
    assert Digits(p1) == x by { DigitsOfPunctuation(); DigitsAppend("(", x); DigitsOfAllDigits(x); }
    var p2 := p1 + ") ";
    assert Digits(p2) == x by { DigitsOfPunctuation(); DigitsAppend(p1, ") "); }
    var p3 := p2 + y;
    assert Digits(p3) == x + y by { DigitsAppend(p2, y); DigitsOfAllDigits(y); }
    var p4 := p3 + "-";
    assert Digits(p4) == x + y by { DigitsOfPunctuation(); DigitsAppend(p3, "-"); }
    assert Digits(p4 + z) == x + y + z by { DigitsAppend(p4, z); DigitsOfAllDigits(z); }
  }

  lemma DigitsOfLongMask(d: string, k: nat)
    requires AllDigits(d) && 2 <= k <= |d|
    ensures Digits("(" + d[..2] + ") " + d[2..k] + "-" + d[k..]) == d
  {
    DigitsOfPieces(d[..2], d[2..k], d[k..]);
    assert d == d[..2] + d[2..k] + d[k..];
  }

  /** The mask with the digits in hand: what `Phone` returns for at most 11 digits. */
  lemma {:induction false} PhoneShape(s: string)
    ensures var d := PhoneDigits(s);
            Phone(s) ==
              if |d| == 0 then s
              else if |d| == 1 then "(" + d
              else if |d| <= 5 then "(" + d[..2] + ") " + d[2..]
              else if |d| <= 10 then "(" + d[..2] + ") " + d[2..6] + "-" + d[6..]
              else "(" + d[..2] + ") " + d[2..7] + "-" + d[7..]
    decreases |s|
  {
    var numbers := Digits(s);
    if |numbers| > 11 {
      DigitsOfAllDigits(numbers[..11]);
      PhoneShape(numbers[..11]);
    }
  }

  /** The digits of the masked text are the first eleven digits of the input. */
  lemma PhoneKeepsDigits(s: string)
    ensures Digits(Phone(s)) == PhoneDigits(s)
  {
    var d := PhoneDigits(s);
    PhoneShape(s);
    if |d| == 0 {
    } else if |d| == 1 {
      DigitsOfPunctuation();
      DigitsAppend("(", d);
      DigitsOfAllDigits(d);
    } else if |d| <= 5 {
      DigitsOfShortMask(d);
    } else if |d| <= 10 {
      DigitsOfLongMask(d, 6);
    } else {
      DigitsOfLongMask(d, 7);
    }
  }

  lemma PhoneDigitsOfDigits(d: string)
    requires AllDigits(d) && |d| <= 11
    ensures PhoneDigits(d) == d
  {
    DigitsOfAllDigits(d);
  }

  lemma NoDigitsPhoneIsIdentity(s: string)
    requires Digits(s) == []
    ensures Phone(s) == s
  {
  }

  /** Masking twice is masking once. */
  lemma PhoneIdempotent(s: string)
    ensures Phone(Phone(s)) == Phone(s)
  {
    var d := PhoneDigits(s);
    PhoneKeepsDigits(s);
    PhoneDigitsOfDigits(d);
    PhoneShape(s);
    PhoneShape(Phone(s));
    assert PhoneDigits(Phone(s)) == d by {
      DigitsOfAllDigits(d);
    }
  }

  lemma NoDigitNoDigitChar(s: string)
    requires Digits(s) == []
    ensures forall i :: 0 <= i < |s| ==> !IsDigit(s[i])
    decreases |s|
  {
    if s != [] {
      NoDigitNoDigitChar(s[1..]);
      forall i | 0 <= i < |s| ensures !IsDigit(s[i]) {
        if i > 0 { assert s[i] == s[1..][i - 1]; }
      }
    }
  }

  lemma ShortMaskNotPhone(d: string)
    requires 2 <= |d| <= 5
    ensures !IsPhone("(" + d[..2] + ") " + d[2..])
  {
    var p := "(" + d[..2] + ") " + d[2..];
    assert |p| <= 8;
  }

  lemma MidMaskNotPhone(d: string)
    requires 6 <= |d| <= 9
    ensures !IsPhone("(" + d[..2] + ") " + d[2..6] + "-" + d[6..])
  {
    var p := "(" + d[..2] + ") " + d[2..6] + "-" + d[6..];
    assert |p[5..]| == |d| - 1;
  }

  lemma FullMaskIsPhone(d: string, k: nat)
    requires AllDigits(d) && ((|d| == 10 && k == 6) || (|d| == 11 && k == 7))
    ensures IsPhone("(" + d[..2] + ") " + d[2..k] + "-" + d[k..])
  {
    var p := "(" + d[..2] + ") " + d[2..k] + "-" + d[k..];
    assert p[0] == '(' && p[1] == d[0] && p[2] == d[1] && p[3] == ')' && p[4] == ' ';
    var rest := p[5..];
    assert rest == d[2..k] + "-" + d[k..];
    assert |rest| == |d| - 1;
    assert rest[..|rest| - 5] == d[2..k];
    assert rest[|rest| - 5] == '-';
    assert rest[|rest| - 4..] == d[k..];
    assert IsDigit(d[0]) && IsDigit(d[1]);
    DigitsSlice(d, 2, k);
    DigitsSlice(d, k, |d|);
  }

  lemma DigitsSlice(d: string, i: nat, j: nat)
    requires AllDigits(d) && i <= j <= |d|
    ensures AllDigits(d[i..j])
  {
    forall n | 0 <= n < j - i ensures IsDigit(d[i..j][n]) {
      assert d[i..j][n] == d[i + n];
    }
  }

  /** The mask yields a well-formed phone number exactly when the input has at least ten digits. */
  lemma PhoneShapeAccepted(s: string)
    ensures IsPhone(Phone(s)) <==> |Digits(s)| >= 10
  {
    var d := PhoneDigits(s);
    PhoneShape(s);
    if |d| == 0 {
      NoDigitNoDigitChar(s);
    } else if |d| == 1 {
    } else if |d| <= 5 {
      ShortMaskNotPhone(d);
    } else if |d| <= 9 {
      MidMaskNotPhone(d);
    } else if |d| == 10 {
      FullMaskIsPhone(d, 6);
    } else {
      FullMaskIsPhone(d, 7);
    }
  }

  /** A mobile number typed without punctuation, and one with a twelfth digit. */
  lemma PhoneExample(typed: string)
    requires typed == "11987654321"
    ensures Phone(typed) == "(11) 98765-4321"
  {
    assert AllDigits(typed);
    PhoneOfEleven(typed);
    assert typed[..2] == "11";
    assert typed[2..7] == "98765";
    assert typed[7..] == "4321";
  }

  /** Eleven digits typed without punctuation fill the mobile mask. */
  lemma PhoneOfEleven(d: string)
    requires AllDigits(d) && |d| == 11
    ensures Phone(d) == "(" + d[..2] + ") " + d[2..7] + "-" + d[7..]
  {
    PhoneDigitsOfDigits(d);
    PhoneShape(d);
  }

  /** Once eleven digits are in, whatever is typed after them leaves the mask as it is. */
  lemma PhoneIgnoresExtraDigits(typed: string, tail: string)
    requires |Digits(typed)| >= 11
    ensures Phone(typed + tail) == Phone(typed)
  {
    var d := Digits(typed);
    DigitsAppend(typed, tail);
    assert (d + Digits(tail))[..11] == d[..11];
    assert PhoneDigits(typed + tail) == PhoneDigits(typed) by {
      if |d| == 11 { assert d[..11] == d; }
    }
    PhoneShape(typed);
    PhoneShape(typed + tail);
  }

  /** `^[^\s@]+@[^\s@]+\.[^\s@]+$`. */
  predicate NoSpaceOrAt(s: string)
  {
    forall k :: 0 <= k < |s| ==> !IsSpace(s[k]) && s[k] != '@'
  }

  predicate IsEmail(e: string)
  {
    exists i, j :: 0 < i < |e| && i + 1 < j < |e| - 1 && e[i] == '@' && e[j] == '.'
                   && NoSpaceOrAt(e[..i]) && NoSpaceOrAt(e[i + 1..j]) && NoSpaceOrAt(e[j + 1..])
  }

  /** `^\d{5}-\d{3}$`. */
  predicate IsCep(c: string)
  {
    |c| == 9 && AllDigits(c[..5]) && c[5] == '-' && AllDigits(c[6..])
  }

  // ---------------------------------------------------------------------------
  // Validation

  const PhoneFormatMessage := "Telefone inválido - use o formato (XX) XXXXX-XXXX ou (XX) XXXX-XXXX"
  const CepFormatMessage := "Formato de CEP inválido. Ex: 12345-678"
  const NomeRequiredMessage := "Nome é obrigatório"
  const SobrenomeRequiredMessage := "Sobrenome é obrigatório"
  const CrpRequiredMessage := "CRP é obrigatório"
  const EspecialidadeRequiredMessage := "Especialidade é obrigatória"
  const EmailRequiredMessage := "Email é obrigatório"
  const EmailFormatMessage := "Email inválido"

  /** The error map `validateForm` builds; its keys are the inputs (whose names are `InputName`). */
  function FormErrors(d: FormData): (r: map<Field, string>)
    ensures r.Keys <= {Nome, Sobrenome, Email, Telefone, Crp, Especialidade, Cep}
  {
    ErrorMap(IsBlank(d.nome), IsBlank(d.sobrenome), IsBlank(d.email), !IsEmail(d.email),
             !IsBlank(d.telefone) && !IsPhone(d.telefone), IsBlank(d.crp), IsBlank(d.especialidade),
             d.endereco.cep != "" && !IsCep(d.endereco.cep))
  }

  /** The error map, given which of the checks fail, in the order `validateForm` runs them. */
  function ErrorMap(nome: bool, sobrenome: bool, emailBlank: bool, emailBad: bool, telefone: bool,
                    crp: bool, especialidade: bool, cep: bool): map<Field, string>
  {
    var e1 := if nome then map[Nome := NomeRequiredMessage] else map[];
    var e2 := if sobrenome then e1[Sobrenome := SobrenomeRequiredMessage] else e1;
    var e3 := if emailBlank then e2[Email := EmailRequiredMessage]
              else if emailBad then e2[Email := EmailFormatMessage]
              else e2;
    var e4 := if telefone then e3[Telefone := PhoneFormatMessage] else e3;
    var e5 := if crp then e4[Crp := CrpRequiredMessage] else e4;
    var e6 := if especialidade then e5[Especialidade := EspecialidadeRequiredMessage] else e5;
    if cep then e6[Cep := CepFormatMessage] else e6
  }

  lemma ErrorMapKeys(nome: bool, sobrenome: bool, emailBlank: bool, emailBad: bool, telefone: bool,
                     crp: bool, especialidade: bool, cep: bool)
    ensures var e := ErrorMap(nome, sobrenome, emailBlank, emailBad, telefone, crp, especialidade, cep);
            && (Nome in e <==> nome) && (Sobrenome in e <==> sobrenome)
            && (Email in e <==> emailBlank || emailBad)
            && (Telefone in e <==> telefone) && (Crp in e <==> crp)
            && (Especialidade in e <==> especialidade) && (Cep in e <==> cep)
            && e.Keys <= {Nome, Sobrenome, Email, Telefone, Crp, Especialidade, Cep}
  {
  }

  lemma ErrorMapEmail(nome: bool, sobrenome: bool, emailBlank: bool, emailBad: bool, telefone: bool,
                      crp: bool, especialidade: bool, cep: bool)
    requires emailBlank || emailBad
    ensures ErrorMap(nome, sobrenome, emailBlank, emailBad, telefone, crp, especialidade, cep)[Email]
            == if emailBlank then EmailRequiredMessage else EmailFormatMessage
  {
  }

  /** Which inputs the error map names and why. */
  lemma FormErrorsSpec(d: FormData)
    ensures var e := FormErrors(d);
            && (Nome in e <==> IsBlank(d.nome))
            && (Sobrenome in e <==> IsBlank(d.sobrenome))
            && (Email in e <==> IsBlank(d.email) || !IsEmail(d.email))
            && (Email in e ==> e[Email] == if IsBlank(d.email) then EmailRequiredMessage else EmailFormatMessage)
            && (Telefone in e <==> !IsBlank(d.telefone) && !IsPhone(d.telefone))
            && (Crp in e <==> IsBlank(d.crp))
            && (Especialidade in e <==> IsBlank(d.especialidade))
            && (Cep in e <==> d.endereco.cep != "" && !IsCep(d.endereco.cep))
            && e.Keys <= {Nome, Sobrenome, Email, Telefone, Crp, Especialidade, Cep}
  {
    var emailBad, telefone, cep := !IsEmail(d.email), !IsBlank(d.telefone) && !IsPhone(d.telefone),
                                   d.endereco.cep != "" && !IsCep(d.endereco.cep);
    ErrorMapKeys(IsBlank(d.nome), IsBlank(d.sobrenome), IsBlank(d.email), emailBad,
                 telefone, IsBlank(d.crp), IsBlank(d.especialidade), cep);
    if IsBlank(d.email) || emailBad {
      ErrorMapEmail(IsBlank(d.nome), IsBlank(d.sobrenome), IsBlank(d.email), emailBad,
                    telefone, IsBlank(d.crp), IsBlank(d.especialidade), cep);
    }
  }

  /** The form is valid exactly when the error map is empty. */
  lemma FormErrorsEmpty(d: FormData)
    ensures FormErrors(d) == map[] <==>
              && !IsBlank(d.nome) && !IsBlank(d.sobrenome) && !IsBlank(d.email) && IsEmail(d.email)
              && (IsBlank(d.telefone) || IsPhone(d.telefone))
              && !IsBlank(d.crp) && !IsBlank(d.especialidade)
              && (d.endereco.cep == "" || IsCep(d.endereco.cep))
  {
    FormErrorsSpec(d);
    var e := FormErrors(d);
    if e != map[] {
      var k :| k in e;
    }
  }

  // ---------------------------------------------------------------------------
  // Section saves: guard lists, payloads and merges

  /** The checks of `handleSavePersonalData`, in order: the toast title of the first that fails. */
  function PersonalProblem(d: FormData): (r: Option<string>)
    ensures r.None? ==> !IsBlank(d.telefone) && IsPhone(d.telefone)
  {
    if IsBlank(d.nome) then Some("Nome obrigatório")
    else if IsBlank(d.sobrenome) then Some("Sobrenome obrigatório")
    else if IsBlank(d.email) then Some("Email obrigatório")
    else if IsBlank(d.telefone) then Some("Telefone obrigatório")
    else if !IsPhone(d.telefone) then Some("Telefone inválido")
    else None
  }

  /** The personal save passes exactly when name, surname, e-mail and phone are filled
      in and the phone is well formed; each failure reports the first check that fails. */
  lemma PersonalProblemSpec(d: FormData)
    ensures PersonalProblem(d).None? <==>
              !IsBlank(d.nome) && !IsBlank(d.sobrenome) && !IsBlank(d.email)
              && !IsBlank(d.telefone) && IsPhone(d.telefone)
    ensures IsBlank(d.nome) ==> PersonalProblem(d) == Some("Nome obrigatório")
    ensures !IsBlank(d.nome) && IsBlank(d.sobrenome) ==> PersonalProblem(d) == Some("Sobrenome obrigatório")
    ensures !IsBlank(d.nome) && !IsBlank(d.sobrenome) && IsBlank(d.email) ==>
              PersonalProblem(d) == Some("Email obrigatório")
    ensures !IsBlank(d.nome) && !IsBlank(d.sobrenome) && !IsBlank(d.email) && IsBlank(d.telefone) ==>
              PersonalProblem(d) == Some("Telefone obrigatório")
    ensures PersonalProblem(d) == Some("Telefone inválido") <==>
              !IsBlank(d.nome) && !IsBlank(d.sobrenome) && !IsBlank(d.email) && !IsBlank(d.telefone)
              && !IsPhone(d.telefone)
  {
  }

  /** The phone the mask produced passes the personal save's format check exactly
      when at least ten digits were typed. */
  lemma MaskedPhoneCheck(d: FormData, typed: string)
    requires !IsBlank(d.nome) && !IsBlank(d.sobrenome) && !IsBlank(d.email) && Digits(typed) != []
    ensures PersonalProblem(d.(telefone := Phone(typed))).None? <==> |Digits(typed)| >= 10
  {
    PhoneShapeAccepted(typed);
    var p := Phone(typed);
    PhoneKeepsDigits(typed);
    assert |p| > 0 && p[0] == '(' by { PhoneShape(typed); }
    assert !IsSpace(p[0]);
  }

  /** The personal save does not check the e-mail's format. */
  lemma PersonalSaveIgnoresEmailFormat()
    ensures var d := DefaultFormData.(nome := "Ana", sobrenome := "Silva", email := "ana", telefone := "(11) 98765-4321");
            PersonalProblem(d).None? && !IsEmail(d.email)
  {
    var t := "(11) 98765-4321";
    assert !IsSpace('A') && !IsSpace('S') && !IsSpace('a');
    assert "Ana"[0] == 'A' && "Silva"[0] == 'S' && "ana"[0] == 'a' && t[0] == '(';
    assert !IsSpace('(');
    var rest := t[5..];
    assert rest == "98765-4321";
    assert rest[..5] == "98765" && rest[6..] == "4321";
    assert IsPhone(t);
  }

  /** The nine fields `handleSavePersonalData` sends and merges back. */
  const PersonalFields: set<Field> := {Nome, Email, Sobrenome, Telefone, DataNascimento, Genero, Crp, Bio, Especialidade}

  function PersonalPayload(d: FormData): (p: map<Field, string>)
    ensures p.Keys == PersonalFields && forall f :: f in p ==> p[f] == Get(d, f)
  {
    map f | f in PersonalFields :: Get(d, f)
  }

  /** `response.f || prev.f`: a present, non-empty value of the response wins. */
  function Pick(response: map<Field, string>, f: Field, prev: string): string
  {
    if f in response && response[f] != "" then response[f] else prev
  }

  /** The merge of the personal-save response into one copy of the data. */
  function MergePersonal(prev: FormData, response: map<Field, string>): (r: FormData)
    ensures r.idUsuario == prev.idUsuario && r.fotoUrl == prev.fotoUrl && r.endereco == prev.endereco
  {
    prev.(
      nome := Pick(response, Nome, prev.nome),
      email := Pick(response, Email, prev.email),
      sobrenome := Pick(response, Sobrenome, prev.sobrenome),
      telefone := Pick(response, Telefone, prev.telefone),
      dataNascimento := Pick(response, DataNascimento, prev.dataNascimento),
      genero := Pick(response, Genero, prev.genero),
      crp := Pick(response, Crp, prev.crp),
      bio := Pick(response, Bio, prev.bio),
      especialidade := Pick(response, Especialidade, prev.especialidade))
  }

  lemma MergePersonalField(prev: FormData, response: map<Field, string>, f: Field)
    ensures Get(MergePersonal(prev, response), f) ==
              if f in PersonalFields then Pick(response, f, Get(prev, f)) else Get(prev, f)
  {
    match f
    case Nome =>
    case Sobrenome =>
    case Email =>
    case Telefone =>
    case DataNascimento =>
    case Genero =>
    case Crp =>
    case Especialidade =>
    case Bio =>
    case _ => assert f !in PersonalFields;
  }

  /** The nine personal fields take the response's non-empty values; every other
      field, the id, the photo and the address stay as they were. */
  lemma MergePersonalSpec(prev: FormData, response: map<Field, string>)
    ensures var r := MergePersonal(prev, response);
            && (forall f :: f in PersonalFields ==>
                  Get(r, f) == if f in response && response[f] != "" then response[f] else Get(prev, f))
            && (forall f :: f !in PersonalFields ==> Get(r, f) == Get(prev, f))
            && r.idUsuario == prev.idUsuario && r.fotoUrl == prev.fotoUrl && r.endereco == prev.endereco
  {
    forall f {
      MergePersonalField(prev, response, f);
    }
  }

  /** An empty response leaves the copy as it was. */
  lemma MergePersonalEmptyResponse(prev: FormData)
    ensures MergePersonal(prev, map[]) == prev
  {
  }

  function ProfessionalProblem(d: FormData): (r: Option<string>)
    ensures r.None? <==> !IsBlank(d.crp) && !IsBlank(d.especialidade)
  {
    if IsBlank(d.crp) then Some("CRP obrigatório")
    else if IsBlank(d.especialidade) then Some("Especialidade obrigatória")
    else None
  }

  datatype Professional = Professional(crp: string, especialidade: string, bio: string)

  function ProfessionalPayload(d: FormData): (p: Professional)
    ensures p.crp == d.crp && p.especialidade == d.especialidade && p.bio == d.bio
  {
    Professional(d.crp, d.especialidade, Or(Some(d.bio), ""))
  }

  /** The professional save stores the response as it is, with no fallback. */
  function MergeProfessional(prev: FormData, r: Professional): (d: FormData)
    ensures Get(d, Crp) == r.crp && Get(d, Especialidade) == r.especialidade && Get(d, Bio) == r.bio
    ensures forall f :: f !in {Crp, Especialidade, Bio} ==> Get(d, f) == Get(prev, f)
    ensures d.idUsuario == prev.idUsuario && d.fotoUrl == prev.fotoUrl
  {
    prev.(crp := r.crp, especialidade := r.especialidade, bio := r.bio)
  }

  function AddressProblem(d: FormData): (r: Option<string>)
    ensures r.None? <==> !IsBlank(d.endereco.cep) && !IsBlank(d.endereco.numero)
  {
    if IsBlank(d.endereco.cep) then Some("CEP obrigatório")
    else if IsBlank(d.endereco.numero) then Some("Número obrigatório")
    else None
  }

  datatype AddressPayload = AddressPayload(cep: string, numero: string, complemento: string)

  function AddressPayloadOf(d: FormData): (p: AddressPayload)
    ensures p == AddressPayload(d.endereco.cep, d.endereco.numero, d.endereco.complemento)
  {
    AddressPayload(d.endereco.cep, d.endereco.numero, Or(Some(d.endereco.complemento), ""))
  }

  /** What the postal-code lookup returns (ViaCEP's field names). */
  datatype CepAddress = CepAddress(logradouro: string, bairro: string, localidade: string, uf: string, cep: string)

  function FillAddress(e: Endereco, found: CepAddress): (r: Endereco)
    ensures r.numero == e.numero && r.complemento == e.complemento
    ensures r.rua == found.logradouro && r.bairro == found.bairro && r.cidade == found.localidade
    ensures r.estado == found.uf && r.cep == found.cep
  {
    e.(rua := found.logradouro, bairro := found.bairro, cidade := found.localidade, estado := found.uf, cep := found.cep)
  }

  /** The value `handleInputChange` stores for an input. */
  function EnteredValue(f: Field, value: string, formatCep: string -> string): string
  {
    if f == Cep then formatCep(value)
    else if f == Telefone then Phone(value)
    else value
  }

  // ---------------------------------------------------------------------------
  // Loading

  /** The profile as `fetchPerfil` returns it: its id, its text fields, its photo URL. */
  datatype Perfil = Perfil(idUsuario: Option<int>, fields: map<Field, string>, fotoUrl: Option<string>)

  /** `dadosCompletos`: text fields use `dados.f || ""`; the address is the default one
      overridden by every key the address lookup returned. */
  function LoadedData(dados: Perfil, address: Option<map<Field, string>>): (d: FormData)
    ensures d.idUsuario == dados.idUsuario.GetOr(0)
    ensures d.fotoUrl.Some? <==> dados.fotoUrl.Some? && dados.fotoUrl.value != ""
    ensures d.fotoUrl.Some? ==> d.fotoUrl == dados.fotoUrl
  {
    var a := address.GetOr(map[]);
    FormData(
      idUsuario := dados.idUsuario.GetOr(0),
      nome := Pick(dados.fields, Nome, ""),
      sobrenome := Pick(dados.fields, Sobrenome, ""),
      crp := Pick(dados.fields, Crp, ""),
      especialidade := Pick(dados.fields, Especialidade, ""),
      telefone := Pick(dados.fields, Telefone, ""),
      email := Pick(dados.fields, Email, ""),
      bio := Pick(dados.fields, Bio, ""),
      dataNascimento := Pick(dados.fields, DataNascimento, ""),
      genero := Pick(dados.fields, Genero, ""),
      fotoUrl := if dados.fotoUrl.Some? && dados.fotoUrl.value != "" then dados.fotoUrl else None,
      endereco := Endereco(
        rua := if Rua in a then a[Rua] else "",
        numero := if Numero in a then a[Numero] else "",
        complemento := if Complemento in a then a[Complemento] else "",
        bairro := if Bairro in a then a[Bairro] else "",
        cidade := if Cidade in a then a[Cidade] else "",
        estado := if Estado in a then a[Estado] else "",
        cep := if Cep in a then a[Cep] else ""))
  }

  lemma LoadedField(dados: Perfil, address: Option<map<Field, string>>, f: Field)
    ensures Get(LoadedData(dados, address), f) ==
              if IsAddressField(f) then (if address.Some? && f in address.value then address.value[f] else "")
              else Or(if f in dados.fields then Some(dados.fields[f]) else None, "")
  {
    match f
    case Rua =>
    case Numero =>
    case Complemento =>
    case Bairro =>
    case Cidade =>
    case Estado =>
    case Cep =>
    case _ => assert !IsAddressField(f);
  }

  /** Text fields of the profile fall back to "" when missing or empty; every address
      field the lookup returned is taken as it is, even when empty. */
  lemma LoadedDataSpec(dados: Perfil, address: Option<map<Field, string>>)
    ensures var d := LoadedData(dados, address);
            && (forall f :: !IsAddressField(f) ==>
                  Get(d, f) == Or(if f in dados.fields then Some(dados.fields[f]) else None, ""))
            && (forall f :: IsAddressField(f) ==>
                  Get(d, f) == if address.Some? && f in address.value then address.value[f] else "")
  {
    forall f {
      LoadedField(dados, address, f);
    }
  }

  /** The success banners of the three section saves. */
  const PersonalSavedMessage := "Dados pessoais e profissionais atualizados com sucesso!"
  const ProfessionalSavedMessage := "Dados profissionais atualizados com sucesso!"
  const AddressSavedMessage := "Endereço atualizado com sucesso!"

  /** The result of a section's save handler. */
  datatype SaveOutcome =
    | NoChanges                 // "Nenhuma alteração detectada" / "Nenhuma foto selecionada"
    | Rejected(title: string)   // a guard failed; nothing was sent
    | Failed(message: string)   // the server call threw
    | Saved

  // ---------------------------------------------------------------------------
  // The page's state

  class ProfilePage {
    var formData: FormData
    var originalData: FormData
    var formChanged: bool
    var originalEmail: string
    var selectedImage: Option<string>
    var imagePreview: Option<string>
    var showEmailChangeModal: bool
    var validationErrors: map<Field, string>
    var successMessage: string
    var loading: bool
    /** The shared profile-image context (`useProfileImage`). */
    var profileImage: Option<string>

    constructor ()
      ensures formData == DefaultFormData && originalData == DefaultFormData
      ensures !formChanged && originalEmail == "" && selectedImage.None? && imagePreview.None?
      ensures !showEmailChangeModal && validationErrors == map[] && successMessage == "" && !loading
      ensures profileImage.None?
    {
      formData := DefaultFormData;
      originalData := DefaultFormData;
      formChanged := false;
      originalEmail := "";
      selectedImage := None;
      imagePreview := None;
      showEmailChangeModal := false;
      validationErrors := map[];
      successMessage := "";
      loading := false;
      profileImage := None;
    }

    /** `carregarPerfil`: the profile (or its error) and the address (absent when that
        request failed) are the inputs. Both copies receive the same data. */
    method LoadProfile(fetched: Result<Perfil>, address: Option<map<Field, string>>)
      modifies this`formData, this`originalData, this`originalEmail, this`profileImage
      ensures formData == originalData
      ensures fetched.Ok? ==> formData == LoadedData(fetched.value, address)
      ensures fetched.Ok? ==> originalEmail == Or(if Email in fetched.value.fields then Some(fetched.value.fields[Email]) else None, "")
      ensures fetched.Ok? ==> profileImage == if formData.fotoUrl.Some? then formData.fotoUrl else old(profileImage)
      ensures fetched.Err? ==> formData == DefaultFormData && originalEmail == old(originalEmail)
      ensures fetched.Err? ==> profileImage == old(profileImage)
    {
      match fetched {
        case Ok(dados) =>
          if dados.fotoUrl.Some? && dados.fotoUrl.value != "" {
            profileImage := dados.fotoUrl;
          }
          var completos := LoadedData(dados, address);
          formData := completos;
          originalData := completos;
          originalEmail := Pick(dados.fields, Email, "");
        case Err(_) =>
          formData := DefaultFormData;
          originalData := DefaultFormData;
      }
    }

    /** `handleInputChange` (and the bio's own handler): mark the form dirty and set the
        named field, masked for the phone and formatted by `formatCep` for the postal code. */
    method InputChange(f: Field, value: string, formatCep: string -> string)
      modifies this`formData, this`formChanged
      ensures formChanged
      ensures formData == Set(old(formData), f, EnteredValue(f, value, formatCep))
    {
      formChanged := true;
      if f == Cep {
        formData := formData.(endereco := formData.endereco.(cep := formatCep(value)));
        return;
      }
      if f == Telefone {
        formData := formData.(telefone := Phone(value));
        return;
      }
      formData := Set(formData, f, value);
    }

    /** `handleImageChange`: the chosen file; the preview arrives later from the FileReader. */
    method SelectImage(file: string)
      modifies this`selectedImage
      ensures selectedImage == Some(file)
    {
      selectedImage := Some(file);
    }

    method PreviewLoaded(dataUrl: string)
      modifies this`imagePreview
      ensures imagePreview == Some(dataUrl)
    {
      imagePreview := Some(dataUrl);
    }

    method ValidateForm() returns (ok: bool)
      modifies this`validationErrors
      ensures validationErrors == FormErrors(formData)
      ensures ok <==> FormErrors(formData) == map[]
    {
      validationErrors := FormErrors(formData);
      ok := |validationErrors| == 0;
      assert ok <==> validationErrors == map[] by {
        if validationErrors != map[] {
          var k :| k in validationErrors;
        }
      }
    }

    /** `handleSavePersonalData`, with the server's answer as input. */
    method SavePersonalData(response: Result<map<Field, string>>)
      returns (outcome: SaveOutcome, request: Option<map<Field, string>>)
      modifies this`formData, this`originalData, this`formChanged, this`loading
      modifies this`showEmailChangeModal, this`profileImage, this`successMessage
      ensures !old(formChanged) && old(selectedImage).None? ==>
                outcome == NoChanges && request.None? && loading == old(loading)
      ensures (old(formChanged) || old(selectedImage).Some?) ==> !loading
      ensures (old(formChanged) || old(selectedImage).Some?) && PersonalProblem(old(formData)).Some? ==>
                outcome == Rejected(PersonalProblem(old(formData)).value) && request.None?
      ensures request.Some? <==>
                (old(formChanged) || old(selectedImage).Some?) && PersonalProblem(old(formData)).None?
      ensures request.Some? ==> request.value == PersonalPayload(old(formData))
      ensures request.Some? && response.Err? ==> outcome == Failed(response.message)
      ensures outcome == Saved <==> request.Some? && response.Ok?
      ensures outcome == Saved ==> formData == MergePersonal(old(formData), response.value)
      ensures outcome == Saved ==> originalData == MergePersonal(old(originalData), response.value)
      ensures outcome == Saved ==> !formChanged && successMessage == PersonalSavedMessage
      ensures outcome == Saved ==>
                showEmailChangeModal == (old(showEmailChangeModal) || old(formData).email != originalEmail)
      ensures outcome == Saved ==>
                profileImage == (if selectedImage.Some? && imagePreview.Some? && imagePreview.value != ""
                                 then imagePreview else old(profileImage))
      ensures outcome != Saved ==>
                && formData == old(formData) && originalData == old(originalData)
                && formChanged == old(formChanged) && showEmailChangeModal == old(showEmailChangeModal)
                && profileImage == old(profileImage) && successMessage == old(successMessage)
    {
      if !formChanged && selectedImage.None? {
        return NoChanges, None;
      }
      loading := true;
      var problem := PersonalProblem(formData);
      if problem.Some? {
        loading := false;
        return Rejected(problem.value), None;
      }
      request := Some(PersonalPayload(formData));
      var emailChanged := formData.email != originalEmail;
      match response {
        case Err(message) =>
          outcome := Failed(message);
        case Ok(updated) =>
          ApplyPersonalResponse(updated, emailChanged);
          outcome := Saved;
      }
      loading := false;
    }

    /** The success branch of `handleSavePersonalData`. */
    method ApplyPersonalResponse(updated: map<Field, string>, emailChanged: bool)
      modifies this`formData, this`originalData, this`formChanged
      modifies this`showEmailChangeModal, this`profileImage, this`successMessage
      ensures formData == MergePersonal(old(formData), updated)
      ensures originalData == MergePersonal(old(originalData), updated)
      ensures !formChanged
      ensures showEmailChangeModal == (old(showEmailChangeModal) || emailChanged)
      ensures profileImage == (if selectedImage.Some? && imagePreview.Some? && imagePreview.value != ""
                               then imagePreview else old(profileImage))
      ensures successMessage == PersonalSavedMessage
    {
      formData := MergePersonal(formData, updated);
      originalData := MergePersonal(originalData, updated);
      if selectedImage.Some? && imagePreview.Some? && imagePreview.value != "" {
        profileImage := imagePreview;
      }
      successMessage := PersonalSavedMessage;
      formChanged := false;
      if emailChanged {
        showEmailChangeModal := true;
      }
    }

    /** `handleCancelRedirect`: stay on the page after an e-mail change. */
    method CancelEmailRedirect()
      modifies this`showEmailChangeModal
      ensures !showEmailChangeModal
    {
      showEmailChangeModal := false;
    }

    /** `handleSave`: upload the selected photo (the upload's answer is the input). */
    method SavePhoto(upload: Result<string>) returns (outcome: SaveOutcome)
      modifies this`profileImage, this`selectedImage, this`imagePreview, this`formChanged, this`loading
      ensures var ready := old(selectedImage).Some? && old(imagePreview).Some? && old(imagePreview).value != "";
              && (!ready ==> outcome == NoChanges && loading == old(loading))
              && (ready ==> !loading)
              && (ready && upload.Ok? ==>
                    outcome == Saved && profileImage == Some(upload.value)
                    && selectedImage.None? && imagePreview.None? && !formChanged)
              && (ready && upload.Err? ==> outcome == Failed(upload.message))
              && (outcome != Saved ==>
                    profileImage == old(profileImage) && selectedImage == old(selectedImage)
                    && imagePreview == old(imagePreview) && formChanged == old(formChanged))
    {
      if selectedImage.Some? && imagePreview.Some? && imagePreview.value != "" {
        loading := true;
        match upload {
          case Ok(url) =>
            profileImage := Some(url);
            selectedImage := None;
            imagePreview := None;
            formChanged := false;
            outcome := Saved;
          case Err(message) =>
            outcome := Failed(message);
        }
        loading := false;
      } else {
        outcome := NoChanges;
      }
    }

    /** `handleSaveProfessionalData`, with the server's answer as input. */
    method SaveProfessionalData(response: Result<Professional>)
      returns (outcome: SaveOutcome, request: Option<Professional>)
      modifies this`formData, this`originalData, this`formChanged, this`loading, this`successMessage
      ensures !old(formChanged) ==> outcome == NoChanges && request.None? && loading == old(loading)
      ensures old(formChanged) ==> !loading
      ensures old(formChanged) && ProfessionalProblem(old(formData)).Some? ==>
                outcome == Rejected(ProfessionalProblem(old(formData)).value) && request.None?
      ensures request.Some? <==> old(formChanged) && ProfessionalProblem(old(formData)).None?
      ensures request.Some? ==> request.value == ProfessionalPayload(old(formData))
      ensures request.Some? && response.Err? ==> outcome == Failed(response.message)
      ensures outcome == Saved <==> request.Some? && response.Ok?
      ensures outcome == Saved ==>
                && formData == MergeProfessional(old(formData), response.value)
                && originalData == MergeProfessional(old(originalData), response.value)
                && !formChanged && successMessage == ProfessionalSavedMessage
      ensures outcome != Saved ==>
                && formData == old(formData) && originalData == old(originalData)
                && formChanged == old(formChanged) && successMessage == old(successMessage)
    {
      if !formChanged {
        return NoChanges, None;
      }
      loading := true;
      var problem := ProfessionalProblem(formData);
      if problem.Some? {
        loading := false;
        return Rejected(problem.value), None;
      }
      request := Some(ProfessionalPayload(formData));
      match response {
        case Err(message) =>
          outcome := Failed(message);
        case Ok(resultado) =>
          formData := MergeProfessional(formData, resultado);
          originalData := MergeProfessional(originalData, resultado);
          successMessage := ProfessionalSavedMessage;
          formChanged := false;
          outcome := Saved;
      }
      loading := false;
    }

    /** `handleSaveAddressData`: no dirty check, and neither copy of the data changes. */
    method SaveAddressData(response: Result<()>)
      returns (outcome: SaveOutcome, request: Option<AddressPayload>)
      modifies this`formChanged, this`loading, this`successMessage
      ensures !loading
      ensures AddressProblem(formData).Some? ==>
                outcome == Rejected(AddressProblem(formData).value) && request.None?
      ensures request.Some? <==> AddressProblem(formData).None?
      ensures request.Some? ==> request.value == AddressPayloadOf(formData)
      ensures request.Some? && response.Err? ==> outcome == Failed(response.message)
      ensures outcome == Saved <==> request.Some? && response.Ok?
      ensures outcome == Saved ==> !formChanged && successMessage == AddressSavedMessage
      ensures outcome != Saved ==> formChanged == old(formChanged) && successMessage == old(successMessage)
    {
      loading := true;
      var problem := AddressProblem(formData);
      if problem.Some? {
        loading := false;
        return Rejected(problem.value), None;
      }
      request := Some(AddressPayloadOf(formData));
      match response {
        case Err(message) =>
          outcome := Failed(message);
        case Ok(_) =>
          successMessage := AddressSavedMessage;
          formChanged := false;
          outcome := Saved;
      }
      loading := false;
    }

    /** `handleCepBlur`: `found` is what the lookup returns for `cep` (absent on a miss). */
    method CepBlur(cep: string, found: Option<CepAddress>)
      modifies this`formData, this`formChanged
      ensures |cep| < 8 || found.None? ==> formData == old(formData) && formChanged == old(formChanged)
      ensures |cep| >= 8 && found.Some? ==>
                formData == old(formData).(endereco := FillAddress(old(formData).endereco, found.value))
                && formChanged
    {
      if cep == "" || |cep| < 8 {
        return;
      }
      if found.Some? {
        var e := found.value;
        formData := formData.(endereco := formData.endereco.(
          rua := e.logradouro, bairro := e.bairro, cidade := e.localidade, estado := e.uf, cep := e.cep));
        formChanged := true;
      }
    }

    /** `handleCancel`: reload the working copy from the `assistenteSocialData` entry (a text
        that does not parse makes the handler throw before it changes anything). */
    method Cancel(saved: Slot<FormData>)
      modifies this`formData, this`selectedImage, this`imagePreview, this`formChanged, this`validationErrors
      ensures saved.Malformed? ==>
                formData == old(formData) && selectedImage == old(selectedImage)
                && imagePreview == old(imagePreview) && formChanged == old(formChanged)
                && validationErrors == old(validationErrors)
      ensures !saved.Malformed? ==>
                && formData == (if saved.Json? then saved.value else DefaultFormData)
                && selectedImage.None? && imagePreview.None? && !formChanged && validationErrors == map[]
    {
      match saved {
        case Malformed(_) =>
          return;
        case Json(data) =>
          formData := data;
        case _ =>
          formData := DefaultFormData;
      }
      selectedImage := None;
      imagePreview := None;
      formChanged := false;
      validationErrors := map[];
    }
  }

  /** Editing never touches the sidebar copy, and an edit followed by a successful
      personal save of a valid form shows the server's value in both copies. */
  lemma EditThenSaveSyncsCopies(d: FormData, original: FormData, f: Field, v: string, response: map<Field, string>)
    requires f in PersonalFields && f in response && response[f] != ""
    ensures Get(MergePersonal(Set(d, f, v), response), f) == response[f]
    ensures Get(MergePersonal(original, response), f) == response[f]
  {
    MergePersonalSpec(Set(d, f, v), response);
    MergePersonalSpec(original, response);
  }
}
