/** The user service (usuarioApi): the id lookup in local storage, the two record
    converters and the fallback chains of `getCurrentUser` and `updateUser`. The HTTP
    answers are inputs; local storage is an object whose two entries the service reads
    and writes. */
module UserService {
  import opened Wrappers
  import opened Text

  // ---------------------------------------------------------------------------
  // Records

  /** An address as a JavaScript object: `None` is a missing key. */
  datatype Address = Address(
    cep: Option<string>, rua: Option<string>, numero: Option<string>, complemento: Option<string>,
    bairro: Option<string>, cidade: Option<string>, estado: Option<string>)

  /** A user record as a JavaScript object: `UserData` when built by the service, the
      login record (which carries `idUsuario`) or whatever JSON the cache holds. */
  datatype User = User(
    id: Option<int>,
    idUsuario: Option<int>,
    nome: Option<string>,
    sobrenome: Option<string>,
    email: Option<string>,
    telefone: Option<string>,
    dataNascimento: Option<string>,
    genero: Option<string>,
    cpf: Option<string>,
    renda: Option<real>,
    tipo: Option<string>,
    areaOrientacao: Option<string>,
    comoSoube: Option<string>,
    profissao: Option<string>,
    foto: Option<string>,
    endereco: Option<Address>)

  /** A number is truthy when present and non-zero. */
  predicate HasId(n: Option<int>)
  {
    n.Some? && n.value != 0
  }

  /** Every key `UserData` declares as required is present. */
  predicate IsUserData(u: User)
  {
    && u.nome.Some? && u.sobrenome.Some? && u.email.Some? && u.telefone.Some?
    && u.dataNascimento.Some? && u.genero.Some? && u.endereco.Some?
    && u.endereco.value.cep.Some? && u.endereco.value.numero.Some? && u.endereco.value.complemento.Some?
  }

  const EmptyAddress := Address(Some(""), Some(""), Some(""), Some(""), Some(""), Some(""), Some(""))

  // ---------------------------------------------------------------------------
  // The id lookup

  /** The browser's local storage, restricted to the two entries the service uses. */
  class LocalStorage {
    /** The `userData` entry. */
    var userData: Slot<User>
    /** The `userId` entry, as text. */
    var userId: Option<string>

    constructor (userData: Slot<User>, userId: Option<string>)
      ensures this.userData == userData && this.userId == userId
    {
      this.userData := userData;
      this.userId := userId;
    }
  }

  /** `getUserIdFromStorage`: a truthy `idUsuario`, then a truthy `id` of the stored
      record, then `parseInt` of the `userId` entry; an unreadable record ends the
      lookup with null. */
  function UserIdFromStorage(userData: Slot<User>, userId: Option<string>): (r: Option<Number>)
    ensures userData.Malformed? ==> r.None?
    ensures r.Some? && r.value.NaN? ==> userId.Some? && userId.value != ""
  {
    match userData
    case Malformed(_) => None
    case Json(p) =>
      if HasId(p.idUsuario) then Some(Num(p.idUsuario.value))
      else if HasId(p.id) then Some(Num(p.id.value))
      else UserIdEntry(userId)
    case _ => UserIdEntry(userId)
  }

  function UserIdEntry(userId: Option<string>): (r: Option<Number>)
    ensures r.Some? <==> userId.Some? && userId.value != ""
  {
    if userId.Some? && userId.value != "" then Some(ParseInt(userId.value)) else None
  }

  /** Each source of the id in order, and what makes the lookup fall to the next one. */
  lemma UserIdPriority(userData: Slot<User>, userId: Option<string>)
    ensures userData.Json? && HasId(userData.value.idUsuario) ==>
              UserIdFromStorage(userData, userId) == Some(Num(userData.value.idUsuario.value))
    ensures userData.Json? && !HasId(userData.value.idUsuario) && HasId(userData.value.id) ==>
              UserIdFromStorage(userData, userId) == Some(Num(userData.value.id.value))
    ensures (userData.Absent? || userData.Blank? ||
             (userData.Json? && !HasId(userData.value.idUsuario) && !HasId(userData.value.id))) ==>
              UserIdFromStorage(userData, userId) ==
                if userId.Some? && userId.value != "" then Some(ParseInt(userId.value)) else None
    ensures userData.Malformed? ==> UserIdFromStorage(userData, userId).None?
  {
  }

  /** A truthy id found by the lookup is a stored id or the parsed `userId` entry. */
  predicate Truthy(id: Option<Number>)
  {
    id.Some? && id.value.Num? && id.value.n != 0
  }

  // ---------------------------------------------------------------------------
  // From the API record

  datatype ApiPhone = ApiPhone(ddd: Option<string>, numero: Option<string>)

  datatype ApiAddress = ApiAddress(
    cep: Option<string>, numero: Option<string>, complemento: Option<string>, logradouro: Option<string>,
    bairro: Option<string>, cidade: Option<string>, estado: Option<string>)

  /** `ApiUserData`, the backend's record. */
  datatype ApiUser = ApiUser(
    id: int,
    nome: Option<string>,
    sobrenome: Option<string>,
    email: Option<string>,
    cpf: Option<string>,
    dataNascimento: Option<string>,
    genero: Option<string>,
    renda: Option<real>,
    tipo: Option<string>,
    areaOrientacao: Option<string>,
    comoSoube: Option<string>,
    profissao: Option<string>,
    endereco: Option<ApiAddress>,
    telefone: Option<ApiPhone>)

  /** `(ddd) numero`, each part falling back to "". */
  function JoinPhone(p: Option<ApiPhone>): string
  {
    if p.Some? then "(" + Or(p.value.ddd, "") + ") " + Or(p.value.numero, "") else ""
  }

  function AddressField(a: Option<ApiAddress>, f: ApiAddress -> Option<string>): Option<string>
  {
    Some(Or(if a.Some? then f(a.value) else None, ""))
  }

  /** `convertApiDataToUserData`. */
  function FromApi(a: ApiUser): (u: User)
    ensures IsUserData(u) && u.id == Some(a.id) && u.idUsuario.None? && u.foto.None?
  {
    User(
      id := Some(a.id),
      idUsuario := None,
      nome := Some(Or(a.nome, "")),
      sobrenome := Some(Or(a.sobrenome, "")),
      email := Some(Or(a.email, "")),
      telefone := Some(JoinPhone(a.telefone)),
      dataNascimento := Some(Or(a.dataNascimento, "")),
      genero := Some(Or(a.genero, "OUTRO")),
      cpf := a.cpf,
      renda := a.renda,
      tipo := a.tipo,
      areaOrientacao := a.areaOrientacao,
      comoSoube := a.comoSoube,
      profissao := a.profissao,
      foto := None,
      endereco := Some(Address(
        cep := AddressField(a.endereco, (e: ApiAddress) => e.cep),
        rua := AddressField(a.endereco, (e: ApiAddress) => e.logradouro),
        numero := AddressField(a.endereco, (e: ApiAddress) => e.numero),
        complemento := AddressField(a.endereco, (e: ApiAddress) => e.complemento),
        bairro := AddressField(a.endereco, (e: ApiAddress) => e.bairro),
        cidade := AddressField(a.endereco, (e: ApiAddress) => e.cidade),
        estado := AddressField(a.endereco, (e: ApiAddress) => e.estado))))
  }

  /** Missing or empty texts become "", the gender defaults to OUTRO, the street comes
      from `logradouro`, and the phone is joined only when the phone object exists. */
  lemma FromApiDefaults(a: ApiUser)
    ensures var u := FromApi(a);
            && u.nome == Some(Or(a.nome, "")) && u.sobrenome == Some(Or(a.sobrenome, ""))
            && u.email == Some(Or(a.email, "")) && u.dataNascimento == Some(Or(a.dataNascimento, ""))
            && u.genero == Some(Or(a.genero, "OUTRO"))
            && (u.genero == Some("OUTRO") <==> a.genero.None? || a.genero.value in {"", "OUTRO"})
            && u.cpf == a.cpf && u.renda == a.renda && u.tipo == a.tipo
            && u.areaOrientacao == a.areaOrientacao && u.comoSoube == a.comoSoube && u.profissao == a.profissao
            && (a.endereco.None? ==> u.endereco == Some(EmptyAddress))
            && (a.endereco.Some? ==>
                  var e := a.endereco.value;
                  var v := u.endereco.value;
                  && v.cep == Some(Or(e.cep, "")) && v.rua == Some(Or(e.logradouro, ""))
                  && v.numero == Some(Or(e.numero, "")) && v.complemento == Some(Or(e.complemento, ""))
                  && v.bairro == Some(Or(e.bairro, "")) && v.cidade == Some(Or(e.cidade, ""))
                  && v.estado == Some(Or(e.estado, "")))
            && (a.telefone.Some? ==>
                  u.telefone == Some("(" + Or(a.telefone.value.ddd, "") + ") " + Or(a.telefone.value.numero, "")))
            && (a.telefone.None? <==> u.telefone == Some(""))
  {
    var u := FromApi(a);
    if a.telefone.Some? {
      assert u.telefone.value[0] == '(';
    }
  }

  // ---------------------------------------------------------------------------
  // To the API record

  /** `\d{4,5}-?\d{4}` at the start of `r`, in the order the regular expression
      backtracks: five digits before four, the dash before no dash. */
  function NumberGroup(r: string): (g: Option<string>)
  {
    if |r| >= 10 && AllDigits(r[..5]) && r[5] == '-' && AllDigits(r[6..10]) then Some(r[..10])
    else if |r| >= 9 && AllDigits(r[..9]) then Some(r[..9])
    else if |r| >= 9 && AllDigits(r[..4]) && r[4] == '-' && AllDigits(r[5..9]) then Some(r[..9])
    else if |r| >= 8 && AllDigits(r[..8]) then Some(r[..8])
    else None
  }

  /** The groups of `\((\d{2})\)\s*(\d{4,5}-?\d{4})` matched at position `p` of `t`. */
  function PhoneMatchAt(t: string, p: nat): Option<(string, string)>
  {
    if p + 4 <= |t| && t[p] == '(' && IsDigit(t[p + 1]) && IsDigit(t[p + 2]) && t[p + 3] == ')' then
      var g := NumberGroup(TrimStart(t[p + 4..]));
      if g.Some? then Some((t[p + 1..p + 3], g.value)) else None
    else None
  }

  /** `String.prototype.match`: the leftmost position where the expression matches. */
  function PhoneMatchFrom(t: string, p: nat): Option<(string, string)>
    decreases |t| - p
  {
    if p >= |t| then None
    else if PhoneMatchAt(t, p).Some? then PhoneMatchAt(t, p)
    else PhoneMatchFrom(t, p + 1)
  }

  /** `s.replace('-', '')`: only the first dash goes. */
  function RemoveFirstDash(s: string): (r: string)
    ensures IndexOf(s, '-').None? ==> r == s
    ensures IndexOf(s, '-').Some? ==> var i := IndexOf(s, '-').value; r == s[..i] + s[i + 1..]
  {
    if s == [] then s
    else if s[0] == '-' then s[1..]
    else
      var r := [s[0]] + RemoveFirstDash(s[1..]);
      match IndexOf(s[1..], '-')
      case None =>
        assert IndexOf(s, '-') == None && s == [s[0]] + s[1..];
        r
      case Some(j) =>
        assert IndexOf(s, '-') == Some(j + 1);
        assert s[..j + 1] == [s[0]] + s[1..][..j];
        assert s[j + 2..] == s[1..][j + 1..];
        r
  }

  datatype PhoneParts = PhoneParts(ddd: string, numero: string)

  function SplitPhone(telefone: Option<string>): (r: PhoneParts)
    ensures telefone.None? ==> r == PhoneParts("", "")
  {
    var m := if telefone.Some? then PhoneMatchFrom(telefone.value, 0) else None;
    if m.Some? then PhoneParts(m.value.0, RemoveFirstDash(m.value.1)) else PhoneParts("", "")
  }

  datatype PayloadAddress = PayloadAddress(numero: Option<string>, cep: Option<string>, complemento: Option<string>)

  /** The record `convertUserDataToApiData` produces. */
  datatype ApiPayload = ApiPayload(
    nome: Option<string>, sobrenome: Option<string>, email: Option<string>, cpf: Option<string>,
    dataNascimento: Option<string>, genero: Option<string>, renda: Option<real>, tipo: Option<string>,
    areaOrientacao: Option<string>, comoSoube: Option<string>, profissao: Option<string>,
    endereco: PayloadAddress, telefone: PhoneParts)

  function AddressPart(u: User, f: Address -> Option<string>): Option<string>
  {
    if u.endereco.Some? then f(u.endereco.value) else None
  }

  /** `convertUserDataToApiData`. */
  function ToApi(u: User): (p: ApiPayload)
    ensures p.telefone == SplitPhone(u.telefone)
    ensures p.nome == u.nome && p.sobrenome == u.sobrenome && p.email == u.email && p.genero == u.genero
    ensures u.endereco.Some? ==>
              p.endereco == PayloadAddress(u.endereco.value.numero, u.endereco.value.cep, u.endereco.value.complemento)
    ensures u.endereco.None? ==> p.endereco == PayloadAddress(None, None, None)
    ensures p.cpf == u.cpf && p.dataNascimento == u.dataNascimento && p.renda == u.renda && p.tipo == u.tipo
    ensures p.areaOrientacao == u.areaOrientacao && p.comoSoube == u.comoSoube && p.profissao == u.profissao
  {
    ApiPayload(
      nome := u.nome, sobrenome := u.sobrenome, email := u.email, cpf := u.cpf,
      dataNascimento := u.dataNascimento, genero := u.genero, renda := u.renda, tipo := u.tipo,
      areaOrientacao := u.areaOrientacao, comoSoube := u.comoSoube, profissao := u.profissao,
      endereco := PayloadAddress(
        AddressPart(u, (e: Address) => e.numero),
        AddressPart(u, (e: Address) => e.cep),
        AddressPart(u, (e: Address) => e.complemento)),
      telefone := SplitPhone(u.telefone))
  }

  lemma NoDashInDigits(s: string)
    requires AllDigits(s)
    ensures '-' !in s
  {
  }

  lemma TrimStartOfDigits(s: string)
    requires s != [] && IsDigit(s[0])
    ensures TrimStart(" " + s) == s
  {
    assert (" " + s)[1..] == s;
  }

  /** A phone the form text holds without a match gives empty parts. */
  lemma SplitPhoneWithoutMatch(telefone: Option<string>)
    requires telefone.None? || '(' !in telefone.value
    ensures SplitPhone(telefone) == PhoneParts("", "")
  {
    if telefone.Some? {
      NoOpeningNoMatch(telefone.value, 0);
    }
  }

  lemma {:induction false} NoOpeningNoMatch(t: string, p: nat)
    requires '(' !in t
    ensures PhoneMatchFrom(t, p).None?
    decreases |t| - p
  {
    if p < |t| {
      assert t[p] != '(';
      NoOpeningNoMatch(t, p + 1);
    }
  }

  /** The expression matched at the start of `(DD) rest`, when `rest` starts with a digit. */
  lemma MatchAtStart(t: string, ddd: string, rest: string)
    requires |ddd| == 2 && AllDigits(ddd) && rest != [] && IsDigit(rest[0])
    requires t == "(" + ddd + ") " + rest
    ensures NumberGroup(rest).Some? ==> SplitPhone(Some(t)) == PhoneParts(ddd, RemoveFirstDash(NumberGroup(rest).value))
  {
    assert t[4..] == " " + rest;
    TrimStartOfDigits(rest);
    assert t[1..3] == ddd;
    assert t[0] == '(' && t[1] == ddd[0] && t[2] == ddd[1] && t[3] == ')';
  }

  lemma NumberGroupOfDigits(numero: string)
    requires (|numero| == 8 || |numero| == 9) && AllDigits(numero)
    ensures NumberGroup(numero) == Some(numero)
  {
    assert numero[..|numero|] == numero;
    if |numero| == 9 {
      assert AllDigits(numero[..9]);
    } else {
      assert AllDigits(numero[..8]);
    }
  }

  /** Joining a two-digit area code with an eight- or nine-digit number and splitting
      the text again gives back both parts. */
  lemma PhoneRoundTrip(a: ApiUser, ddd: string, numero: string)
    requires a.telefone == Some(ApiPhone(Some(ddd), Some(numero)))
    requires |ddd| == 2 && AllDigits(ddd)
    requires (|numero| == 8 || |numero| == 9) && AllDigits(numero)
    ensures ToApi(FromApi(a)).telefone == PhoneParts(ddd, numero)
  {
    var t := "(" + ddd + ") " + numero;
    assert FromApi(a).telefone == Some(t);
    NumberGroupOfDigits(numero);
    MatchAtStart(t, ddd, numero);
    NoDashInDigits(numero);
  }

  lemma DigitsOfParts(ddd: string, first: string, last: string)
    requires AllDigits(ddd + first + last)
    ensures AllDigits(ddd) && AllDigits(first) && AllDigits(last)
  {
    var all := ddd + first + last;
    forall k | 0 <= k < |ddd| ensures IsDigit(ddd[k]) { assert ddd[k] == all[k]; }
    forall k | 0 <= k < |first| ensures IsDigit(first[k]) { assert first[k] == all[|ddd| + k]; }
    forall k | 0 <= k < |last| ensures IsDigit(last[k]) { assert last[k] == all[|ddd| + |first| + k]; }
  }

  lemma NumberGroupOfDashed(first: string, last: string)
    requires |first| == 5 && |last| == 4 && AllDigits(first) && AllDigits(last)
    ensures NumberGroup(first + "-" + last) == Some(first + "-" + last)
  {
    var r := first + "-" + last;
    assert r[..5] == first && r[5] == '-' && r[6..10] == last && r[..10] == r;
  }

  /** The mask of the profile form, `(DD) DDDDD-DDDD`, splits into the area code and the
      nine digits without the dash. */
  lemma SplitMaskedMobile(mobile: string, ddd: string, first: string, last: string)
    requires |ddd| == 2 && |first| == 5 && |last| == 4 && AllDigits(ddd + first + last)
    requires mobile == "(" + ddd + ") " + first + "-" + last
    ensures SplitPhone(Some(mobile)) == PhoneParts(ddd, first + last)
  {
    DigitsOfParts(ddd, first, last);
    var r := first + "-" + last;
    assert mobile == "(" + ddd + ") " + r;
    NumberGroupOfDashed(first, last);
    MatchAtStart(mobile, ddd, r);
    RemoveDashAfterDigits(first, last);
  }

  lemma RemoveDashAfterDigits(a: string, b: string)
    requires AllDigits(a)
    ensures RemoveFirstDash(a + "-" + b) == a + b
  {
    var s := a + "-" + b;
    assert s[|a|] == '-' && s[..|a|] == a && s[|a| + 1..] == b;
    assert '-' !in a by {
      forall i | 0 <= i < |a| ensures a[i] != '-' {
        assert IsDigit(a[i]);
      }
    }
    assert IndexOf(s, '-') == Some(|a|);
  }

  /** The expression is not anchored: text before the parenthesis is skipped. */
  lemma SplitPhoneSkipsPrefix(prefix: string, ddd: string, numero: string)
    requires '(' !in prefix
    requires |ddd| == 2 && AllDigits(ddd) && (|numero| == 8 || |numero| == 9) && AllDigits(numero)
    ensures SplitPhone(Some(prefix + "(" + ddd + ") " + numero)) == PhoneParts(ddd, numero)
  {
    var core := "(" + ddd + ") " + numero;
    var t := prefix + core;
    assert t == prefix + "(" + ddd + ") " + numero;
    SkipPrefix(t, prefix, core, 0);
    assert t[|prefix|..] == core;
    MatchAtShift(t, |prefix|);
    MatchOfParts(ddd, numero);
    NoDashInDigits(numero);
  }

  /** Whether the expression matches at position `p` depends only on the text from `p`. */
  lemma MatchAtShift(t: string, p: nat)
    requires p <= |t|
    ensures PhoneMatchAt(t, p) == PhoneMatchAt(t[p..], 0)
  {
    var u := t[p..];
    if p + 4 <= |t| {
      assert t[p + 4..] == u[4..];
      assert t[p + 1..p + 3] == u[1..3];
    }
  }

  lemma MatchOfParts(ddd: string, numero: string)
    requires |ddd| == 2 && AllDigits(ddd) && (|numero| == 8 || |numero| == 9) && AllDigits(numero)
    ensures PhoneMatchAt("(" + ddd + ") " + numero, 0) == Some((ddd, numero))
  {
    var core := "(" + ddd + ") " + numero;
    assert core[4..] == " " + numero;
    TrimStartOfDigits(numero);
    NumberGroupOfDigits(numero);
    assert core[1..3] == ddd;
  }

  lemma {:induction false} SkipPrefix(t: string, prefix: string, core: string, p: nat)
    requires t == prefix + core && '(' !in prefix && p <= |prefix| && core != []
    ensures PhoneMatchFrom(t, p) == PhoneMatchFrom(t, |prefix|)
    decreases |prefix| - p
  {
    if p < |prefix| {
      assert t[p] == prefix[p];
      SkipPrefix(t, prefix, core, p + 1);
    }
  }

  // ---------------------------------------------------------------------------
  // getCurrentUser

  /** The record the development fallback creates. */
  const DefaultUser := User(
    id := Some(1), idUsuario := None,
    nome := Some("Usuário"), sobrenome := Some("Teste"), email := Some("usuario@exemplo.com"),
    telefone := Some("(11) 99999-9999"), dataNascimento := Some("1990-01-01"), genero := Some("OUTRO"),
    cpf := None, renda := None, tipo := None, areaOrientacao := None, comoSoube := None, profissao := None,
    foto := None,
    endereco := Some(Address(Some("01234-567"), Some("Rua Exemplo"), Some("123"), Some(""),
                             Some("Centro"), Some("São Paulo"), Some("SP"))))

  /** The personal-data endpoint's answer, for user `n`: texts default to "", the
      gender to OUTRO, only the CPF is kept, and the address is empty. */
  function FromProfileResponse(n: int, d: User): (u: User)
    ensures IsUserData(u) && u.id == Some(n) && u.endereco == Some(EmptyAddress)
    ensures u.cpf == d.cpf && u.renda.None? && u.profissao.None?
    ensures u.nome == Some(Or(d.nome, "")) && u.sobrenome == Some(Or(d.sobrenome, ""))
    ensures u.email == Some(Or(d.email, "")) && u.telefone == Some(Or(d.telefone, ""))
    ensures u.dataNascimento == Some(Or(d.dataNascimento, "")) && u.genero == Some(Or(d.genero, "OUTRO"))
    ensures u.idUsuario.None? && u.tipo.None? && u.areaOrientacao.None? && u.comoSoube.None? && u.foto.None?
  {
    User(
      id := Some(n), idUsuario := None,
      nome := Some(Or(d.nome, "")), sobrenome := Some(Or(d.sobrenome, "")), email := Some(Or(d.email, "")),
      telefone := Some(Or(d.telefone, "")), dataNascimento := Some(Or(d.dataNascimento, "")),
      genero := Some(Or(d.genero, "OUTRO")),
      cpf := d.cpf, renda := None, tipo := None, areaOrientacao := None, comoSoube := None, profissao := None,
      foto := None, endereco := Some(EmptyAddress))
  }

  function CachedPart(a: Option<Address>, f: Address -> Option<string>): Option<string>
  {
    Some(Or(if a.Some? then f(a.value) else None, ""))
  }

  /** The cached record, for user `n`, with "" and OUTRO defaults: every text of the
      cache (and of its address) that is missing or empty becomes "", the gender OUTRO,
      and the other keys are passed through. */
  function FromCache(n: int, p: User): (u: User)
    ensures IsUserData(u) && u.id == Some(n) && u.idUsuario.None? && u.foto.None?
    ensures u.cpf == p.cpf && u.renda == p.renda && u.tipo == p.tipo && u.profissao == p.profissao
    ensures u.areaOrientacao == p.areaOrientacao && u.comoSoube == p.comoSoube
    ensures u.nome == Some(Or(p.nome, "")) && u.sobrenome == Some(Or(p.sobrenome, ""))
    ensures u.email == Some(Or(p.email, "")) && u.telefone == Some(Or(p.telefone, ""))
    ensures u.dataNascimento == Some(Or(p.dataNascimento, "")) && u.genero == Some(Or(p.genero, "OUTRO"))
    ensures p.endereco.None? ==> u.endereco == Some(EmptyAddress)
    ensures p.endereco.Some? ==>
              var e := p.endereco.value;
              var v := u.endereco.value;
              && v.cep == Some(Or(e.cep, "")) && v.rua == Some(Or(e.rua, ""))
              && v.numero == Some(Or(e.numero, "")) && v.complemento == Some(Or(e.complemento, ""))
              && v.bairro == Some(Or(e.bairro, "")) && v.cidade == Some(Or(e.cidade, ""))
              && v.estado == Some(Or(e.estado, ""))
  {
    User(
      id := Some(n), idUsuario := None,
      nome := Some(Or(p.nome, "")), sobrenome := Some(Or(p.sobrenome, "")), email := Some(Or(p.email, "")),
      telefone := Some(Or(p.telefone, "")), dataNascimento := Some(Or(p.dataNascimento, "")),
      genero := Some(Or(p.genero, "OUTRO")),
      cpf := p.cpf, renda := p.renda, tipo := p.tipo, areaOrientacao := p.areaOrientacao,
      comoSoube := p.comoSoube, profissao := p.profissao, foto := None,
      endereco := Some(Address(
        CachedPart(p.endereco, (e: Address) => e.cep),
        CachedPart(p.endereco, (e: Address) => e.rua),
        CachedPart(p.endereco, (e: Address) => e.numero),
        CachedPart(p.endereco, (e: Address) => e.complemento),
        CachedPart(p.endereco, (e: Address) => e.bairro),
        CachedPart(p.endereco, (e: Address) => e.cidade),
        CachedPart(p.endereco, (e: Address) => e.estado))))
  }

  /** The message `getCurrentUser` throws with. */
  const LoadError := "Erro ao carregar dados do usuário"

  /** `getCurrentUser`, given the storage it reads and the answer the endpoint would give. */
  function CurrentUser(userData: Slot<User>, userId: Option<string>, api: Result<User>): (r: Result<User>)
    ensures r.Ok? ==> IsUserData(r.value)
  {
    var id := UserIdFromStorage(userData, userId);
    if Truthy(id) then
      match api
      case Ok(d) => Ok(FromProfileResponse(id.value.n, d))
      case Err(_) =>
        match userData
        case Json(p) => Ok(FromCache(id.value.n, p))
        case Malformed(_) => Err(LoadError)
        case _ => Ok(DefaultUser)
    else Ok(DefaultUser)
  }

  /** When `getCurrentUser` falls back to the development user (and writes it to storage). */
  predicate UsesDefault(userData: Slot<User>, userId: Option<string>, api: Result<User>)
  {
    var id := UserIdFromStorage(userData, userId);
    !Truthy(id) || (api.Err? && (userData.Absent? || userData.Blank?))
  }

  /** The three outcomes of `getCurrentUser`; its `throw` cannot be reached, because an
      unreadable record already stops the id lookup. */
  lemma CurrentUserCases(userData: Slot<User>, userId: Option<string>, api: Result<User>)
    ensures var id := UserIdFromStorage(userData, userId);
            var r := CurrentUser(userData, userId, api);
            && r.Ok?
            && IsUserData(r.value)
            && (Truthy(id) && api.Ok? ==> r.value.id == Some(id.value.n) && r.value.endereco == Some(EmptyAddress))
            && (Truthy(id) && api.Err? && userData.Json? ==> r.value == FromCache(id.value.n, userData.value))
            && (UsesDefault(userData, userId, api) ==> r.value == DefaultUser)
            && (!UsesDefault(userData, userId, api) ==> r.value.id == Some(id.value.n))
  {
  }

  /** `getCurrentUser` performs the lookup, writes the default user (id 1) when it
      falls back to it, and otherwise leaves storage alone. */
  method GetCurrentUser(store: LocalStorage, api: Result<User>) returns (r: Result<User>)
    modifies store
    ensures r == CurrentUser(old(store.userData), old(store.userId), api)
    ensures UsesDefault(old(store.userData), old(store.userId), api) ==>
              store.userData == Json(DefaultUser) && store.userId == Some("1")
    ensures !UsesDefault(old(store.userData), old(store.userId), api) ==>
              store.userData == old(store.userData) && store.userId == old(store.userId)
  {
    var id := UserIdFromStorage(store.userData, store.userId);
    if Truthy(id) {
      match api {
        case Ok(d) =>
          return Ok(FromProfileResponse(id.value.n, d));
        case Err(_) =>
          match store.userData {
            case Json(p) =>
              return Ok(FromCache(id.value.n, p));
            case Malformed(_) =>
              return Err(LoadError);
            case _ =>
          }
      }
    }
    store.userData := Json(DefaultUser);
    store.userId := Some("1");
    r := Ok(DefaultUser);
  }

  /** After the fallback has written its record, the next lookup finds id 1. */
  lemma DefaultIsFoundNextTime()
    ensures UserIdFromStorage(Json(DefaultUser), Some("1")) == Some(Num(1))
  {
  }

  // ---------------------------------------------------------------------------
  // updateUser

  /** The six fields `updateUser` sends. */
  datatype UpdatePayload = UpdatePayload(
    nome: Option<string>, sobrenome: Option<string>, email: Option<string>,
    telefone: Option<string>, dataNascimento: Option<string>, genero: Option<string>)

  datatype PatchRequest = PatchRequest(usuarioId: int, body: UpdatePayload)

  function UpdatePayloadOf(u: User): (p: UpdatePayload)
    ensures p.nome == u.nome && p.sobrenome == u.sobrenome && p.email == u.email
    ensures p.telefone == u.telefone && p.dataNascimento == u.dataNascimento && p.genero == u.genero
  {
    UpdatePayload(u.nome, u.sobrenome, u.email, u.telefone, u.dataNascimento, u.genero)
  }

  /** Fields the payload leaves out do not influence what is sent. */
  lemma UpdatePayloadIgnores(u: User, cpf: Option<string>, endereco: Option<Address>, foto: Option<string>)
    ensures UpdatePayloadOf(u.(cpf := cpf, endereco := endereco, foto := foto)) == UpdatePayloadOf(u)
  {
  }

  /** `updateUser`: send the six fields; on success reload through `getCurrentUser`
      (which looks the user up in storage again, not by `userId`); on failure hand back
      a copy of the submitted record. */
  method UpdateUser(store: LocalStorage, userId: int, data: User, patch: Result<()>, api: Result<User>)
    returns (r: User, request: PatchRequest)
    modifies store
    ensures request == PatchRequest(userId, UpdatePayloadOf(data))
    ensures patch.Err? ==> r == data && store.userData == old(store.userData) && store.userId == old(store.userId)
    ensures patch.Ok? ==> Ok(r) == CurrentUser(old(store.userData), old(store.userId), api)
    ensures patch.Ok? && UsesDefault(old(store.userData), old(store.userId), api) ==>
              store.userData == Json(DefaultUser) && store.userId == Some("1")
    ensures patch.Ok? && !UsesDefault(old(store.userData), old(store.userId), api) ==>
              store.userData == old(store.userData) && store.userId == old(store.userId)
  {
    request := PatchRequest(userId, UpdatePayloadOf(data));
    if patch.Err? {
      return data, request;
    }
    CurrentUserCases(store.userData, store.userId, api);
    var reloaded := GetCurrentUser(store, api);
    r := if reloaded.Ok? then reloaded.value else data;
  }
}
