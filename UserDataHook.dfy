/** The profile-data hook (useUserData): `userData`, `loading` and `error` plus the
    `userData` entry of local storage, changed by a fetch and by an update. The
    service's answers are inputs. */
module UserDataHook {
  import opened Wrappers
  import opened UserService

  /** `defaultUserData`: empty texts, gender OUTRO, an empty address, no id. */
  const DefaultUserData := User(
    id := None, idUsuario := None,
    nome := Some(""), sobrenome := Some(""), email := Some(""), telefone := Some(""),
    dataNascimento := Some(""), genero := Some("OUTRO"),
    cpf := None, renda := None, tipo := None, areaOrientacao := None, comoSoube := None, profissao := None,
    foto := None, endereco := Some(EmptyAddress))

  // ---------------------------------------------------------------------------
  // Spreads

  /** The value of `{ ...a, ...b }` for one key: a key present in `b` wins. */
  function Prefer<T>(a: Option<T>, b: Option<T>): Option<T>
  {
    if b.Some? then b else a
  }

  /** `{ ...a, ...b }` for addresses; spreading a missing object adds nothing. */
  function SpreadAddress(a: Option<Address>, b: Option<Address>): Address
  {
    var x := a.GetOr(NoAddress);
    match b
    case None => x
    case Some(y) =>
      Address(Prefer(x.cep, y.cep), Prefer(x.rua, y.rua), Prefer(x.numero, y.numero),
              Prefer(x.complemento, y.complemento), Prefer(x.bairro, y.bairro),
              Prefer(x.cidade, y.cidade), Prefer(x.estado, y.estado))
  }

  /** `{ ...a, ...b }` for user records, keeping `endereco` for the caller to set. */
  function Spread(a: User, b: User): User
  {
    User(
      Prefer(a.id, b.id), Prefer(a.idUsuario, b.idUsuario), Prefer(a.nome, b.nome),
      Prefer(a.sobrenome, b.sobrenome), Prefer(a.email, b.email), Prefer(a.telefone, b.telefone),
      Prefer(a.dataNascimento, b.dataNascimento), Prefer(a.genero, b.genero), Prefer(a.cpf, b.cpf),
      Prefer(a.renda, b.renda), Prefer(a.tipo, b.tipo), Prefer(a.areaOrientacao, b.areaOrientacao),
      Prefer(a.comoSoube, b.comoSoube), Prefer(a.profissao, b.profissao), Prefer(a.foto, b.foto),
      Prefer(a.endereco, b.endereco))
  }

  const EmptyUser := User(None, None, None, None, None, None, None, None, None, None, None, None, None, None, None, None)
  const NoAddress := Address(None, None, None, None, None, None, None)

  /** Every key of `r` other than `endereco` is `b`'s value when `b` has the key, else `a`'s. */
  ghost predicate UserKeysPrefer(r: User, a: User, b: User)
  {
    && r.id == Prefer(a.id, b.id) && r.idUsuario == Prefer(a.idUsuario, b.idUsuario)
    && r.nome == Prefer(a.nome, b.nome) && r.sobrenome == Prefer(a.sobrenome, b.sobrenome)
    && r.email == Prefer(a.email, b.email) && r.telefone == Prefer(a.telefone, b.telefone)
    && r.dataNascimento == Prefer(a.dataNascimento, b.dataNascimento) && r.genero == Prefer(a.genero, b.genero)
    && r.cpf == Prefer(a.cpf, b.cpf) && r.renda == Prefer(a.renda, b.renda) && r.tipo == Prefer(a.tipo, b.tipo)
    && r.areaOrientacao == Prefer(a.areaOrientacao, b.areaOrientacao)
    && r.comoSoube == Prefer(a.comoSoube, b.comoSoube) && r.profissao == Prefer(a.profissao, b.profissao)
    && r.foto == Prefer(a.foto, b.foto)
  }

  /** Each of the seven address keys of `e` is `q`'s value when `q` has the key, else `c`'s. */
  ghost predicate AddressKeysPrefer(e: Address, c: Address, q: Address)
  {
    && e.cep == Prefer(c.cep, q.cep) && e.rua == Prefer(c.rua, q.rua) && e.numero == Prefer(c.numero, q.numero)
    && e.complemento == Prefer(c.complemento, q.complemento) && e.bairro == Prefer(c.bairro, q.bairro)
    && e.cidade == Prefer(c.cidade, q.cidade) && e.estado == Prefer(c.estado, q.estado)
  }

  /** `{ cep: '', rua: '', …, ...e }`: all seven keys present, given values winning. */
  function CompleteAddress(e: Option<Address>): (r: Address)
    ensures && r.cep.Some? && r.rua.Some? && r.numero.Some? && r.complemento.Some?
            && r.bairro.Some? && r.cidade.Some? && r.estado.Some?
  {
    SpreadAddress(Some(EmptyAddress), e)
  }

  /** Each of the seven keys is present; a present key keeps its value (even ""), a
      missing one becomes "". */
  lemma CompleteAddressSpec(e: Option<Address>)
    ensures var r := CompleteAddress(e);
            && r.cep.Some? && r.rua.Some? && r.numero.Some? && r.complemento.Some?
            && r.bairro.Some? && r.cidade.Some? && r.estado.Some?
            && (e.None? ==> r == EmptyAddress)
            && (e.Some? ==> r.cep == Prefer(Some(""), e.value.cep) && r.rua == Prefer(Some(""), e.value.rua)
                            && r.numero == Prefer(Some(""), e.value.numero)
                            && r.complemento == Prefer(Some(""), e.value.complemento)
                            && r.bairro == Prefer(Some(""), e.value.bairro)
                            && r.cidade == Prefer(Some(""), e.value.cidade)
                            && r.estado == Prefer(Some(""), e.value.estado))
  {
  }

  lemma CompleteAddressIdempotent(e: Option<Address>)
    ensures CompleteAddress(Some(CompleteAddress(e))) == CompleteAddress(e)
  {
  }

  /** `safeUserData` after a fetch or an update: the record with a complete address. */
  function WithCompleteAddress(u: User): User
  {
    u.(endereco := Some(CompleteAddress(u.endereco)))
  }

  /** The record the failure branch of a fetch shows, given the cache. */
  function RestoreFromCache(saved: Slot<User>): (r: User)
    ensures r.endereco.Some?
    ensures !saved.Json? ==> r == DefaultUserData
  {
    match saved
    case Json(p) => Spread(DefaultUserData, p).(endereco := Some(SpreadAddress(DefaultUserData.endereco, p.endereco)))
    case _ => DefaultUserData
  }

  /** A readable cache overrides the defaults key by key, one level deep for the
      address; a missing, empty or unreadable cache gives exactly the defaults. */
  lemma RestoreFromCacheSpec(saved: Slot<User>)
    ensures !saved.Json? ==> RestoreFromCache(saved) == DefaultUserData
    ensures saved.Json? ==>
              var p := saved.value;
              var r := RestoreFromCache(saved);
              && UserKeysPrefer(r, DefaultUserData, p)
              && r.endereco.Some?
              && AddressKeysPrefer(r.endereco.value, EmptyAddress, p.endereco.GetOr(NoAddress))
    ensures RestoreFromCache(saved).endereco.Some?
  {
  }

  /** The id `updateUserData` sends: a truthy `id` of the current record, else the
      stored record's `idUsuario || id || 1`, else 1; an unreadable record throws. */
  function ResolveUserId(current: User, stored: Slot<User>): (r: Result<int>)
    ensures r.Ok? ==> r.value != 0
  {
    if HasId(current.id) then Ok(current.id.value)
    else
      match stored
      case Json(p) =>
        if HasId(p.idUsuario) then Ok(p.idUsuario.value)
        else if HasId(p.id) then Ok(p.id.value)
        else Ok(1)
      case Malformed(message) => Err(message)
      case _ => Ok(1)
  }

  lemma ResolveUserIdSpec(current: User, stored: Slot<User>)
    ensures HasId(current.id) ==> ResolveUserId(current, stored) == Ok(current.id.value)
    ensures !HasId(current.id) && (stored.Absent? || stored.Blank?) ==> ResolveUserId(current, stored) == Ok(1)
    ensures !HasId(current.id) && stored.Malformed? ==> ResolveUserId(current, stored) == Err(stored.parseError)
    ensures !HasId(current.id) && stored.Json? && HasId(stored.value.idUsuario) ==>
              ResolveUserId(current, stored) == Ok(stored.value.idUsuario.value)
    ensures !HasId(current.id) && stored.Json? && !HasId(stored.value.idUsuario) && HasId(stored.value.id) ==>
              ResolveUserId(current, stored) == Ok(stored.value.id.value)
    ensures !HasId(current.id) && stored.Json? && !HasId(stored.value.idUsuario) && !HasId(stored.value.id) ==>
              ResolveUserId(current, stored) == Ok(1)
    ensures ResolveUserId(current, stored).Err? <==> !HasId(current.id) && stored.Malformed?
  {
  }

  /** `dataToUpdate`: the new fields over the current record, the addresses merged one level. */
  function MergeUser(current: User, patch: User): (r: User)
    ensures r.endereco.Some?
  {
    Spread(current, patch).(endereco := Some(SpreadAddress(current.endereco, patch.endereco)))
  }

  /** A field the patch gives wins, one it leaves out keeps the current value, and this
      holds inside the address too (a shallow spread would drop the address's other keys). */
  lemma MergeUserSpec(current: User, patch: User)
    ensures var r := MergeUser(current, patch);
            && UserKeysPrefer(r, current, patch)
            && r.endereco.Some?
            && AddressKeysPrefer(r.endereco.value, current.endereco.GetOr(NoAddress), patch.endereco.GetOr(NoAddress))
            && (patch.endereco.None? ==> r.endereco == Some(current.endereco.GetOr(NoAddress)))
    ensures MergeUser(current, EmptyUser) == current.(endereco := Some(SpreadAddress(current.endereco, None)))
  {
  }

  /** An address-only patch changes the street and keeps the rest of the address. */
  lemma MergeKeepsAddressSiblings(current: User, rua: string)
    requires current.endereco.Some?
    ensures var r := MergeUser(current, EmptyUser.(endereco := Some(Address(None, Some(rua), None, None, None, None, None))));
            && r.endereco.value.rua == Some(rua)
            && r.endereco.value.cep == current.endereco.value.cep
            && r.endereco.value.numero == current.endereco.value.numero
            && r.nome == current.nome
  {
  }

  // ---------------------------------------------------------------------------
  // The hook's state

  class UserDataState {
    var userData: User
    var loading: bool
    var error: Option<string>
    /** The `userData` entry of local storage. */
    var stored: Slot<User>

    constructor (stored: Slot<User>)
      ensures userData == DefaultUserData && loading && error.None? && this.stored == stored
    {
      userData := DefaultUserData;
      loading := true;
      error := None;
      this.stored := stored;
    }

    /** `fetchUserData`, with `getCurrentUser`'s outcome as input. */
    method FetchUserData(fetched: Result<User>)
      modifies this
      ensures !loading
      ensures fetched.Ok? ==>
                userData == WithCompleteAddress(fetched.value) && stored == Json(userData) && error.None?
      ensures fetched.Err? ==>
                userData == RestoreFromCache(old(stored)) && stored == old(stored) && error == Some(fetched.message)
    {
      loading := true;
      error := None;
      match fetched {
        case Ok(data) =>
          var safe := WithCompleteAddress(data);
          userData := safe;
          stored := Json(safe);
        case Err(message) =>
          error := Some(message);
          userData := RestoreFromCache(stored);
      }
      loading := false;
    }

    /** `updateUserData`: resolve the id, merge, hand the merged record to `updateUser`
        (whose outcome is `updated`), then store the answer with a complete address.
        A failure records its message, leaves the record alone and is rethrown. */
    method UpdateUserData(newData: User, updated: Result<User>)
      returns (r: Result<User>, request: Option<(int, User)>)
      modifies this
      ensures !loading
      ensures var id := ResolveUserId(old(userData), old(stored));
              && (id.Ok? <==> request.Some?)
              && (id.Ok? ==> request == Some((id.value, MergeUser(old(userData), newData))))
              && (id.Err? ==> r == Err(id.message))
              && (id.Ok? ==> r == if updated.Ok? then Ok(WithCompleteAddress(updated.value)) else Err(updated.message))
      ensures r.Ok? ==> userData == r.value && stored == Json(r.value) && error.None?
      ensures r.Err? ==> userData == old(userData) && stored == old(stored) && error == Some(r.message)
    {
      loading := true;
      error := None;
      var id := ResolveUserId(userData, stored);
      if id.Err? {
        error := Some(id.message);
        loading := false;
        return Err(id.message), None;
      }
      var dataToUpdate := MergeUser(userData, newData);
      request := Some((id.value, dataToUpdate));
      match updated {
        case Ok(answer) =>
          var safe := WithCompleteAddress(answer);
          userData := safe;
          stored := Json(safe);
          r := Ok(safe);
        case Err(message) =>
          error := Some(message);
          r := Err(message);
      }
      loading := false;
    }
  }

  /** After a successful fetch of a complete record, a later failed fetch shows that
      same record again from the cache. */
  lemma FetchThenFailRestores(data: User)
    requires IsUserData(data)
    ensures RestoreFromCache(Json(WithCompleteAddress(data))) == WithCompleteAddress(data)
  {
    var s := WithCompleteAddress(data);
    CompleteAddressIdempotent(data.endereco);
    assert SpreadAddress(DefaultUserData.endereco, s.endereco) == CompleteAddress(s.endereco);
  }
}
