/**
 * The sign-in response envelope and its mapping to the domain account: a
 * code and message around an optional data payload whose JSON keys are
 * snake_case.
 */
module AccountDTOs {
  import opened Reactor

  datatype AccountData = AccountData(
    id: int,
    email: string,
    nickName: string,
    accessToken: string,
    refreshToken: string)

  datatype AccountDTO = AccountDTO(code: string, message: string, data: Option<AccountData>)

  datatype Account = Account(
    id: int,
    email: string,
    nickName: string,
    accessToken: string,
    refreshToken: string)

  /** The payload's fields, as the decoder names them. */
  datatype CodingKey = Id | Email | NickName | AccessToken | RefreshToken

  /** The JSON key each field is decoded from: its name in snake_case. */
  function JsonKey(key: CodingKey): (json: string)
    ensures json != ""
    ensures forall i :: 0 <= i < |json| ==> 'a' <= json[i] <= 'z' || json[i] == '_'
  {
    match key
    case Id => "id"
    case Email => "email"
    case NickName => "nick_name"
    case AccessToken => "access_token"
    case RefreshToken => "refresh_token"
  }

  /** No two fields are read from the same JSON key. */
  lemma JsonKeyInjective(a: CodingKey, b: CodingKey)
    requires JsonKey(a) == JsonKey(b)
    ensures a == b
  {
  }

  /**
   * The domain account of a response: none without a payload, otherwise the
   * payload's fields copied one for one.
   */
  function ToDomain(dto: AccountDTO): (account: Option<Account>)
    ensures account.None? <==> dto.data.None?
    ensures account.Some? ==>
      && account.value.id == dto.data.value.id
      && account.value.email == dto.data.value.email
      && account.value.nickName == dto.data.value.nickName
      && account.value.accessToken == dto.data.value.accessToken
      && account.value.refreshToken == dto.data.value.refreshToken
  {
    match dto.data
    case None => None
    case Some(data) => Some(Account(data.id, data.email, data.nickName, data.accessToken, data.refreshToken))
  }

  /** The envelope's code and message never change the account. */
  lemma ToDomainIgnoresEnvelope(a: AccountDTO, b: AccountDTO)
    requires a.data == b.data
    ensures ToDomain(a) == ToDomain(b)
  {
  }

  /** Distinct payloads give distinct accounts: nothing in the payload is dropped. */
  lemma ToDomainInjectiveOnPayload(a: AccountDTO, b: AccountDTO)
    requires ToDomain(a) == ToDomain(b)
    ensures a.data == b.data
  {
  }
}
