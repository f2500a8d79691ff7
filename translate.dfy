/** Error-key translation in the browser (front/src/utils/translate.ts). */
module Translate {
  import ApiErrors
  import opened Text

  const DUPLICATE_USER_LOGIN := "duplicate key value violates unique constraint \"User_username_key\""
  const DUPLICATE_FLAT := "duplicate key value violates unique constraint \"User_flat_key\""

  /** The fallback's prefix, "unknown error". */
  const UNKNOWN_ERROR := "Неизвестная ошибка "

  /** `translateText`: the Russian text of each known key. */
  const TranslateText: map<string, string> := map[
    ApiErrors.INTERNAL_ERROR := "Ошибка сервера",
    ApiErrors.UNAUTHORIZED := "Пожалуйста, авторизуйтесь",
    ApiErrors.LOGIN_AND_PASSWORD_REQUIRED := "Необходимо указать логин и пароль",
    ApiErrors.FORBIDDEN := "Доступ запрещен",
    ApiErrors.FREE_PLACE := "Сначала освободите занимаемое место",
    ApiErrors.ALREADY_TAKEN := "Место уже занято",
    ApiErrors.CANT_RELEASE := "Невозможно освободить место",
    DUPLICATE_USER_LOGIN := "Пользователь с таким логином уже существует",
    DUPLICATE_FLAT := "Пользователь с такой квартирой уже существует"
  ]

  /** `translateError(key)`: the table's text, or the fallback naming the key. */
  function TranslateError(key: string): (r: string)
    ensures key in TranslateText ==> r == TranslateText[key]
    ensures key !in TranslateText ==> r == UNKNOWN_ERROR + key
    ensures r != []
  {
    if key in TranslateText && TranslateText[key] != "" then TranslateText[key]
    else UNKNOWN_ERROR + key
  }

  /** Every error code the backend sends has a translation of its own. */
  lemma EveryApiErrorTranslated()
    ensures forall c :: c in ApiErrors.ALL_CODES ==> c in TranslateText && TranslateError(c) == TranslateText[c]
  {
  }
}
