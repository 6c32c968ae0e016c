/**
 The per-user language preference of bot.py:47, bot.py:281-293: an in-memory map from the
 sender's user id to a language, read with Russian as the default.
 */
module Preferences {

  /** The two languages the bot's commands select. */
  datatype Lang = Ru | En

  type UserId = string

  /** `user_languages`. */
  type Store = map<UserId, Lang>

  /** The locale code the language stands for, as `lang` holds it after `.replace('/', '')`. */
  function Code(l: Lang): (code: string)
    ensures |code| == 2
  {
    match l
    case Ru => "ru"
    case En => "en"
  }

  /** Distinct languages have distinct codes, so a code names one language. */
  lemma CodeNamesOneLanguage(a: Lang, b: Lang)
    ensures Code(a) == Code(b) ==> a == b
  {
  }

  /** `get_user_language`: the stored language, or Russian for a user who never chose one. */
  function GetUserLanguage(store: Store, user: UserId): (lang: Lang)
    ensures lang == En <==> user in store && store[user] == En
    ensures lang == Ru <==> user !in store || store[user] == Ru
  {
    if user in store then store[user] else Ru
  }

  /** The store update of `set_language`: the user now reads `lang`, every other user reads what they read before. */
  function SetLanguage(store: Store, user: UserId, lang: Lang): (r: Store)
    ensures GetUserLanguage(r, user) == lang
    ensures forall other :: other != user ==> GetUserLanguage(r, other) == GetUserLanguage(store, other)
    ensures r.Keys == store.Keys + {user}
  {
    store[user := lang]
  }

  /** A user who never chose a language reads Russian. */
  lemma UnseenUserReadsRussian(store: Store, user: UserId)
    requires user !in store
    ensures GetUserLanguage(store, user) == Ru
  {
  }

  /** A second choice by the same user replaces the first. */
  lemma LastWriteWins(store: Store, user: UserId, first: Lang, second: Lang)
    ensures SetLanguage(SetLanguage(store, user, first), user, second) == SetLanguage(store, user, second)
  {
  }

  /** Choices by different users do not interfere: their order does not matter. */
  lemma DifferentUsersCommute(store: Store, u: UserId, v: UserId, a: Lang, b: Lang)
    requires u != v
    ensures SetLanguage(SetLanguage(store, u, a), v, b) == SetLanguage(SetLanguage(store, v, b), u, a)
  {
  }
}
