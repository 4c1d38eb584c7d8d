/**
  A generic-password keychain item addressed by service name: looked up once
  when created, then saved by creating or updating the stored entry.
  The keychain itself is a map from service name to the stored account and
  secret; whether a write succeeds is an input.
 */
module Keychain {
  import opened Common

  /** The stored secret: text, or data that does not decode as UTF-8. */
  datatype Secret = Text(text: string) | Undecodable

  /** A stored entry; the account attribute may be missing. */
  datatype StoredItem = StoredItem(account: Option<string>, secret: Secret)

  type Store = map<string, StoredItem>

  /** `KeychainPassword`: `stored` is the source's `exists` flag, true once
      the entry is known to be in the keychain. */
  datatype KeychainPassword = KeychainPassword(
    service: string,
    stored: bool,
    username: Option<string>,
    password: Option<string>)

  /** `init(service:)`: an entry whose secret decodes gives its account
      (missing account read as "") and its password; anything else leaves the
      item empty and not stored. */
  function Lookup(store: Store, service: string): (item: KeychainPassword)
    ensures item.service == service
    ensures item.stored <==> service in store && store[service].secret.Text?
    ensures !item.stored ==> item.username.None? && item.password.None?
    ensures item.stored ==>
              item.username == Some(store[service].account.GetOr(""))
              && item.password == Some(store[service].secret.text)
  {
    if service in store && store[service].secret.Text? then
      KeychainPassword(service, true, Some(store[service].account.GetOr("")),
                       Some(store[service].secret.text))
    else
      KeychainPassword(service, false, None, None)
  }

  /** An error thrown to the caller of `save()`. */
  datatype KeychainError = KeychainError(title: string, message: string)

  const CannotCreateTitle := "Cannot Create Keychain Item"
  const UsernameNotSet := "Username is not set to a valid value."
  const PasswordNotSet := "Password is not set to a valid value."
  const AddFailed := KeychainError("Keychain Error", "Cannot add generic password item to the keychain.")
  const UpdateFailed := KeychainError("Keychain Error", "Cannot update generic password item to the keychain.")

  /** The field checks at the top of `save()` as the source writes them: a
      missing password is reported with the username message. */
  function ValidateAsWritten(item: KeychainPassword): (r: Option<KeychainError>)
    ensures r.None? <==> item.username.Some? && item.password.Some?
  {
    if item.username.None? then Some(KeychainError(CannotCreateTitle, UsernameNotSet))
    else if item.password.None? then Some(KeychainError(CannotCreateTitle, UsernameNotSet))
    else None
  }

  /** As written, an item whose username is set but whose password is not is
      told that its username is not set, and cannot be told apart from an
      item that lacks the username. */
  lemma AsWrittenBlamesUsername(service: string, stored: bool, user: string)
    ensures ValidateAsWritten(KeychainPassword(service, stored, Some(user), None))
              == Some(KeychainError(CannotCreateTitle, UsernameNotSet))
    ensures ValidateAsWritten(KeychainPassword(service, stored, Some(user), None))
              == ValidateAsWritten(KeychainPassword(service, stored, None, Some(user)))
  {
  }

  /** The field checks of `save()` with the message naming the missing
      field: the username is checked first, then the password. */
  function Validate(item: KeychainPassword): (r: Option<KeychainError>)
    ensures r.None? <==> item.username.Some? && item.password.Some?
    ensures r.Some? ==> r.value.title == CannotCreateTitle
    ensures r.Some? ==> (r.value.message == UsernameNotSet <==> item.username.None?)
    ensures r.Some? ==> (r.value.message == PasswordNotSet <==> item.username.Some? && item.password.None?)
  {
    if item.username.None? then Some(KeychainError(CannotCreateTitle, UsernameNotSet))
    else if item.password.None? then Some(KeychainError(CannotCreateTitle, PasswordNotSet))
    else None
  }

  /** The keychain call `save()` makes. */
  datatype Operation = Create | Update

  /** The item and keychain after `save()`, the call it attempted, and the
      error it threw, if any. */
  datatype SaveOutcome = SaveOutcome(
    item: KeychainPassword,
    store: Store,
    attempted: Option<Operation>,
    error: Option<KeychainError>)

  /** What `save()` does once its field checks have produced `check`: a
      failed check throws it with item and keychain unchanged; otherwise an
      item known to be stored is updated and any other is created, and
      `writeSucceeds` is the keychain's answer. Only a successful write marks
      the item as stored. */
  predicate SavesPer(check: Option<KeychainError>, item: KeychainPassword, store: Store,
                     writeSucceeds: bool, r: SaveOutcome)
  {
    && r.item.service == item.service
    && r.item.username == item.username && r.item.password == item.password
    && (check.Some? ==> r.error == check && r.attempted.None? && r.item == item && r.store == store)
    && (check.None? ==> r.attempted == Some(if item.stored then Update else Create))
    && (r.error.None? <==> check.None? && writeSucceeds)
    && (r.error.None? ==>
          r.item.stored && item.password.Some?
          && r.store == store[item.service := StoredItem(item.username, Text(item.password.value))])
    && (r.error.Some? ==> r.item == item && r.store == store)
    && (r.attempted == Some(Update) && r.error.Some? ==> r.error == Some(UpdateFailed))
    && (r.attempted == Some(Create) && r.error.Some? ==> r.error == Some(AddFailed))
  }

  /** The keychain call of `save()`, reached once both fields are set. */
  function Write(item: KeychainPassword, store: Store, writeSucceeds: bool): SaveOutcome
    requires item.password.Some?
  {
    var op := if item.stored then Update else Create;
    if !writeSucceeds then
      SaveOutcome(item, store, Some(op), Some(if op == Update then UpdateFailed else AddFailed))
    else
      var written := StoredItem(item.username, Text(item.password.value));
      SaveOutcome(item.(stored := true), store[item.service := written], Some(op), None)
  }

  /** `save()` as the source writes it, with its field checks. */
  function SaveAsWritten(item: KeychainPassword, store: Store, writeSucceeds: bool): (r: SaveOutcome)
    ensures SavesPer(ValidateAsWritten(item), item, store, writeSucceeds, r)
  {
    match ValidateAsWritten(item)
    case Some(e) => SaveOutcome(item, store, None, Some(e))
    case None => Write(item, store, writeSucceeds)
  }

  /** `save()` with the corrected field checks; the rest of the model uses
      this one. */
  function Save(item: KeychainPassword, store: Store, writeSucceeds: bool): (r: SaveOutcome)
    ensures SavesPer(Validate(item), item, store, writeSucceeds, r)
  {
    match Validate(item)
    case Some(e) => SaveOutcome(item, store, None, Some(e))
    case None => Write(item, store, writeSucceeds)
  }

  /** As written, saving an item whose username is set but whose password is
      not throws the username message, where the corrected save names the
      password. */
  lemma SaveAsWrittenMisreports(service: string, stored: bool, user: string, store: Store, writeSucceeds: bool)
    ensures SaveAsWritten(KeychainPassword(service, stored, Some(user), None), store, writeSucceeds).error
              == Some(KeychainError(CannotCreateTitle, UsernameNotSet))
    ensures Save(KeychainPassword(service, stored, Some(user), None), store, writeSucceeds).error
              == Some(KeychainError(CannotCreateTitle, PasswordNotSet))
  {
  }

  /** The two saves differ only in that message: whenever the password is
      set or the username is missing, they give the same outcome, and
      otherwise they differ in nothing but the error thrown. */
  lemma SavesAgreeExceptMessage(item: KeychainPassword, store: Store, writeSucceeds: bool)
    ensures item.username.None? || item.password.Some? ==>
              SaveAsWritten(item, store, writeSucceeds) == Save(item, store, writeSucceeds)
    ensures item.username.Some? && item.password.None? ==>
              SaveAsWritten(item, store, writeSucceeds).(error := None)
                == Save(item, store, writeSucceeds).(error := None)
              && SaveAsWritten(item, store, writeSucceeds).error.value.message == UsernameNotSet
              && Save(item, store, writeSucceeds).error.value.message == PasswordNotSet
  {
  }

  /** What a successful save wrote is what a later lookup reads back. */
  lemma SaveThenLookup(item: KeychainPassword, store: Store)
    requires Save(item, store, true).error.None?
    ensures Lookup(Save(item, store, true).store, item.service) == Save(item, store, true).item
  {
  }

  /** Saving an item exactly as it was looked up leaves what a lookup reads
      unchanged (a missing account is written back as ""). */
  lemma LookupSaveLookup(store: Store, service: string)
    requires Lookup(store, service).stored
    ensures Save(Lookup(store, service), store, true).error.None?
    ensures Lookup(Save(Lookup(store, service), store, true).store, service) == Lookup(store, service)
  {
  }

  /** A save touches only its own service's entry. */
  lemma SaveTouchesOnlyItsService(item: KeychainPassword, store: Store, writeSucceeds: bool, other: string)
    requires other != item.service
    ensures other in Save(item, store, writeSucceeds).store <==> other in store
    ensures other in store ==> Save(item, store, writeSucceeds).store[other] == store[other]
  {
  }
}
