/**
  The authentication preferences pane: HTTP username and password and the
  SSH key passphrase, each kept in its own keychain item, and the two key
  paths, mirrored into the preferences.
 */
module AuthenticationPane {
  import opened Common
  import opened PathNames
  import opened Preferences
  import opened Keychain

  const HttpService := "Fetcher HTTP Credentials"
  const SshService := "Fetcher SSH Credentials"

  /** The pane's fields; `http` and `ssh` are absent until the view loads. */
  datatype Pane = Pane(
    username: Option<string>,
    password: Option<string>,
    passphrase: Option<string>,
    publicKeyPath: Option<Path>,
    privateKeyPath: Option<Path>,
    http: Option<KeychainPassword>,
    ssh: Option<KeychainPassword>)

  /** The pane before its view has loaded. */
  const Unloaded: Pane := Pane(None, None, None, None, None, None, None)

  /** The keychain items, once present, address their own services. */
  predicate ItemsAddressed(pane: Pane) {
    && (pane.http.Some? ==> pane.http.value.service == HttpService)
    && (pane.ssh.Some? ==> pane.ssh.value.service == SshService)
  }

  /** `viewDidLoad()`: both items are looked up; the HTTP fields show the
      stored values or "", the passphrase field the stored secret, and the key
      paths come from the preferences. */
  function Load(store: Store, prefs: Prefs): (pane: Pane)
    ensures ItemsAddressed(pane)
    ensures pane.http == Some(Lookup(store, HttpService)) && pane.ssh == Some(Lookup(store, SshService))
    ensures pane.username == Some(Lookup(store, HttpService).username.GetOr(""))
    ensures pane.password == Some(Lookup(store, HttpService).password.GetOr(""))
    ensures pane.passphrase == Lookup(store, SshService).password
    ensures pane.publicKeyPath == prefs.publicKeyPath && pane.privateKeyPath == prefs.privateKeyPath
  {
    var http := Lookup(store, HttpService);
    var ssh := Lookup(store, SshService);
    Pane(Some(http.username.GetOr("")), Some(http.password.GetOr("")), ssh.password,
         prefs.publicKeyPath, prefs.privateKeyPath, Some(http), Some(ssh))
  }

  /** What the user sees after pressing a save button. */
  datatype Feedback = Beep | Saved | Alert(error: KeychainError)

  datatype PaneOutcome = PaneOutcome(pane: Pane, store: Store, feedback: Feedback)

  predicate NonEmpty(s: Option<string>) {
    s.Some? && |s.value| > 0
  }

  /** The checks `savePasswordInKeychain` makes before touching the item. */
  predicate HttpSaveAllowed(pane: Pane) {
    pane.http.Some? && NonEmpty(pane.username) && NonEmpty(pane.password)
  }

  /** The checks `savePassphraseInKeychain` makes before touching the item. */
  predicate SshSaveAllowed(pane: Pane) {
    pane.ssh.Some? && NonEmpty(pane.passphrase)
  }

  /** Runs `save()` on `item` and reports the result. */
  function SaveItem(item: KeychainPassword, store: Store, writeSucceeds: bool): (Option<KeychainPassword>, Store, Feedback) {
    var out := Save(item, store, writeSucceeds);
    (Some(out.item), out.store,
     if out.error.None? then Saved else Alert(out.error.value))
  }

  /** `savePasswordInKeychain`: beeps without a loaded item or with an empty
      username or password; otherwise copies both into the HTTP item and
      saves it, alerting on failure. */
  function SavePassword(pane: Pane, store: Store, writeSucceeds: bool): (r: PaneOutcome)
    ensures r.feedback == Beep <==> !HttpSaveAllowed(pane)
    ensures r.feedback == Beep ==> r.pane == pane && r.store == store
    ensures r.feedback == Saved <==> HttpSaveAllowed(pane) && writeSucceeds
    ensures r.feedback == Saved ==>
              r.store == store[pane.http.value.service :=
                                 StoredItem(pane.username, Text(pane.password.value))]
    ensures r.feedback.Alert? ==> r.store == store
    ensures r.feedback != Beep ==>
              r.pane.http.Some? && r.pane.http.value.username == pane.username
              && r.pane.http.value.password == pane.password
              && r.pane.(http := pane.http) == pane
  {
    if !HttpSaveAllowed(pane) then PaneOutcome(pane, store, Beep)
    else
      var item := pane.http.value.(username := pane.username, password := pane.password);
      var (http, store', feedback) := SaveItem(item, store, writeSucceeds);
      PaneOutcome(pane.(http := http), store', feedback)
  }

  /** `savePassphraseInKeychain`: beeps without a loaded item or with an
      empty passphrase; otherwise stores the passphrase under an empty
      account name in the SSH item, alerting on failure. */
  function SavePassphrase(pane: Pane, store: Store, writeSucceeds: bool): (r: PaneOutcome)
    ensures r.feedback == Beep <==> !SshSaveAllowed(pane)
    ensures r.feedback == Beep ==> r.pane == pane && r.store == store
    ensures r.feedback == Saved <==> SshSaveAllowed(pane) && writeSucceeds
    ensures r.feedback == Saved ==>
              r.store == store[pane.ssh.value.service := StoredItem(Some(""), Text(pane.passphrase.value))]
    ensures r.feedback.Alert? ==> r.store == store
    ensures r.feedback != Beep ==>
              r.pane.ssh.Some? && r.pane.ssh.value.username == Some("")
              && r.pane.ssh.value.password == pane.passphrase
              && r.pane.(ssh := pane.ssh) == pane
  {
    if !SshSaveAllowed(pane) then PaneOutcome(pane, store, Beep)
    else
      var item := pane.ssh.value.(username := Some(""), password := pane.passphrase);
      var (ssh, store', feedback) := SaveItem(item, store, writeSucceeds);
      PaneOutcome(pane.(ssh := ssh), store', feedback)
  }

  /** Before the view loads there is no keychain item, so both save buttons
      only beep. */
  lemma UnloadedSavesBeep(store: Store, writeSucceeds: bool)
    ensures SavePassword(Unloaded, store, writeSucceeds) == PaneOutcome(Unloaded, store, Beep)
    ensures SavePassphrase(Unloaded, store, writeSucceeds) == PaneOutcome(Unloaded, store, Beep)
  {
  }

  /** The pane's guards set both fields before `save()` runs, so the save the
      pane performs is exactly `save()` as the source writes it. */
  lemma PaneSavesAsWritten(pane: Pane, store: Store, writeSucceeds: bool)
    ensures HttpSaveAllowed(pane) ==>
              var item := pane.http.value.(username := pane.username, password := pane.password);
              SaveAsWritten(item, store, writeSucceeds) == Save(item, store, writeSucceeds)
    ensures SshSaveAllowed(pane) ==>
              var item := pane.ssh.value.(username := Some(""), password := pane.passphrase);
              SaveAsWritten(item, store, writeSucceeds) == Save(item, store, writeSucceeds)
  {
  }

  /** The two credentials live apart: saving the HTTP password never touches
      the SSH entry, and saving the passphrase never touches the HTTP entry. */
  lemma CredentialsKeptApart(pane: Pane, store: Store, writeSucceeds: bool)
    requires ItemsAddressed(pane)
    ensures SshService in SavePassword(pane, store, writeSucceeds).store <==> SshService in store
    ensures SshService in store ==> SavePassword(pane, store, writeSucceeds).store[SshService] == store[SshService]
    ensures HttpService in SavePassphrase(pane, store, writeSucceeds).store <==> HttpService in store
    ensures HttpService in store ==> SavePassphrase(pane, store, writeSucceeds).store[HttpService] == store[HttpService]
  {
    assert HttpService != SshService;
  }

  /** A saved HTTP password is what the pane shows the next time it loads. */
  lemma SavedPasswordReloads(pane: Pane, store: Store, prefs: Prefs)
    requires ItemsAddressed(pane)
    requires SavePassword(pane, store, true).feedback == Saved
    ensures Load(SavePassword(pane, store, true).store, prefs).username == pane.username
    ensures Load(SavePassword(pane, store, true).store, prefs).password == pane.password
  {
  }

  /** A saved passphrase is what the pane shows the next time it loads. */
  lemma SavedPassphraseReloads(pane: Pane, store: Store, prefs: Prefs)
    requires ItemsAddressed(pane)
    requires SavePassphrase(pane, store, true).feedback == Saved
    ensures Load(SavePassphrase(pane, store, true).store, prefs).passphrase == pane.passphrase
  {
    assert HttpService != SshService;
  }

  /** Which of the two key paths a setter handles. */
  datatype KeyPath = PublicKey | PrivateKey

  function PaneKeyPath(pane: Pane, which: KeyPath): Option<Path> {
    match which
    case PublicKey => pane.publicKeyPath
    case PrivateKey => pane.privateKeyPath
  }

  function PrefsKeyPath(prefs: Prefs, which: KeyPath): Option<Path> {
    match which
    case PublicKey => prefs.publicKeyPath
    case PrivateKey => prefs.privateKeyPath
  }

  datatype SetOutcome = SetOutcome(pane: Pane, prefs: Prefs, wrote: bool)

  /** The key-path setters with their `didSet`: the pane takes the new value,
      and the preference is written only when it differs from the new value. */
  function SetKeyPath(pane: Pane, prefs: Prefs, which: KeyPath, v: Option<Path>): (r: SetOutcome)
    ensures PaneKeyPath(r.pane, which) == v && PrefsKeyPath(r.prefs, which) == v
    ensures r.wrote <==> v != PrefsKeyPath(prefs, which)
    ensures !r.wrote ==> r.prefs == prefs
    ensures which == PublicKey ==>
              r.pane == pane.(publicKeyPath := v) && r.prefs == prefs.(publicKeyPath := v)
    ensures which == PrivateKey ==>
              r.pane == pane.(privateKeyPath := v) && r.prefs == prefs.(privateKeyPath := v)
  {
    var pane' := match which
      case PublicKey => pane.(publicKeyPath := v)
      case PrivateKey => pane.(privateKeyPath := v);
    if v == PrefsKeyPath(prefs, which) then SetOutcome(pane', prefs, false)
    else
      var prefs' := match which
        case PublicKey => prefs.(publicKeyPath := v)
        case PrivateKey => prefs.(privateKeyPath := v);
      SetOutcome(pane', prefs', true)
  }

  /** The preference observer copies a written value back into the pane;
      that second call of the setter writes nothing and changes nothing, so
      the round trip between pane and preferences stops after one write. */
  lemma EchoDoesNotWrite(pane: Pane, prefs: Prefs, which: KeyPath, v: Option<Path>)
    ensures var r := SetKeyPath(pane, prefs, which, v);
            var echo := SetKeyPath(r.pane, r.prefs, which, PrefsKeyPath(r.prefs, which));
            !echo.wrote && echo.prefs == r.prefs && echo.pane == r.pane
  {
  }

  /** Loading the pane sets both key paths from the preferences, which
      writes nothing back. */
  lemma LoadWritesNoKeyPath(store: Store, prefs: Prefs, which: KeyPath)
    ensures !SetKeyPath(Load(store, prefs), prefs, which, PrefsKeyPath(prefs, which)).wrote
  {
  }
}
