# Fetcher core, modelled in Dafny

Fetcher is a macOS menu-bar application that watches a set of local git
working copies found under configured root folders. This project models its
sequential core as pure Dafny functions over immutable values, with the
outside world passed in as plain values:

- **Root folders** (`Preferences`): the ordered list of roots. `addPath`
  ignores a path that is already listed and appends a new one. `removePath`
  drops every occurrence of a path.
- **Discovery** (`Discovery`): `findRepositories(in:)` looks at the immediate
  children of one root. It keeps each child that has a `.git` entry and
  opens as a repository. `reload(_:)` concatenates the results of all roots
  in root order and replaces the displayed list. A reload requested while
  one is running is dropped.
- **Repository items** (`RepositoryItems`): the item's name and parent
  folder come from its URL. The head label is the branch name, the first
  seven characters of a detached commit's hash, or nothing. The module also
  covers the Xcode-project lookup, the icon priority and the choice of
  application made by `open()` / `openInXcode()`.
- **Fetch errors and the error log** (`FetchErrors`, `ErrorLog`): record
  equality on URL, error description and date. The error-log window's
  refresh appends the log entries it does not display yet.
- **Keychain items** (`Keychain`, `AuthenticationPane`): a keychain item
  looks up its entry once. `save()` checks its fields, then updates a stored
  entry or creates a new one. The authentication pane adds its own checks on
  top, and it writes a key path to the preferences only when the value
  differs.

The outside world is reduced to values in `Environment.Env`:

- the file system is a map from path to node, where a directory lists its
  children in enumeration order;
- GitKit's `Repository(url:)` becomes the map of paths that open, each with
  its head;
- LaunchServices' application lookup becomes the set of installed bundle
  identifiers.

The keychain is a map from service name to the stored account and secret.
Whether a keychain write succeeds is a boolean input. URL arithmetic
(`appendingPathComponent`, `lastPathComponent`,
`deletingLastPathComponent`, `pathExtension`) is modelled on strings in
`PathNames`.

Observed behaviour that the model keeps as written:

- With smart open on, a repository that has a `.vscode` folder but no usable
  Xcode project opens in VS Code. If VS Code is not installed, nothing
  happens: `open()` returns without falling back to the default handler.
- The error-log refresh checks log entries only against the entries that
  were displayed before the refresh. Two equal entries inside the log are
  therefore both appended.
- Swift's `contains` on an array of `FetchError` objects compares them with
  `isEqual`. The merge therefore uses record equality, not identity.

## Model

| member | source | states |
|---|---|---|
| Preferences.AddPath | Fetcher/Classes/Preferences.swift:37-47 | afterwards the path is listed; the listed paths are the old ones plus this one; the length grows by one exactly when the path was absent; the old entries stay an unchanged prefix; a duplicate-free list stays duplicate-free |
| Preferences.RemovePath | Fetcher/Classes/Preferences.swift:49-54 | afterwards the path does not occur; exactly the other listed paths remain; the list never grows; a duplicate-free list stays duplicate-free |
| Preferences.RemovePathCounts | Fetcher/Classes/Preferences.swift:52 | every occurrence of the path is removed, and every other path keeps its multiplicity |
| Preferences.RemovePathAppend | Fetcher/Classes/Preferences.swift:52 | removal distributes over concatenation, so the remaining entries keep their relative order |
| Preferences.RemovePathAbsent | Fetcher/Classes/Preferences.swift:52 | removing a path that is not listed leaves the list unchanged |
| Preferences.AddPathIdempotent | Fetcher/Classes/Preferences.swift:39-46 | adding the same path twice gives the same list as adding it once |
| Preferences.RemovePathIdempotent | Fetcher/Classes/Preferences.swift:52 | removing the same path twice gives the same list as removing it once |
| Preferences.RemoveUndoesAdd | Fetcher/Classes/Preferences.swift:37-54 | removing a path that was just added to a list without it restores the list |
| Preferences.EditsKeepNoDuplicates | Fetcher/Classes/Preferences.swift:37-54 | any sequence of adds and removes applied to a duplicate-free list leaves it duplicate-free |
| Preferences.EditsFromDefaults | Fetcher/Classes/Preferences.swift:31-54 | the root list, which starts empty, holds no path twice after any series of adds and removes |
| PathNames.JoinSplit | Fetcher/Classes/RepositoryItem.swift:58-59 | for a child name joined onto a folder, the last path component is the name; for a folder in normal form, the parent path is the folder |
| PathNames.PathExtensionIs | Fetcher/Classes/RepositoryItem.swift:218 | a name has a given dot-free extension exactly when it ends in a dot plus that extension with at least one character before the dot |
| RepositoryItems.ShortHash | Fetcher/Classes/RepositoryItem.swift:73 | the short hash is a prefix of the hash, of length min(7, hash length) |
| RepositoryItems.HeadText | Fetcher/Classes/RepositoryItem.swift:62-81 | a branch head renders as the branch name; a detached head renders as a prefix of its hash of length min(7, hash length); no head renders as nothing |
| RepositoryItems.HeadColorOf | Fetcher/Classes/RepositoryItem.swift:62-81 | the colour is absent exactly when the label is; it is orange exactly for a detached head |
| RepositoryItems.XcodeProject | Fetcher/Classes/RepositoryItem.swift:200-225 | nothing exactly when no immediate child has extension "xcodeproj"; otherwise the first such child in enumeration order, joined onto the repository path |
| RepositoryItems.XcodeProjectNameIff | Fetcher/Classes/RepositoryItem.swift:218 | a child counts as an Xcode project exactly when its name is "something.xcodeproj" |
| RepositoryItems.IconFor | Fetcher/Classes/RepositoryItem.swift:227-240 | the Xcode icon exactly when a project exists; the VS Code icon exactly when no project exists and `.vscode` does; the default icon otherwise |
| RepositoryItems.MakeItem | Fetcher/Classes/RepositoryItem.swift:53-99 | the initializer fails exactly when the repository does not open. A created item keeps its URL, is named after the URL's last component, sits in the URL's parent folder, carries the icon chosen for the URL, and shows the head label and colour of the repository's head (both absent without a head) |
| RepositoryItems.ItemOfChild | Fetcher/Classes/RepositoryItem.swift:57-81 | the item for a child of a folder in normal form is named after the child, sits in that folder and shows the repository's head |
| RepositoryItems.OpenIn | Fetcher/Classes/RepositoryItem.swift:117-146 | opening with a bundle identifier succeeds and launches exactly when that application is installed; otherwise it reports false and does nothing |
| RepositoryItems.OpenInXcode | Fetcher/Classes/RepositoryItem.swift:166-175 | true exactly when a project exists and Xcode is installed, in which case Xcode opens the project; without a project it returns false and does nothing |
| RepositoryItems.Open | Fetcher/Classes/RepositoryItem.swift:177-198 | without smart open, always the default handler. With smart open: Xcode exactly when a project exists and Xcode is installed; otherwise VS Code on the folder if `.vscode` exists, doing nothing when VS Code is missing; otherwise the default handler |
| RepositoryItems.IconPredictsOpen | Fetcher/Classes/RepositoryItem.swift:166-240 | with smart open, the default image means the folder is revealed; the VS Code image means VS Code opens the folder, or nothing happens when it is missing; the Xcode image means Xcode opens the project when installed, and otherwise the choice falls through to VS Code or the default handler |
| RepositoryItems.XcodeIconMayReveal | Fetcher/Classes/RepositoryItem.swift:177-240 | a repository "/r" holding "App.xcodeproj" and no `.vscode` folder, on a machine without Xcode, shows the Xcode image while smart open reveals the folder |
| Discovery.ChildItemsQualifying | Fetcher/Classes/MainViewController.swift:149-160 | a child contributes its item exactly when it has a `.git` entry and opens; otherwise it contributes nothing |
| Discovery.Scan | Fetcher/Classes/MainViewController.swift:138-163 | a scan yields at most one item per enumerated child |
| Discovery.SkipsNonQualifying | Fetcher/Classes/MainViewController.swift:152-160 | a child without `.git`, or one that fails to open, is skipped and the scan of the remaining children is unaffected |
| Discovery.Repositories | Fetcher/Classes/MainViewController.swift:124-163 | a root that is missing or not a directory yields nothing; a root never yields more items than it has immediate children |
| Discovery.RepositoriesExactly | Fetcher/Classes/MainViewController.swift:124-163 | an item is found under a root exactly when the root is a directory and the item comes from one of its immediate children that has a `.git` entry and opens |
| Discovery.RepositoriesUnderRoot | Fetcher/Classes/MainViewController.swift:149-159 | every item found under a root in normal form is named after one of its children, has the root as parent path, and its repository opens |
| Discovery.FindRepositories | Fetcher/Classes/MainViewController.swift:124-164 | the enumeration loop computes exactly the reference scan of the root |
| Discovery.CollectAppend | Fetcher/Classes/MainViewController.swift:103-108 | collecting over concatenated root lists gives the concatenated results, so root order is kept |
| Discovery.CollectMembers | Fetcher/Classes/MainViewController.swift:103-108 | an item is collected exactly when some configured root yields it |
| Discovery.ScanAll | Fetcher/Classes/MainViewController.swift:95-108 | the loop over the configured roots computes exactly the concatenation of their scans, in root order |
| Discovery.BeginReload | Fetcher/Classes/MainViewController.swift:86-101 | a request is dropped exactly when a reload is running; otherwise `updating` is raised, the display is untouched, and the configured roots are read |
| Discovery.Reload | Fetcher/Classes/MainViewController.swift:86-122 | while updating nothing changes; otherwise updating ends false and the display holds exactly the items some configured root yields |
| Discovery.ReloadWhileUpdating | Fetcher/Classes/MainViewController.swift:88-101 | once a reload has started, another request changes nothing, whatever the preferences say |
| Discovery.ReloadReplacesAll | Fetcher/Classes/MainViewController.swift:112-119 | a completed reload does not depend on what was displayed before |
| Discovery.ReloadIdempotent | Fetcher/Classes/MainViewController.swift:86-122 | reloading twice over unchanged roots and file system gives the same view as reloading once |
| FetchErrors.FromStatus | Fetcher/Classes/FetchError.swift:33-42 | the status becomes the error code and the message the description, in the application's error domain, with URL and date kept |
| FetchErrors.IsEqualOnlyFetchErrors | Fetcher/Classes/FetchError.swift:51-64 | nil and objects that are not fetch errors are never equal to a fetch error; `isEqual(to:)` agrees with `isEqual(_:)` |
| FetchErrors.SameIff | Fetcher/Classes/FetchError.swift:58 | two records are equal exactly when URL, description and date agree |
| FetchErrors.SameIsEquivalence | Fetcher/Classes/FetchError.swift:58 | record equality is reflexive, symmetric and transitive |
| FetchErrors.StatusIgnored | Fetcher/Classes/FetchError.swift:58 | failures that differ only in status code are equal |
| FetchErrors.DatesKeepFailuresApart | Fetcher/Classes/FetchError.swift:58 | failures at different times are never equal, so a repeated failure is a new record |
| ErrorLog.NewEntries | Fetcher/Classes/ErrorLogWindowController.swift:78-84 | an entry is selected exactly when it is in the log and no displayed entry equals it |
| ErrorLog.NewEntriesAppend | Fetcher/Classes/ErrorLogWindowController.swift:78-84 | selection distributes over concatenation of the log, so selected entries keep log order |
| ErrorLog.NothingNew | Fetcher/Classes/ErrorLogWindowController.swift:78-84 | a log whose entries are all displayed selects nothing |
| ErrorLog.Merge | Fetcher/Classes/ErrorLogWindowController.swift:67-90 | content that is not a list of fetch errors is left alone. Otherwise the old entries stay in place as a prefix, every appended entry comes from the log and was not displayed, and afterwards every log entry is displayed |
| ErrorLog.MergeIdempotent | Fetcher/Classes/ErrorLogWindowController.swift:67-90 | merging the same log into the merged content changes nothing |
| ErrorLog.ContainsRecord | Fetcher/Classes/ErrorLogWindowController.swift:80 | the linear search answers true exactly when some displayed entry equals the log entry |
| ErrorLog.Update | Fetcher/Classes/ErrorLogWindowController.swift:67-90 | the loop over the log computes exactly the merge |
| Keychain.Lookup | Fetcher/Classes/KeychainPassword.swift:34-67 | the item is stored exactly when an entry exists and its secret decodes. A stored item carries the decoded password and the account, with a missing account read as "". Otherwise username and password are absent. The service is the one asked for |
| Keychain.ValidateAsWritten | Fetcher/Classes/KeychainPassword.swift:71-79 | the field checks as written: they pass exactly when username and password are both set |
| Keychain.AsWrittenBlamesUsername | Fetcher/Classes/KeychainPassword.swift:76-79 | as written, a missing password is reported with the username message, the same error as a missing username |
| Keychain.Validate | Fetcher/Classes/KeychainPassword.swift:71-79 | the checks pass exactly when both fields are set; a failure's message names the username exactly when it is missing, and names the password exactly when only the password is missing |
| Keychain.SaveAsWritten | Fetcher/Classes/KeychainPassword.swift:69-137 | `save()` as written: a failed field check (as written) throws with item and store unchanged. Otherwise the call is an update when the item is stored and a create when it is not. The save succeeds exactly when the write does; success marks the item stored and maps its service to (username, password); a failed write throws the matching add or update error with item and store unchanged. The service never changes |
| Keychain.Save | Fetcher/Classes/KeychainPassword.swift:69-137 | the same outcome with the corrected field checks, so a missing password is reported as such |
| Keychain.SaveAsWrittenMisreports | Fetcher/Classes/KeychainPassword.swift:71-79 | saving an item with a username and no password throws the username message as written, and the password message once corrected |
| Keychain.SavesAgreeExceptMessage | Fetcher/Classes/KeychainPassword.swift:69-137 | the two saves give the same outcome whenever the password is set or the username is missing; otherwise they differ only in the error thrown |
| Keychain.SaveThenLookup | Fetcher/Classes/KeychainPassword.swift:34-137 | after a successful save, a fresh lookup of the service gives back the saved item |
| Keychain.LookupSaveLookup | Fetcher/Classes/KeychainPassword.swift:34-137 | saving a stored item unchanged succeeds when the write does, and a later lookup reads the same values |
| Keychain.SaveTouchesOnlyItsService | Fetcher/Classes/KeychainPassword.swift:100-133 | a save never adds, removes or changes the entry of any other service |
| AuthenticationPane.Load | Fetcher/Classes/PreferencesAuthenticationViewController.swift:74-84 | the two items are the lookups of their own services, stored flags included. The HTTP fields show the stored values or "", the passphrase shows the stored SSH secret, and the key paths come from the preferences |
| AuthenticationPane.SavePassword | Fetcher/Classes/PreferencesAuthenticationViewController.swift:103-132 | beeps, changing nothing, exactly when the item is not loaded or username or password is missing or empty. Otherwise the item takes the entered values, and the store maps the HTTP service to exactly them when the write succeeds; a failed write alerts with the store unchanged |
| AuthenticationPane.SavePassphrase | Fetcher/Classes/PreferencesAuthenticationViewController.swift:134-163 | beeps, changing nothing, exactly when the item is not loaded or the passphrase is missing or empty. Otherwise the store maps the SSH service to an empty account and the passphrase when the write succeeds; a failed write alerts with the store unchanged |
| AuthenticationPane.UnloadedSavesBeep | Fetcher/Classes/PreferencesAuthenticationViewController.swift:103-141 | before the view has loaded there is no keychain item, and both save buttons only beep, changing nothing |
| AuthenticationPane.PaneSavesAsWritten | Fetcher/Classes/PreferencesAuthenticationViewController.swift:103-148 | behind the pane's guards both fields are set, so the pane's save is exactly `save()` as written |
| AuthenticationPane.CredentialsKeptApart | Fetcher/Classes/PreferencesAuthenticationViewController.swift:78-79 | saving the HTTP password never touches the SSH entry, and saving the passphrase never touches the HTTP entry |
| AuthenticationPane.SavedPasswordReloads | Fetcher/Classes/PreferencesAuthenticationViewController.swift:78-117 | after a successful HTTP save, loading the pane again shows the entered username and password |
| AuthenticationPane.SavedPassphraseReloads | Fetcher/Classes/PreferencesAuthenticationViewController.swift:79-148 | after a successful passphrase save, loading the pane again shows the entered passphrase |
| AuthenticationPane.SetKeyPath | Fetcher/Classes/PreferencesAuthenticationViewController.swift:33-53 | the pane and the preference both end with the new key path. The preference is written exactly when the new value differs from the stored one, and nothing else changes |
| AuthenticationPane.EchoDoesNotWrite | Fetcher/Classes/PreferencesAuthenticationViewController.swift:86-98 | the observer copying a written value back into the pane writes nothing and changes nothing, so the exchange stops after one write |
| AuthenticationPane.LoadWritesNoKeyPath | Fetcher/Classes/PreferencesAuthenticationViewController.swift:83-84 | setting the key paths from the preferences while loading writes nothing back |

## Left out

- Persistence of preferences through reflection, key-value observing and `UserDefaults` (`Preferences.init`, `observeValue`, `deinit`) is I/O and runtime introspection. The model treats preferences as a plain record. The fields `lastStart`, `autoCheckForUpdates` and `sorting` are not read by the modelled code and are not modelled.
- `reload(_:)`'s background queue and the two `DispatchQueue.main.sync` hand-overs are collapsed into sequential steps: `BeginReload`, the scan, then `FinishReload`. The race on `updating`, which is set only inside the background block, is concurrency and is not modelled.
- The error-log window's 0.5-second timer and its hop to a global queue and back are concurrency. The shared `Logger` and its `clear()` are not part of this model: the log is passed in as a sequence.
- `FileManager.enumerator(atPath:)` returning nil for an existing directory (an unreadable one, say) is not modelled. An existing directory always lists its children.
- URL handling covers absolute '/'-separated paths without trailing separators, apart from the root "/". Relative paths, symbolic links, percent-encoding and `..` are not modelled.
- `pathExtension` is modelled as the text after the last dot of a name, and as "" when the only dot starts the name. This is how a hidden file such as ".xcodeproj" is treated.
- GitKit's repository opening and head lookup are foreign code. They are inputs (`Env.repositories`), and the reason an open fails is not modelled.
- `Application.applicationWithBundleID` (LaunchServices and Info.plist reading) is foreign I/O. It is the input set `Env.installed`. `openInTerminal`, `openInBBEdit`, `openInVSCode` and `reveal()` are one-line calls of `OpenIn` or of the default handler and get no members of their own.
- Security framework calls are an abstract map keyed by service name. A failed `SecItemCopyMatching` for any reason is read as "no entry". The keychain's own uniqueness rule on (service, account) and its duplicate-item or item-not-found errors are folded into the boolean `writeSucceeds`.
- Keychain.SaveThenLookup: holds for the model's store keyed by service alone. The real keychain keys a generic password on (service, account), so a create after a lookup that found no decodable entry, with a username that differs from an undecodable entry's account, leaves two entries under the service, and a later single-match lookup may return the old one. That case is not modelled.
- String equality: paths, error descriptions and key paths are compared code point by code point, while Swift's `String ==` (used by `contains` and `removeAll` in Preferences.swift:39 and 52, by `isEqual` in FetchError.swift:58, and by the key-path setters in PreferencesAuthenticationViewController.swift:37 and 48) uses canonical equivalence. Preferences.AddPath, Preferences.RemovePath, Preferences.NoDuplicates, FetchErrors.Same and AuthenticationPane.SetKeyPath therefore treat canonically equivalent but differently encoded strings ("é" as one code point or as "e" plus a combining accent) as different.
- The "Invalid Password" throw in `create` / `update` is not modelled. It cannot happen, because a Swift string always encodes as UTF-8.
- Alert presentation (sheet or modal), beeps and the key-file open panel are presentation. Alerts and beeps become the `Feedback` values.
- Sort descriptors (locale-dependent comparison) are not modelled: order on screen is presentation. `NSImage` and `NSColor` become enum tags. `Date` is an integer compared only for equality.
- The controllers in ApplicationDelegate.swift, PreferencesGeneralViewController.swift, PreferencesPathsViewController.swift and PreferencesWindowController.swift are UI glue. The `saveInKeychain` action in PreferencesWindowController.swift repeats the HTTP guard of `SavePassword`, under the service "Fetcher Git Credentials".

## Findings

| source | as written | input that shows it | evidently intended | confidence | as-written member | corrected member |
|---|---|---|---|---|---|---|
| Fetcher/Classes/KeychainPassword.swift:76-79 | when the password is nil, `save()` throws "Username is not set to a valid value." | an item with username "alice" and password nil | a message that names the missing password | not executed; high (the message is a copy of the username case two lines above; `Keychain.SaveAsWrittenMisreports` exhibits it) | Keychain.SaveAsWritten | Keychain.Save |
