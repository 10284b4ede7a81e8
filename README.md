# pyfilemail client core, modelled in Dafny

This project models the client-side session and configuration layer of
pyfilemail, a client for the filemail.com file-transfer service. It covers two
parts and proves properties of both.

- **`Config`** (`filemail/config.py`) is a settings store with a closed key
  schema: `apikey`, `password` and `username` are required, and eighteen
  optional keys are allowed.
  - `set` refuses an unknown key, and it refuses `None` for a required key.
  - `get` returns `None` for an absent key.
  - `update` is a best-effort run of `set` calls.
  - `_locateConfig` searches three candidate paths in priority order and
    caches the first usable one.
  - `load` merges the section named after the stored username, through `set`.
  - Modelled as `FilemailConfig.Config`, a class whose fields are `_config`
    and `config_file`. Its methods are proved against pure specification
    functions: `Assign`, `Apply`, `FirstQualifying` and `Loaded`.
- **`User`** (`pyfilemail/users.py`) is the session state machine.
  - The `logintoken` cookie decides `logged_in` and `is_anonymous`.
  - The `login_required` guard refuses every protected call of an anonymous
    session before any request is made.
  - `logout` first requires every owned transfer to be complete.
  - `_restore_transfers` folds the sender's identity: a record sent by this
    user gets `self` as its owner.
  - `get_contact` is a local search over the fetched contacts.
  - Modelled as `Users.User`, a class holding the cookie jar, the settings
    dictionary, the owned transfers and a log of the requests the session
    has issued. The remote service is a parameter: each operation that talks
    to it is given the `Response` (status, JSON body, and the `logintoken`
    cookie it sets, if any).

The filesystem and the process environment are parameters too.
- `FileSystem` maps each path `os.path.isfile` accepts to the sections that
  `ConfigParser` reads from it.
- `Environment` holds the `FILEMAIL_CONFIG_FILE` variable, the package's
  parent directory and the home directory.
- `os.path.basename` and `os.path.join` are modelled with their POSIX
  meaning in module `Paths`.

Where the documentation and the code disagree, the model follows the code:
- `_locateConfig`'s docstring names the variable `FILEMAIL_CONFIG_PATH`, but
  the code reads `FILEMAIL_CONFIG_FILE`.
- The second candidate is the package's parent directory, not the current
  directory.
- `get_received_files` documents ages "between 1 and 90" but checks 0..90.
  An age of 0 is falsy, so it skips the check. `AgeAccepted` proves that any
  truthy age it accepts really lies in 1..90.

`login` (pyfilemail/users.py:139-158) writes no cookie itself. It sends
`source` only as a request parameter, the token arrives through the session's
cookie jar, and `__init__` (pyfilemail/users.py:58) sets the `source` cookie.

## Model

| member | source | states |
|---|---|---|
| `FilemailConfig.Schema` | filemail/config.py:25-52 | three required and eighteen optional keys, all distinct; every required key is valid |
| `FilemailConfig.ValidKey` | filemail/config.py:114-122 | a key is valid exactly when it is required or optional |
| `FilemailConfig.Rejection` | filemail/config.py:75-82 | `set` raises nothing exactly when the key is valid and is not a required key given `None` |
| `FilemailConfig.Assign` | filemail/config.py:65-82 | unknown key: AttributeError, store unchanged; required key with `None`: FMConfigError; an optional key accepts `None`; on success `get(key)` is the value, every other key's value is unchanged, and the schema invariant is kept |
| `FilemailConfig.Config.Set` | filemail/config.py:65-82 | the stored mapping becomes `Assign`'s result on success and is unchanged on error; the schema invariant is kept |
| `FilemailConfig.Config.Get` | filemail/config.py:84-94 | a stored key reads as its stored value and an absent key as `None`, without error; with the invariant, an unknown key reads as `None`, a stored required key is never `None`, and `username` is always present |
| `FilemailConfig.Config.Contents` | filemail/config.py:109-112 | the mapping returned satisfies the schema and holds `username` |
| `FilemailConfig.Apply` | filemail/config.py:96-107 | a bulk update only adds keys and keeps the schema invariant |
| `FilemailConfig.ApplyIsOverlay` | filemail/config.py:103-107 | a bulk update equals the old mapping overlaid with the last value each key gets before the first rejected entry, and reports that entry's error |
| `FilemailConfig.ApplyIdempotent` | filemail/config.py:103-107 | applying the same mapping twice gives the same state and outcome as applying it once |
| `FilemailConfig.ApplyFailsIffSomeRejected` | filemail/config.py:106-107 | a bulk update fails exactly when one of its entries would be refused by `set` |
| `FilemailConfig.ApplyStopsAtFirstRejection` | filemail/config.py:106-107 | when entry i is the first refused one, the entries before it stay applied and entry i's error is raised |
| `FilemailConfig.ApplyFrame` | filemail/config.py:106-107 | a key that no entry mentions keeps its value |
| `FilemailConfig.ApplyThenGet` | filemail/config.py:106-107 | after an accepted update with distinct keys, `get` of each key returns the value given for it |
| `FilemailConfig.Config.Update` | filemail/config.py:96-107 | the loop leaves exactly `Apply`'s state and error, and keeps the invariant |
| `FilemailConfig.Config.constructor` | filemail/config.py:21-53 | a new store holds only `username` and satisfies the invariant; no file is cached yet |
| `FilemailConfig.Config.Create` | filemail/config.py:21-58 | for keyword arguments Python can pass (distinct names, none of them `username`), construction succeeds exactly when the keyword update succeeds; the store is then that update's result and `config_file` is the located file |
| `FilemailConfig.Config.CheckForConfigfile` | filemail/config.py:60-63 | `config_file` becomes the cached path or the result of the search |
| `FilemailConfig.Config.LocateConfig` | filemail/config.py:184-212 | a cached path is returned unchanged; otherwise the first qualifying candidate is returned and cached, and `None` when none qualifies |
| `FilemailConfig.FirstQualifyingIsFirst` | filemail/config.py:206-212 | the search returns a qualifying candidate before which none qualifies, and nothing exactly when no candidate qualifies |
| `FilemailConfig.JoinedCandidatesNeedOnlyExist` | filemail/config.py:200-208 | the installation-relative and home candidates qualify exactly when they are files |
| `FilemailConfig.SearchOrder` | filemail/config.py:196-212 | the variable's path is used if it is a file named `filemail.cfg`, else the installation file if it exists, else the home file if it exists, else nothing |
| `Paths.Basename` | filemail/config.py:208 | the basename is the longest suffix without '/' |
| `Paths.BasenameOfJoin` | filemail/config.py:202-203 | joining a directory with a plain file name gives a path with that basename |
| `FilemailConfig.Config.Load` | filemail/config.py:149-166 | an uncached path is located first; with no file the store is unchanged; otherwise the result is `Loaded`'s state and error, and the invariant is kept |
| `FilemailConfig.LoadedNeverNullsRequired` | filemail/config.py:159-166 | disk values are strings, so loading fails only on an unknown key or an unreadable file |
| `FilemailConfig.LoadedOverrides` | filemail/config.py:160-166 | when the username's section exists and has valid, distinct keys, every on-disk value overrides the stored one |
| `Users.User.LoggedIn` | pyfilemail/users.py:131-137 | logged in exactly when the `logintoken` cookie is present and non-empty |
| `Users.User.IsAnonymous` | pyfilemail/users.py:122-129 | `is_anonymous` is always the negation of `logged_in` |
| `Users.CheckLogin` | pyfilemail/users.py:15-28 | the guard lets a call through exactly when the token is truthy, and otherwise raises the login error |
| `Users.AbsorbDecidesLogin` | pyfilemail/users.py:154-157 | only a `logintoken` cookie set by the response can change the login state; other cookies are kept |
| `Users.User.constructor` | pyfilemail/users.py:44-51 | a new user has no transfers, the loaded settings, only the `apikey` cookie, and has issued no request |
| `Users.User.New` | pyfilemail/users.py:42-62 | a non-string `apikey` fails; without a password the session is "web", has no token, is not logged in and has issued no request; with one it logs in and is "Desktop" on status 200, and otherwise fails with the service's error |
| `Users.User.Login` | pyfilemail/users.py:139-159 | one `login` request with apikey, username, password and source; returns True on 200 and raises otherwise; the token changes only through the response's cookie |
| `Users.User.TransfersComplete` | pyfilemail/users.py:182-192 | fails exactly when some owned transfer is incomplete, with error 4003 |
| `Users.User.Logout` | pyfilemail/users.py:161-180 | anonymous: refused with no request; any incomplete transfer: error 4003 with no request and the token unchanged; otherwise one `logout` request; on 200 the token is dropped and the user is anonymous; on any other status the service's error is raised and the token is only what the response set |
| `Users.User.RestoreTransfers` | pyfilemail/users.py:308-325 | one transfer per record, in order, with the record copied; the owner is `self` exactly when `from` equals the username, and otherwise the `from` string; a body without `transfers` is a parse error |
| `Users.User.GetSent` | pyfilemail/users.py:194-220 | guarded; one `get_sent` request with the cookie apikey and flags; on 200 the restored transfers, otherwise the service's error |
| `Users.User.GetUserInfo` | pyfilemail/users.py:222-248 | guarded; one `user_get` request; returns the `user` settings and merges them into the settings dictionary only when asked and on success |
| `Users.User.UpdateUserInfo` | pyfilemail/users.py:250-269 | guarded; merges the keyword settings, then sends the whole settings dictionary; True on 200 |
| `Users.AgeAccepted` | pyfilemail/users.py:287-289 | a falsy age is not checked; a truthy one passes exactly when it is an int or bool in 0..90, and then lies in 1..90 days |
| `Users.User.GetReceivedFiles` | pyfilemail/users.py:271-306 | guarded; a bad age fails with no request; otherwise one `received_get` request whose `from` is `age` days before `now`; on 200 the restored transfers |
| `Users.User.GetContacts` | pyfilemail/users.py:327-346 | guarded; one `contacts_get` request; the `contacts` list on 200 |
| `Users.User.FindContact` | pyfilemail/users.py:357-363 | returns the first contact whose email matches, and fails with "not found" exactly when none matches |
| `Users.User.GetContact` | pyfilemail/users.py:348-363 | guarded; one `contacts_get` request; a remote error propagates; otherwise the first contact with that email, or "not found" |
| `Users.User.UpdateContact` | pyfilemail/users.py:365-392 | guarded; a non-dict is refused with no request; otherwise one `contacts_update` request with id, name and email; True on 200 |
| `Users.User.AddContact` | pyfilemail/users.py:394-420 | guarded; one `contacts_add` request with name and email; the new `contact` on 200 |
| `Users.User.DeleteContact` | pyfilemail/users.py:422-447 | guarded; a non-dict is refused with no request; otherwise one `contacts_delete` request with the id; True on 200 |

## Left out

- `Config.save`: it writes to the filesystem, and as written it cannot succeed (`config_file` is unbound when a path is cached, and `self._username` is never assigned). No save/load round trip is claimed.
- `Config._read` and `ConfigParser`: parsing, option-name lower-casing, the `DEFAULT` section and interpolation are not modelled. A file is given directly as its parsed sections.
- `os.getenv`, `os.path.isfile`, `os.path.expanduser` and `__file__`: these become the `Environment` and `FileSystem` parameters.
- Python 2 dictionary iteration order is unspecified. `update` and `load` take their entries as a sequence in whatever order the dictionary yields them.
- `FilemailConfig.Config.Update`: the `isinstance(config, dict)` check is enforced by the parameter's type, so its error path is not modelled.
- `FilemailConfig.Config.constructor`: `username` is typed as a string, so the FMConfigError raised for a `None` username is not modelled.
- `FilemailConfig.Config.Contents`: `config()` returns the live dictionary, so a caller could mutate it behind the schema check. The model returns the mapping as a value, so this aliasing is not captured.
- `load_config`, `save_config` and `get_configfile` (appdirs, JSON file I/O, `makedirs`), and the warning logged for the placeholder API key: these are file I/O and logging. The loaded settings dictionary is a parameter of `Users.User.New`.
- The HTTP transport (`requests.Session`, `get_URL`) and `hellraiser`: they are foreign code. A call appends a `Request` to the session's log and takes in the response's `logintoken` cookie. A failure is modelled as the error built from the body's `errorcode` and `errormessage`. `get_sent` passes the parsed body to `hellraiser` where the others pass the response; the model handles both the same way.
- The `Transfer` collaborator: `Transfer(...)`, `transfer_info.update` and `get_files` are not modelled, so `get_files` issues no request in the model. A transfer is a record carrying its sender, its fields and the completion flag that `is_complete` reports. The collaborator's additions to `self.transfers` are represented by the field being freely assignable.
- A transfer record without `from`, or a contact without `email`, would raise KeyError. These two fields are modelled as always present; only a missing top-level field (`transfers`, `contacts`, `contact`, `user`) is modelled as a parse error.
- `Users.User.GetReceivedFiles`: the clock is the parameter `now`, in whole seconds. `from` is then `now - age * 86400`, which is what `timegm(utctimetuple())` gives for a whole number of days. Floating-point ages are not modelled: a `Value` is `None`, a string, an int or a bool.
- Default arguments: Dafny has none, so every flag is an explicit parameter. The source defaults are `get_sent(expired=False, for_all=False)` (pyfilemail/users.py:195) for `Users.User.GetSent`, `get_user_info(save_to_config=True)` (pyfilemail/users.py:223) for `Users.User.GetUserInfo`, and `get_received_files(age=None, for_all=True)` (pyfilemail/users.py:272) for `Users.User.GetReceivedFiles`. Each contract covers every flag value, the defaults included.
- Keyword arguments of `Config(username, **kwargs)` are a sequence of pairs. A repeated name, or a `username` keyword, raises TypeError in Python before `__init__` runs, so `FilemailConfig.Config.Create` requires distinct names, none of them `username`.
- Concurrency: the code has none.
