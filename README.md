# SiriKali engine layer and ecryptfs backend, modelled in Dafny

SiriKali drives several encrypted-filesystem tools (cryfs, gocryptfs,
securefs, encfs, ecryptfs-simple, sshfs) through one "engine" interface.
This project models two parts of it:

- **The engine layer** (`src/engines.cpp`), in `engines.dfy` and `status.dfy`:
  - the backend description (`BaseOptions`) and its identity accessors
    (`name`, `configFileName`, `setConfigFilePath`, `known`/`unknown`);
  - the per-platform list of supported backends;
  - the registry. Its entries are kept in registration order with the
    "unknown" sentinel first, and the two lookups `getByName` and
    `getByFuseName` share one first-match scan that falls back to the sentinel;
  - `cmdStatus`, the carrier of a status, an exit code and a message. Its
    message setter strips trailing newlines. Equality looks only at the status.
    `toString` is a lookup table.
- **The ecryptfs backend** (`src/engines/ecryptfs.cpp`), in `ecryptfs.dfy`:
  - the fixed backend description;
  - the polkit predicate over the executable's owner and mode;
  - the default configuration path;
  - the `su` wrapper;
  - the unmount retry loop;
  - the mount/create command builder;
  - the error-output classifier.

`text.dfy` holds the string operations these need: substring search, ASCII
lower-casing, quote replacement, space-joining and newline trimming.

Some code updates state in place, and that code is imperative here:
- `cmdStatus` is a class whose `SetMessage` runs the truncation loop.
- The registry is a class whose constructor appends the backends one by one.
- The registry scan is a method with the source's nested loops and early return.
- The unmount retry loop is a method.
- The command builder appends to an `ExeOptions` token object.
- `updateOptions` changes the `configFilePath` field of a `VolumeOptions` object.

Each of these methods is specified by a pure function, and the lemmas state
their properties.

How the environment is represented:
- The executor, the clock, the filesystem and the host environment become
  parameters: the platform, the polkit flag, the resolved `su` and executable
  paths, and the owner uid and mode of the executable.
- The unmount attempts are a sequence of outcomes, one per attempt. The method
  returns the commands it issued and the number of one-second waits.

The `toString` switch has no case for `failedToStartPolkit` or
`failedToUnMount`. Those two statuses reach the code after the switch and are
rendered like `backendFail`: the preamble, the separator line and the stored
message. The model keeps this behaviour (`StatusCodes.RendersLog`).

## Model

| member | source | states |
|---|---|---|
| `Engines.Name` | src/engines.cpp:96-105 | the canonical name is the first alias, or the empty string when the alias list is empty |
| `Engines.ConfigFileName` | src/engines.cpp:107-116 | the canonical config file name is the first entry of its list, or empty when the list is empty |
| `Engines.IsUnknown` | src/engines.cpp:56-64 | `unknown` holds exactly when there is no alias or the first alias is empty |
| `Engines.IsKnown` | src/engines.cpp:56-64 | `known` holds exactly when the first alias exists and is non-empty |
| `Engines.SetConfigFilePath` | src/engines.cpp:118-126 | empty exactly when the backend has no config-file flag; otherwise the flag, one space, then the path, which can be read back from the result |
| `Engines.SentinelIsUnknown` | src/engines.cpp:155 | the fallback entry has no names, so it is `unknown` and its name and config file name are empty |
| `Engines.Supported` | src/engines.cpp:139-151 | Windows offers 3 backends, macOS 4, every other platform 6; each is one of the six known backends, listed in their fixed order and so without repetition; Cryfs and Gocryptfs are offered exactly off Windows, Sshfs exactly off macOS, Ecryptfs exactly off Windows and macOS, Securefs and Encfs everywhere |
| `Engines.FirstListing` | src/engines.cpp:169-190 | the lookup result is 0 exactly when no entry from index 1 on lists the query; otherwise it is an entry at index 1 or more that lists the query, and no earlier entry from index 1 lists it (first match wins, the sentinel is never matched) |
| `Engines.GetEngine` | src/engines.cpp:169-190 | the nested scan with early return yields a valid index equal to the first-match specification |
| `Engines.EarliestAliasResolves` | src/engines.cpp:169-190 | an alias that no earlier registered backend lists resolves to the backend at hand, whatever later backends list |
| `Engines.Registry.constructor` | src/engines.cpp:153-162 | the registry holds the sentinel, then securefs, gocryptfs, cryfs, encfs, ecryptfs and sshfs in that order, so it has seven entries with the sentinel first |
| `Engines.Registry.GetByName` | src/engines.cpp:197-200 | the lower-cased query is looked up in the name lists; the result is the first backend listing it, or the sentinel |
| `Engines.Registry.GetByFuseName` | src/engines.cpp:192-195 | the query is looked up verbatim in the fuse-name lists; the result is the first backend listing it, or the sentinel |
| `Engines.UppercaseAliasUnreachable` | src/engines.cpp:199 | because only the query is lower-cased, a stored name with an upper-case letter can never be matched by name |
| `Text.Lower` | src/engines.cpp:199 | lower-casing keeps the length and maps each character through ASCII lower-casing |
| `Text.LowerHasNoUpper` | src/engines.cpp:199 | a lower-cased query holds no upper-case ASCII letter |
| `Text.LowerIdempotent` | src/engines.cpp:199 | lower-casing twice equals lower-casing once |
| `StatusCodes.CmdStatus.constructor` | src/engines.cpp:206-210 | the carrier keeps the status and exit code it is given and the message with its trailing newlines removed |
| `StatusCodes.CmdStatus.SetMessage` | src/engines.cpp:345-358 | the truncation loop leaves exactly the trimmed form of the input and no trailing newline |
| `Text.TrimTrailingNewlines` | src/engines.cpp:345-358 | the trimmed message is a prefix of the input, does not end in a newline, and everything removed is a newline |
| `Text.TrimUnique` | src/engines.cpp:345-358 | any prefix with those three properties is the trimmed message: exactly the maximal run of trailing newlines goes |
| `Text.TrimIdempotent` | src/engines.cpp:345-358 | trimming an already trimmed message changes nothing |
| `Text.TrimRemovesAppendedNewlines` | src/engines.cpp:345-358 | a message without a trailing newline, followed by k newlines, loses exactly those k |
| `StatusCodes.CmdStatus.Is` | src/engines.cpp:229-232 | `==` holds exactly when the stored status is the one compared with |
| `StatusCodes.CmdStatus.IsNot` | src/engines.cpp:234-237 | `!=` is the negation of `==` |
| `StatusCodes.EqualityIgnoresPayload` | src/engines.cpp:229-237 | two carriers with the same status agree on every comparison, whatever their messages and exit codes |
| `StatusCodes.CmdStatus.ToString` | src/engines.cpp:244-343 | a listed status renders its fixed text; backendFail and the two unlisted statuses render the preamble, the separator line and the message, which therefore never ends in a newline unless the message is empty |
| `StatusCodes.Describe` | src/engines.cpp:244-343 | a status listed in the switch renders its entry of the fixed-text table; the others render the preamble, then the separator line, then the message, which can be read back from the end of the text |
| `StatusCodes.DescribeProperties` | src/engines.cpp:336-342 | a fixed text does not depend on the message; a log-carrying rendering gives back the message after the preamble and separator, so different messages render differently |
| `Ecryptfs.BaseOptions` | src/engines/ecryptfs.cpp:25-54 | the backend is named "ecryptfs" (also its fuse name), runs ecryptfs-simple, uses `--config` and `.ecryptfs.config`, recognises "error: mount failed" and reports ecryptfs_simpleNotFound when missing |
| `Ecryptfs.RegisteredEcryptfsResolves` | src/engines/ecryptfs.cpp:48 | the backend is known, and the display name "Ecryptfs" offered on Linux resolves to it in the registry unless an earlier backend claims the name |
| `Ecryptfs.ResolveEcryptfs` | src/engines.cpp:153-200 | a registry built with this backend in its slot answers a by-name request for "Ecryptfs" with this backend, unless an earlier backend claims the name |
| `Ecryptfs.RequiresPolkit` | src/engines/ecryptfs.cpp:60-80 | off Linux polkit is never needed; on Linux it is needed exactly when the executable is not owned by root or lacks the set-user-ID bit |
| `Ecryptfs.RequiresPolkitProperties` | src/engines/ecryptfs.cpp:60-80 | polkit is not needed exactly off Linux or when the owner uid is 0 and the set-user-ID bit is set; no other mode bit matters |
| `Ecryptfs.ConfigPathFor` | src/engines/ecryptfs.cpp:91-97 | the resolved path is never empty: a given path is kept, an empty one becomes the cipher folder, "/" and ".ecryptfs.config" |
| `Ecryptfs.ConfigPathProperties` | src/engines/ecryptfs.cpp:91-97 | an empty path becomes the cipher folder, "/" and ".ecryptfs.config"; a given path is kept; the result is never empty, so resolving again changes nothing |
| `Ecryptfs.UpdateOptions` | src/engines/ecryptfs.cpp:91-97 | only the config path field changes, and it becomes the resolved path |
| `Ecryptfs.WrapSU` | src/engines/ecryptfs.cpp:117-127 | without an `su` path the command is returned unchanged |
| `Ecryptfs.WrapSUQuoting` | src/engines/ecryptfs.cpp:117-127 | with `su`: the `su` path, then ` - -c "`, then the command with every `"` turned into `'`, then a closing `"`; nothing between the two quotes is a `"`; a quote-free command is carried verbatim |
| `Ecryptfs.UnmountCommand` | src/engines/ecryptfs.cpp:135-147 | without polkit, or with polkit but no `su`, the attempt runs the executable, ` -k ` and the cipher folder; with polkit it is that command passed through the `su` wrapper, so with `su` it starts with the `su` path and ends in a closing quote |
| `Ecryptfs.Budget` | src/engines/ecryptfs.cpp:149-153 | the attempt budget is the larger of 1 and `maxCount`: at least both, and equal to one of them |
| `Ecryptfs.Unmount` | src/engines/ecryptfs.cpp:129-165 | success exactly when one of the first `max(1, maxCount)` attempts succeeds, otherwise failedToUnMount; attempts stop at the first success and are all made on failure; every attempt runs the same (optionally `su`-wrapped) `-k` command; waits = attempts - 1 |
| `Ecryptfs.AddedTokens` | src/engines/ecryptfs.cpp:178-198 | between one and five tokens are added: one when creating with neither read-only nor mount options, five when mounting read-only with mount options |
| `Ecryptfs.AddedTokensLayout` | src/engines/ecryptfs.cpp:178-198 | `--readonly` comes first exactly when read-only is set; then the user's create options (or the default ones) when creating, or `-o key=passphrase` when not; then `-o` and the mount options exactly when there are any |
| `Ecryptfs.AddedTokensFlags` | src/engines/ecryptfs.cpp:178-198 | (for option texts not equal to the flag tokens) `key=passphrase` is passed exactly when not creating and `--readonly` exactly when read-only is set |
| `Ecryptfs.Layout` | src/engines/ecryptfs.cpp:172-204 | the template filled in: the executable then a space first, the options right after it, the mount point last, and seven separator characters in all |
| `Engines.ExeOptions.Add` | src/engines/ecryptfs.cpp:178-190 | one token is appended; the joined text becomes the token alone, or grows by a space and the token |
| `Engines.ExeOptions.AddPair` | src/engines/ecryptfs.cpp:192-197 | a flag and its value are appended as two tokens; a non-empty joined text grows by a space, the flag, a space and the value |
| `Engines.ExeOptions.Get` | src/engines/ecryptfs.cpp:200-201 | no tokens join to the empty text and a single token to itself |
| `Text.Join` | src/engines/ecryptfs.cpp:200-201 | no tokens join to the empty text and a single token to itself |
| `Text.JoinAppend` | src/engines/ecryptfs.cpp:178-201 | appending a token to a non-empty token list appends a space and that token to the joined text |
| `Ecryptfs.Command` | src/engines/ecryptfs.cpp:167-212 | the command is the executable, the space-joined options, `-a` and the config path, the cipher folder and the mount point, wrapped by `su` exactly when the polkit flag is set; the password plays no part |
| `Ecryptfs.ErrorCode` | src/engines/ecryptfs.cpp:214-228 | the classification is always failedToStartPolkit, ecryptfsBadPassword or backendFail |
| `Ecryptfs.ErrorCodeClassifies` | src/engines/ecryptfs.cpp:214-228 | "Operation not permitted" anywhere gives failedToStartPolkit even beside the bad-password marker; otherwise "error: mount failed" gives ecryptfsBadPassword; otherwise backendFail; the exit code never matters |
| `Ecryptfs.ErrorCodeOfEmptyOutput` | src/engines/ecryptfs.cpp:214-228 | empty output is classified backendFail |
| `Ecryptfs.ErrorCodeInContext` | src/engines/ecryptfs.cpp:218-224 | extra log text around the output never turns a recognised failure into backendFail, nor a privilege failure into anything else |
| `Text.Contains` | src/engines/ecryptfs.cpp:218-222 | the substring test holds exactly when the marker occurs at some index |
| `Text.ReplaceQuotes` | src/engines/ecryptfs.cpp:125 | the length is kept and each `"` becomes `'`, every other character staying put |
| `Text.ReplaceQuotesProperties` | src/engines/ecryptfs.cpp:125 | the replacement leaves no `"`, is the identity on quote-free text, and is idempotent |

## Left out

- `stat()` and executable path lookup (`executableFullPath`, `isInstalled`, `isNotInstalled`, the lazy lookup of `su`): filesystem I/O. The owner uid, mode bits and resolved paths are parameters. What `_requiresPolkit` reads when `stat` fails is not modelled.
- `Ecryptfs.Unmount`: the command is built once, from fixed parameters. The source rebuilds it on every attempt and asks again for the executable path and the polkit setting each time (src/engines/ecryptfs.cpp:135-147), so the model assumes these do not change while unmounting.
- `StatusCodes.FixedText` carries no contract of its own: it is the table of fixed texts, and `StatusCodes.Describe` and `StatusCodes.DescribeProperties` state how it is used.
- `siritask::unmountVolume` and `waitForOneSecond`: process execution and timing. They are replaced by a sequence of attempt outcomes and a wait counter. `Ecryptfs.Unmount` requires that sequence to cover the whole attempt budget.
- `utility::platformIsWindows`, `platformIsOSX`, the `Q_OS_LINUX` build switch and `utility::useSiriPolkit`: host and environment queries, modelled as a `Platform` value and a boolean parameter.
- `GUICreateOptions` and `GUIMountOptions`: user interface.
- The body of `ecryptfscreateoptions::defaultCreateOptions` is not part of this model; the default create options are a parameter of `Ecryptfs.Command`.
- `commandOptions` is not part of this model. The tokens its `exeOptions()` starts with are a parameter, and `get()` is a space-join (`Engines.ExeOptions`). `command` also returns the argument record and the options object beside the string; only the string is modelled.
- `QObject::tr`: localisation. Messages are the untranslated English texts.
- The descriptions of the securefs, gocryptfs, cryfs, encfs, sshfs and unknown backends are not part of this model. The registry constructor takes all six backend descriptions as parameters; `Ecryptfs.ResolveEcryptfs` fills the ecryptfs slot with `Ecryptfs.BaseOptions`. The sentinel is modelled only as far as it matters here: its name lists are empty.
- The singleton `instance()` and the function-local static empty strings: the registry is an explicit object.
- `getByName(const options&)`, which only forwards the options' `type` field to `getByName`.
- `Engines.Registry.GetByName`: lower-casing is ASCII only; `QString::toLower` also maps non-ASCII letters.
- The two shorter `cmdStatus` constructors and the default one, whose field defaults are declared in a header that is not part of this model; also `toMiniString` and `status()`, which return a field.
- The `Options` and `options` constructors (src/engines.cpp:360-413): record construction, partly through `favorites::entry::sanitizedMountOptions`, which is not part of this model.
- The `versionInfo` entry of the backend description.
