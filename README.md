# iconograph, modelled in Dafny

iconograph builds bootable Ubuntu live ISO images and keeps a fleet of
machines booting the newest one. This project models its three central
pieces and proves what they promise.

- **The boot menu generator** (`GrubUpdater`, module `UpdateGrub`). It is
  created from an image directory and a boot directory; the image
  directory must lie under the boot directory, and the images are then
  reached at `/` plus the relative path. `Update` writes a new `grub.cfg`:
  a header whose default is the current image, then one menu entry per
  `.iso` file of the image directory. The entries are newest first
  (descending file name), and the i-th carries the i-th of 62 hotkeys
  (digits, then lower case, then upper case letters). The menu is written
  to a fresh temporary file of the grub directory and renamed over
  `grub.cfg`. On any exception the temporary file is removed and the
  exception propagates; when that removal raises too, its exception
  replaces the first and the temporary file stays. The file system is a
  class whose `files` map the methods update. Every file operation of
  `Update` (creating the temporary file, each write, the directory
  listing, the flush, the rename and the unlink) takes the next number of
  a counter, and it raises `OSError` exactly when its number is in the
  set `failing`. The contracts state, for every choice of failing
  operations, what `Update` raises and which files it leaves. The answers
  of `lib.GetCurrentImage` and `lib.GetVolumeID` and the names
  `os.listdir` returns are parameters (an `Option`, a map of volume ids
  by file name, and the listing).
- **The fleet agent's message handling** (`Client`, module `FleetClient`).
  Each handler is specified by a `Script`: the ordered effects it issues
  and how it ends (normally, or with a Python exception). The effects are
  fetch, prune old images, regenerate the boot menu, send a report and
  reboot. The `Client` class methods follow the Python code statement by
  statement. They append each attempted effect to a trace, and each is
  proved to leave exactly the trace that running its script leaves. The
  handlers covered are `received_message`'s dispatch, `image_types`,
  `new_manifest`, `command`/`reboot`, the status report, and `Loop` up to
  a given number of reporting rounds. Each report asks the host afresh
  for its name, uptime, next image and that image's volume id. The
  answers are a function of the trace position at which the report is
  sent, so successive reports, and a reboot report made after a fetch,
  carry what the host says at that moment.
- **The image builder** (`ImageBuilder`, module `BuildImage`). It runs a
  fixed sequence of external commands: `mkdtemp`, debootstrap, three
  mounts for the union, package installation, the iconograph checkout, an
  optional shell, the squash, the grub fix and `grub-mkrescue`. It keeps a
  ledger of mount points and trees to remove. Its `finally` block unmounts
  every registered path and then removes every registered tree, both in
  registration order. The class methods update the ledger and the command
  log. They are proved equal to a function, `BuildImageRun`, which is
  proved to have the properties below.

External commands can fail. The model numbers every attempted command or
effect by its position in the trace, and the one at position k fails
exactly when k is in the set `failing`, which stands for the environment
(module `Faults`). A failing command raises, so the rest of its sequence
is skipped.

The supporting modules are:
- `Paths`: `str.startswith`/`endswith`, `os.path.join`, and
  `os.path.relpath` on normalised absolute paths.
- `Decimal`: `'%d' % n` and `int(s)`.
- `StringOrder`: Python's `str` ordering and `sorted(..., reverse=True)`.
- `Wrappers`: `Option` and `Result`.

The model follows the code as written; in particular:
- The cleanup unmounts in registration order, so the source ISO is
  unmounted before the overlay that uses it; it does not unmount in
  reverse.
- The first failing unmount raises out of the `finally` block. The later
  unmounts and every tree removal are then skipped.
- `received_message` catches nothing. A message without `type`, or a
  handler that raises, propagates the exception.
- More than 62 images make `Update` raise `IndexError` on the 63rd entry.
  The menu is not truncated.

## Model

| member | source | states |
|---|---|---|
| UpdateGrub.HotkeyCode | client/update_grub.py:11 | the code point of the i-th symbol of `string.digits + string.ascii_letters`: `0` plus i for the first ten, `a` plus i-10 for the next 26, `A` plus i-36 for the last 26 |
| UpdateGrub.HotkeysByCode | client/update_grub.py:11 | the hotkey alphabet has 62 symbols: the ten digits, then `a`–`z`, then `A`–`Z`, by character code |
| UpdateGrub.HotkeysDistinct | client/update_grub.py:11 | no two positions of the hotkey alphabet carry the same symbol, so no two entries share a hotkey |
| UpdateGrub.NewGrubUpdater | client/update_grub.py:13-19 | construction fails with `AssertionError` exactly when the image directory does not start with the boot directory; otherwise it keeps both directories, and the image path is `/` plus the image directory relative to the boot directory |
| UpdateGrub.ImagePathUnderBoot | client/update_grub.py:17-19 | for an image directory `<boot>/<rest>` the updater is created and its image path is `/<rest>` |
| UpdateGrub.Title | client/update_grub.py:30-33 | the title of an image is its file name, a space and its volume id in parentheses, as in the `default` line and in each `menuentry` line (:44) |
| UpdateGrub.HeaderText | client/update_grub.py:28-34 | the header written first: a blank line, `set timeout=5`, and `set default="<title>"` with the default title |
| UpdateGrub.EntryText | client/update_grub.py:43-57 | one `menuentry` block: the title and `--hotkey=<key>`, then the `search`, `iso_path`, `export`, `loopback`, `set root` and `configfile /boot/grub/loopback.cfg` lines, each naming the ISO as `<image path>/<filename>` |
| UpdateGrub.EntriesText | client/update_grub.py:42-57 | the entry blocks written one after the other, in the order of the entries |
| UpdateGrub.MenuText | client/update_grub.py:28-57 | the whole text of `grub.cfg`: the header followed by every entry block |
| UpdateGrub.IsoFiles | client/update_grub.py:36-40 | the names of the listing that end in `.iso`, kept in listing order |
| Paths.EndsWith | client/update_grub.py:38 | `filename.endswith(suffix)`: the last characters of the name are the suffix |
| UpdateGrub.IsoFilesExact | client/update_grub.py:36-40 | the collected files are exactly the listed names ending in `.iso`, each as often as it is listed |
| UpdateGrub.ListIsoFiles | client/update_grub.py:36-40 | the filtering loop collects exactly `IsoFiles` of the listing, in listing order |
| UpdateGrub.Writable | client/update_grub.py:42-57 | the entry at sorted position k can be written when k is below 62, so `_HOTKEYS[k]` exists, and its file has a volume id |
| UpdateGrub.EntryError | client/update_grub.py:55-56 | the exception for an entry that cannot be written: `IndexError` when its position is 62 or more, because `_HOTKEYS[i]` is evaluated before `lib.GetVolumeID`; otherwise the failure of `lib.GetVolumeID` for that file |
| UpdateGrub.FirstBadEntry | client/update_grub.py:42-57 | the result is the first sorted position that has no hotkey or no volume id, or none when every position can be written |
| UpdateGrub.FirstBadIs | client/update_grub.py:42-57 | a position that cannot be written, with every earlier one writable, is the first bad entry |
| UpdateGrub.EntriesUpTo | client/update_grub.py:42-57 | the first n entries are, in order, the i-th sorted name with its volume id and the i-th hotkey |
| UpdateGrub.PlanMenu | client/update_grub.py:26-57 | the menu `Update` writes, or the first exception it meets: the current image cannot be found, then the current image has no volume id, then, in descending name order, the first `.iso` file that has no hotkey or no volume id. Otherwise the default title is the current image's and the entries are the sorted names with their volume ids and hotkeys |
| UpdateGrub.PlanSucceeds | client/update_grub.py:26-57 | the menu can be generated if and only if the current image is known, it and every `.iso` file have a volume id, and there are at most 62 `.iso` files |
| UpdateGrub.PlanValue | client/update_grub.py:26-57 | a menu that is generated has the current image's title as default and the entries of every sorted name |
| UpdateGrub.PlanEntries | client/update_grub.py:36-57 | the entries are a permutation of the `.iso` files and list exactly the `.iso` names of the listing. They are in descending name order. There are at most 62, the i-th has hotkey i, all hotkeys differ, and each carries its file's volume id |
| UpdateGrub.HotkeyOverflow | client/update_grub.py:42-57 | with more than 62 `.iso` files, all with volume ids, generation fails with `IndexError` at index 62 |
| UpdateGrub.DefaultMatchesEntry | client/update_grub.py:28-57 | when the current image is a listed `.iso` file, some entry has exactly the default title |
| UpdateGrub.EntriesOf | client/update_grub.py:42-57 | the entries of the sorted names carry those names in order, hotkey i at position i and their files' volume ids |
| StringOrder.LessEq | client/update_grub.py:42 | Python's `a <= b` on strings: code point by code point, with a proper prefix first |
| StringOrder.Descending | client/update_grub.py:42 | every name is at least as large as every later one, the order `sorted(..., reverse=True)` produces |
| UpdateGrub.SortedNames | client/update_grub.py:42 | sorting keeps the length and the set of names |
| Paths.Join | client/update_grub.py:22 | `os.path.join(a, b)`: an absolute `b` replaces `a`; otherwise `b` follows `a` behind one `/`, unless `a` is empty or already ends in `/` |
| UpdateGrub.GrubCfgPath | client/update_grub.py:60 | the configuration file is `<boot>/grub/grub.cfg` |
| UpdateGrub.JoinInjective | client/update_grub.py:60 | two relative names joined to one directory give the same path only when they are the same name |
| UpdateGrub.TempIsNotConfig | client/update_grub.py:24-60 | the temporary file of the grub directory is never `grub.cfg` itself |
| UpdateGrub.NoneFail | client/update_grub.py:24-62 | none of the `n` file operations numbered from `from` is a failing one |
| UpdateGrub.SameFile | client/update_grub.py:60-63 | a path is absent from both file maps or holds the same contents in both; used to say that `grub.cfg` is untouched on every exception |
| UpdateGrub.NoneFailAt | client/update_grub.py:24-62 | `n` file operations numbered from `from` all go through exactly when none of those numbers is failing |
| UpdateGrub.FileSystem.Attempt | client/update_grub.py:24-62 | every file operation takes the next number and raises exactly when that number is failing; the files do not change |
| UpdateGrub.FileSystem.constructor | client/update_grub.py:24 | a file system starts with the given files |
| UpdateGrub.FileSystem.CreateTemp | client/update_grub.py:24 | takes the next operation number; the path `<dir>/tmp<suffix>` is one no existing file has; when the creation goes through it is a new empty file and no other file changes, and when it raises nothing changes |
| UpdateGrub.FileSystem.Write | client/update_grub.py:28-57 | takes the next operation number; when it goes through it appends the text to that file only, and when it raises nothing changes |
| UpdateGrub.FileSystem.ListDir | client/update_grub.py:37 | listing the image directory takes the next operation number, may raise, and changes no file |
| UpdateGrub.FileSystem.Flush | client/update_grub.py:59 | flushing takes the next operation number, may raise, and changes no file contents |
| UpdateGrub.FileSystem.Rename | client/update_grub.py:60 | takes the next operation number; when it goes through the destination gets the source's contents and the source is gone, in one step, with no other file changed; when it raises nothing changes |
| UpdateGrub.FileSystem.Unlink | client/update_grub.py:62 | takes the next operation number; when it goes through it removes that file only, and when it raises nothing changes |
| UpdateGrub.AppendEntry | client/update_grub.py:43-57 | writing a writable entry extends the temp file by exactly that entry's text; a failing write changes nothing |
| UpdateGrub.WriteStep | client/update_grub.py:42-57 | round i either raises (at a name without hotkey or volume id, or at a failing write) with the files unchanged and the loop's own result, or takes one operation number and appends entry i so that the temp file holds the first i+1 entries |
| UpdateGrub.WriteEntries | client/update_grub.py:42-57 | the loop's result is `EntriesOutcome` from the first operation number. It changes only the temp file. When it goes through it has used one operation per name and the temp file holds every entry's text after what it held |
| UpdateGrub.EntriesOutcome | client/update_grub.py:42-57 | when the loop goes through, every sorted name from `i` on has a hotkey and a volume id |
| UpdateGrub.EntriesOutcomeIs | client/update_grub.py:42-57 | the loop goes through exactly when no name is bad and none of its writes raises. Otherwise it raises the first bad name's error, or `OSError` from a write |
| UpdateGrub.Commit | client/update_grub.py:59-60 | the flush and the rename give `CommitOutcome`. When both go through, the temp file is renamed over the destination; otherwise nothing changes |
| UpdateGrub.CommitOutcome | client/update_grub.py:59-60 | the flush and then the rename: a failing flush raises its `OSError` and the rename is never attempted; otherwise a failing rename raises its own |
| UpdateGrub.FinishOutcome | client/update_grub.py:42-60 | the entries loop, and only when it went through, the flush and the rename, numbered right after the entries' writes |
| UpdateGrub.FinishOutcomeIs | client/update_grub.py:42-60 | the rest of the `try` block goes through exactly when no name is bad and none of its `|names| + 2` operations raises. Another exception is the first bad name's, and `OSError` comes only from a write, the flush or the rename |
| UpdateGrub.FinishMenu | client/update_grub.py:42-60 | the result is `FinishOutcome`. On success `grub.cfg` holds what the temp file held plus every entry, and the temp file is gone. On an exception only the temp file changed |
| UpdateGrub.TryOutcome | client/update_grub.py:25-60 | the `try` block in source order: the current image and its volume id, the header write, the directory listing, then the entries, the flush and the rename; the first of them that raises gives the exception |
| UpdateGrub.TryOutcomeIs | client/update_grub.py:25-60 | the `try` block goes through exactly when the menu can be planned and none of its `|IsoFiles| + 4` operations raises. Another exception is the plan's. It never raises from creating or unlinking the temp file |
| UpdateGrub.WriteMenu | client/update_grub.py:25-60 | the result is `TryOutcome`. On success the plan succeeds, `grub.cfg` holds the whole menu text and the temp file is gone. On an exception only the temp file changed |
| UpdateGrub.TryAndClean | client/update_grub.py:25-63 | the result is the `try` block's, or the unlink's `OSError` when the block raised and so did the unlink. On success `grub.cfg` holds the menu. After any other exception the files are as before the temp file was made. A failing unlink leaves only the temp file |
| UpdateGrub.UpdateResultIs | client/update_grub.py:21-63 | `Update` goes through exactly when the menu can be planned and none of its `|IsoFiles| + 5` file operations raises. An exception other than `OSError` is the plan's |
| UpdateGrub.Update | client/update_grub.py:21-63 | a failing creation of the temp file raises and changes nothing. Otherwise the result is the `try` block's, or the unlink's `OSError` when both raise. On success `grub.cfg` holds the whole new menu and no other file changes. On any exception `grub.cfg` is as it was. Every file is as it was, unless the unlink failed, which leaves only the fresh temp file |
| Paths.JoinParts | client/update_grub.py:22 | `os.path.join` ends in its second part and, for a relative second part, starts with the first, behind one separator when the first does not end in one |
| Paths.JoinBelow | server/build_image.py:97 | joining a relative name under a directory not ending in `/` inserts exactly one separator |
| Paths.Dirname | client/update_grub.py:19 | the parent directory of an absolute path: everything before its last `/`, or `/` when that is the first character; it says where a relative path that climbs with `../` resolves |
| Paths.NormalPath | client/update_grub.py:13-19 | an absolute path with no empty, `.` or `..` component and no trailing `/` (except `/` itself); the directories the model accepts |
| Paths.RelPath | client/update_grub.py:19 | `os.path.relpath(path, start)` when `path` has `start` as a prefix: `.` for the same directory, the part below `start` when the prefix ends at a separator, and `../<last component>` when it splits `start`'s last component |
| Paths.RelPathResolves | client/update_grub.py:19 | the relative path is `.` exactly for the same directory. A path that does not climb joins back onto the start to give the original path. One that climbs with `../` joins onto the start's parent to give the original path |
| Paths.TailAfterSeparator | client/update_grub.py:19 | what follows a separator of a normal path is a non-empty relative path that does not start with `/` or `../` |
| StringOrder.LessEqTotal | client/update_grub.py:42 | any two strings are comparable |
| StringOrder.LessEqAntisymmetric | client/update_grub.py:42 | strings ordered both ways are equal |
| StringOrder.LessEqTransitive | client/update_grub.py:42 | the string order is transitive |
| StringOrder.Insert | client/update_grub.py:42 | inserting into a descending sequence keeps it descending and adds exactly that element |
| StringOrder.SortDescending | client/update_grub.py:42 | `sorted(..., reverse=True)` returns a descending permutation of its input |
| StringOrder.DescendingUnique | client/update_grub.py:42 | two descending permutations of the same names are equal, so the menu order is determined by the names alone |
| Decimal.NatToString | client/client.py:123 | the decimal text of a natural number is non-empty, all digits, with no leading zero |
| Decimal.FormatInt | client/client.py:123 | `'%d' % n` is non-empty digits, with a leading `-` exactly for a negative n |
| Decimal.ParseInt | client/client.py:95 | `int(s)`: an optional sign then one or more ASCII digits give their value; any other text is a `ValueError` |
| Decimal.NatToStringValue | client/client.py:95 | the digits of n read back as a number give n |
| Decimal.ParseFormat | client/client.py:93-95 | `int('%d' % n) == n` |
| Faults.Succeeded | server/build_image.py:77-79 | the number of commands that succeed is the length of the run of non-failing positions from the start, and the next position fails |
| Faults.Attempted | server/build_image.py:77-79 | the attempted commands are a prefix of the sequence: all of it when none fails, otherwise up to and including the first failing one |
| Faults.AttemptedAppend | server/build_image.py:170-184 | running `a + b` attempts `a` and then, only if all of `a` succeeded, the commands of `b` from where `a` ended |
| Faults.AllOkAppend | server/build_image.py:170-184 | `a + b` succeeds exactly when `a` does and `b` does right after it |
| Faults.DoneAppend | server/build_image.py:170-184 | the commands of `a + b` that succeed are those of `a`, followed by those of `b` when all of `a` succeeded |
| Faults.FirstFailureAt | server/build_image.py:191-194 | when position i is the first failing one, exactly the commands up to and including i are attempted, and the sequence fails |
| FleetClient.Subscript | client/client.py:98 | `j[key]` gives the value when `j` is an object holding the key. It raises `KeyError` for an object without the key and `TypeError` for anything else |
| FleetClient.ConfigGet | client/client.py:107 | `config[key]` gives the value exactly when the key is present, else `KeyError` |
| FleetClient.Contains | client/client.py:98 | `x in c` is list membership or object key membership. It raises `TypeError` exactly for an unhashable key, a non-string in a string, or a container that is not iterable |
| FleetClient.FormatD | client/client.py:123 | `'%d' % v` succeeds exactly for integers and booleans, and gives their decimal text |
| FleetClient.Run | client/client.py:66-148 | a run attempts a prefix of the script's effects. Ending normally means it attempted them all and the script ends normally. With no failing position it is exactly the script |
| FleetClient.RunThen | client/client.py:120-139 | running `Then(s1, s2)` is running `s1` and, only if it ended normally, `s2` from where `s1` stopped |
| FleetClient.BeforeDot | client/client.py:95 | the result is the prefix of the name before its first dot |
| FleetClient.NextTimestamp | client/client.py:93-95 | `_NextTimestamp`: the failure of `lib.GetCurrentImage` propagates; otherwise the integer before the first `.` of the image name, or `ValueError` when that text is not an integer |
| FleetClient.NextTimestampOfImage | client/client.py:93-95 | the next timestamp of an image named `<ts>.iso` is `ts` |
| FleetClient.ReportRecord | client/client.py:75-83 | the record: hostname, uptime, next timestamp and next volume id, then `status` only when a non-empty status is given, then every configuration entry, which replaces a field of the same name |
| FleetClient.Report | client/client.py:74-83 | `_SendReport`'s record when `_NextTimestamp` and `lib.GetVolumeID` both answer; otherwise the exception of the first that fails, in that order |
| FleetClient.ReportMessage | client/client.py:84-87 | the message sent is an object with `type` `report` and the record as `data` |
| FleetClient.ReportFields | client/client.py:74-95 | the report can be built exactly when the host's next image has a timestamp and a volume id. It holds the four host fields as the host answered them, `status` exactly when a non-empty one is given or the configuration has one, and every configuration entry, which overrides the rest |
| FleetClient.ReportScript | client/client.py:74-87 | a report that is built is one effect |
| FleetClient.UpdateManifestScript | client/client.py:120-124 | `_UpdateManifest`: reading `image_type` from the configuration for the fetcher, `Fetch()`, then `%d` of the configured `timestamp`, `DeleteOldImages` keeping `<timestamp>.iso`, then the grub update; each `KeyError` or `TypeError` raises at the point where it is met |
| FleetClient.ImageTypesScript | client/client.py:97-98 | `_OnImageTypes`: the configured `image_type`, then `data["image_types"]`, then the membership test; `AssertionError` when the type is not offered, and nothing else happens |
| FleetClient.NewManifestScript | client/client.py:100-103 | `_OnNewManifest`: `data["image_type"]` is read before the configuration's; a different type returns with no effect, the configured one runs `_UpdateManifest` |
| FleetClient.RebootScript | client/client.py:130-139 | `_OnReboot`: with a `timestamp` in `data`, the fetcher is built, that image fetched, the grub menu updated, and `Rebooting into <ts>...` reported; without one, `Rebooting...` is reported. The `reboot` command follows, only if nothing raised |
| FleetClient.CommandScript | client/client.py:126-128 | `_OnCommand`: `data["command"]` is read; `reboot` runs `_OnReboot`, any other command does nothing |
| FleetClient.ReceivedScript | client/client.py:141-148 | `received_message` on the decoded message: `type` is read first, `data` only for the three handled types, and each of them goes to its handler; other types do nothing, and no exception is caught |
| FleetClient.OtherTypesIgnored | client/client.py:141-148 | a message without `type` raises `KeyError`; one of any other type does nothing |
| FleetClient.Routing | client/client.py:141-148 | `image_types`, `new_manifest` and `command` go to their own handler with the message's `data` |
| FleetClient.ImageTypesCheck | client/client.py:97-98 | `image_types` has no effect and raises `AssertionError` exactly when the configured type is not offered |
| FleetClient.ForeignManifestIgnored | client/client.py:100-102 | a manifest of another image type does nothing |
| FleetClient.OwnManifestUpdates | client/client.py:100-124 | a manifest of the configured type fetches, prunes all but `<config timestamp>.iso` and regenerates the boot menu, in that order |
| FleetClient.OtherCommandsIgnored | client/client.py:126-128 | a command other than `reboot` does nothing |
| FleetClient.PinnedReboot | client/client.py:130-139 | a reboot with a timestamp fetches that image, regenerates the boot menu, reports `Rebooting into <ts>...` built from what the host answers after those two effects, and reboots, in that order |
| FleetClient.PlainReboot | client/client.py:130-139 | a reboot without a timestamp reports `Rebooting...`, built from what the host answers at that moment, and reboots |
| FleetClient.RebootIsLast | client/client.py:130-139 | a reboot command that completes ends with exactly one reboot, its last effect, and never prunes images |
| FleetClient.ReportsSent | client/client.py:66-95 | when the host can answer each time, the reporting loop sends one report per round, in order; the i-th report is built from what the host answers when it is sent |
| FleetClient.ReportsStop | client/client.py:66-95 | the first round whose report cannot be built ends the loop with that exception, after one report per earlier round |
| FleetClient.ReportsScript | client/client.py:70-72 | the first `rounds` iterations of the reporting loop: each sends one report, built from what the host answers when it is sent, and only after the earlier ones went through |
| FleetClient.LoopScript | client/client.py:66-72 | `Loop`: one manifest update, then the reporting rounds, which start only if the update went through |
| FleetClient.ReportsLength | client/client.py:70-72 | `k` reporting rounds that all go through send `k` reports |
| FleetClient.RoundsLength | client/client.py:70-72 | rounds that all go through attempt one effect each, when every round that goes through attempts one effect |
| FleetClient.RoundsOk | client/client.py:70-72 | rounds that each end normally end normally together |
| FleetClient.RoundsSent | client/client.py:70-72 | rounds that each emit one effect emit those effects in order, one per round |
| FleetClient.RoundsStop | client/client.py:70-72 | the first round that raises before any effect ends the loop there, with its exception, after the rounds before it |
| FleetClient.Client.constructor | client/client.py:61-64 | a client starts with its configuration and an empty trace |
| FleetClient.Client.Perform | client/client.py:139 | an effect is appended to the trace and raises exactly when its position fails |
| FleetClient.Client.RanThen | client/client.py:120-139 | running one script and then, unless it raised, another, leaves the trace and result of their composition |
| FleetClient.Client.SendReport | client/client.py:74-95 | `_SendReport` asks the host afresh and leaves exactly the trace and result of the report script at its trace position |
| FleetClient.Client.UpdateManifest | client/client.py:120-124 | `_UpdateManifest` leaves exactly the trace and result of its script |
| FleetClient.Client.OnImageTypes | client/client.py:97-98 | `_OnImageTypes` leaves exactly the trace and result of its script |
| FleetClient.Client.OnNewManifest | client/client.py:100-103 | `_OnNewManifest` leaves exactly the trace and result of its script |
| FleetClient.Client.OnReboot | client/client.py:130-139 | `_OnReboot` leaves exactly the trace and result of its script |
| FleetClient.Client.OnCommand | client/client.py:126-128 | `_OnCommand` leaves exactly the trace and result of its script |
| FleetClient.Client.ReceivedMessage | client/client.py:141-148 | `received_message` leaves exactly the trace and result of the dispatch script |
| FleetClient.Client.RanReportsStopped | client/client.py:70-72 | once a reporting round raised, the later rounds are never reached |
| FleetClient.Client.ReportRound | client/client.py:71 | one more reporting round after i that went through leaves the trace of i+1 rounds |
| FleetClient.Client.ReportRounds | client/client.py:70-72 | the reporting loop leaves the trace and result of `rounds` reports, stopping at the first that raises |
| FleetClient.Client.Loop | client/client.py:66-72 | `Loop` is the manifest update, then the reporting rounds if it went through |
| BuildImage.BuildLayout | server/build_image.py:84-162 | the paths of a build under the temp root: `chroot`, `iso`, `tmpfs` with `upper` and `work` inside it, `union`, the squashfs file under `union/casper`, the loopback configuration under `union/boot/grub`, and the grub template under `iso_files` beside the builder |
| BuildImage.DebootstrapCommands | server/build_image.py:84-94 | `_Debootstrap`: create `<root>/chroot`, then `debootstrap --variant=buildd --arch <arch> <release> <chroot> <archive>` |
| BuildImage.MountCommands | server/build_image.py:97-103 | create a directory, then run a `mount` command with that directory as its last argument |
| BuildImage.OverlayOptions | server/build_image.py:126 | the overlay options `lowerdir=<iso>,upperdir=<upper>,workdir=<work>` |
| BuildImage.UnionCommands | server/build_image.py:96-131 | `_CreateUnion`: mount the source ISO read-only on `iso`, mount a tmpfs on `tmpfs`, create `upper` and `work`, then mount the overlay on `union`, each mount after creating its directory |
| BuildImage.InstallCommands | server/build_image.py:133-143 | `_InstallPackages`: `apt-get install --assume-yes` with the 15 base packages, then `apt-get clean`, both inside the chroot |
| BuildImage.IconographCommands | server/build_image.py:145-150 | `_InstallIconograph`: `git clone` of the iconograph repository inside the chroot |
| BuildImage.ShellCommands | server/build_image.py:180-181 | `bash` when the shell was asked for, nothing otherwise |
| BuildImage.SquashCommands | server/build_image.py:152-157 | `_Squash`: `mksquashfs <chroot> <squashfs> -noappend` |
| BuildImage.FixGrubCommands | server/build_image.py:159-162 | `_FixGrub`: copy the grub template over the loopback configuration |
| BuildImage.GrubMkrescue | server/build_image.py:164-168 | `grub-mkrescue --output=<dest> <union>` |
| BuildImage.CreateIsoCommands | server/build_image.py:164-168 | `_CreateISO`: the one `grub-mkrescue` command |
| BuildImage.BeforeIsoCommands | server/build_image.py:170-183 | every command of `_BuildImage` before the ISO is written, in source order |
| BuildImage.BuildCommands | server/build_image.py:170-184 | `_BuildImage`: `mkdtemp`, debootstrap, the union, the packages, the checkout, the optional shell, the squash, the grub fix and the ISO, in that order |
| BuildImage.ProvisionCommands | server/build_image.py:171-177 | `mkdtemp`, then debootstrap, then the union |
| BuildImage.CustomizeCommands | server/build_image.py:178-181 | the packages, the checkout, then the optional shell, all inside the chroot |
| BuildImage.FinishCommands | server/build_image.py:182-184 | the squash, the grub fix and the ISO, with the paths under the union that those stages compute |
| BuildImage.MountPoints | server/build_image.py:104-129 | the paths a run of commands registers for unmounting: the last argument of each `mount`, in order |
| BuildImage.UmountCommands | server/build_image.py:191-192 | one `umount <path>` per registered path, in registration order |
| BuildImage.RemoveTreeCommands | server/build_image.py:193-194 | one tree removal per registered tree, in registration order |
| BuildImage.StagesGrouped | server/build_image.py:170-184 | `_BuildImage` is provisioning, then customising the chroot, then finishing, one after the other |
| BuildImage.MountPointsAppend | server/build_image.py:104-129 | the mount points of `a + b` are those of `a` followed by those of `b` |
| BuildImage.LedgerAppend | server/build_image.py:170-184 | after a fully successful prefix, the ledger grows by the mount points of what succeeds of the rest |
| BuildImage.MountCommandsPoints | server/build_image.py:97-104 | making a directory and mounting on it registers that directory |
| BuildImage.UnionMounts | server/build_image.py:96-131 | `_CreateUnion` registers the source ISO, the tmpfs and the overlay, in that order |
| BuildImage.OtherStagesMountNothing | server/build_image.py:84-168 | no stage but `_CreateUnion` registers a mount point |
| BuildImage.BuildMounts | server/build_image.py:170-184 | a complete build registers exactly the source ISO, the tmpfs and the overlay, in that order |
| BuildImage.LedgerIsPrefix | server/build_image.py:104-184 | the ledger of mounts a build leaves is a prefix of iso, tmpfs, union, and all three when the build succeeded |
| BuildImage.OverlayLayers | server/build_image.py:115-126 | the overlay's lower directory is the ISO mount point and its upper and work directories lie inside the tmpfs, all under the temp root |
| BuildImage.NoGrubBefore | server/build_image.py:164-184 | no stage before `_CreateISO` runs `grub-mkrescue` |
| BuildImage.IsoOnlyAfterAllStages | server/build_image.py:164-184 | `grub-mkrescue` is attempted if and only if every command before it succeeded |
| BuildImage.ShellOnlyWhenAsked | server/build_image.py:180-181 | the interactive shell is in the build if and only if it was asked for |
| BuildImage.TempRootFirst | server/build_image.py:171-176 | once anything after `mkdtemp` is attempted, the temp root is registered for removal |
| BuildImage.CleanupCommands | server/build_image.py:191-194 | the `finally` block's commands: one `umount` per registered path, then one tree removal per registered tree, both in registration order |
| BuildImage.RunAll | server/build_image.py:77-79 | a straight-line run of commands: those attempted up to and including the first failure, and that failing command as the exception |
| BuildImage.Conclude | server/build_image.py:186-194 | the build's outcome, then the cleanup of the ledger it left, from where it stopped; a cleanup exception replaces the build's |
| BuildImage.RunAndClean | server/build_image.py:170-194 | a build that registers its temp root once `mkdtemp` succeeded and each mount point once its mount succeeded, followed by `Conclude` |
| BuildImage.BuildImageRun | server/build_image.py:186-194 | `BuildImage`: `RunAndClean` of `_BuildImage`'s commands on the layout of the temp root |
| BuildImage.RunAndCleanIs | server/build_image.py:186-194 | a build is its commands up to the first failure, then the cleanup of the ledger they left, from where they stopped. A cleanup exception replaces the build's |
| BuildImage.CleanupComplete | server/build_image.py:189-194 | the cleanup succeeds exactly when none of its commands fails, and then it has unmounted every registered path and removed every registered tree, once each and in registration order |
| BuildImage.FailedUnmountStopsCleanup | server/build_image.py:191-192 | the first failing unmount raises: no later unmount and no tree removal is attempted |
| BuildImage.FailedRemovalStopsCleanup | server/build_image.py:193-194 | the first failing tree removal raises after every unmount: no later tree is removed |
| BuildImage.CleanupAlwaysRuns | server/build_image.py:186-194 | whatever the build stopped on, the cleanup starts right after it, with the first registered mount, or the first registered tree when nothing is mounted |
| BuildImage.CleanupErrorWins | server/build_image.py:186-194 | a failing cleanup raises one of its own commands; a cleanup that succeeds keeps the build's result |
| BuildImage.ImageBuilder.constructor | server/build_image.py:65-75 | a builder starts with its settings, an empty ledger and an empty log |
| BuildImage.ImageBuilder.Execute | server/build_image.py:77-79 | a command is appended to the log and fails exactly when its position fails; the ledger is unchanged |
| BuildImage.ImageBuilder.Next | server/build_image.py:170-184 | running `p` and then, only if all of it succeeded, `s` is running `p + s`, log and ledger alike |
| BuildImage.ImageBuilder.Step | server/build_image.py:191-194 | one round of a cleanup loop either extends the successful prefix or ends the loop with the failing command attempted |
| BuildImage.ImageBuilder.Debootstrap | server/build_image.py:84-94 | creates and bootstraps `<root>/chroot`, registering nothing |
| BuildImage.ImageBuilder.MountAt | server/build_image.py:97-104 | creates the directory and mounts on it, registering it only once the mount succeeded |
| BuildImage.ImageBuilder.CreateUnion | server/build_image.py:96-131 | runs the union's commands up to the first failure and registers each mount point right after its mount succeeded |
| BuildImage.ImageBuilder.InstallPackages | server/build_image.py:133-143 | installs the base packages and then cleans, the second only if the first succeeded |
| BuildImage.ImageBuilder.InstallIconograph | server/build_image.py:145-150 | clones the iconograph repository inside the chroot |
| BuildImage.ImageBuilder.Squash | server/build_image.py:152-157 | squashes the chroot to `<union>/casper/filesystem.squashfs` |
| BuildImage.ImageBuilder.FixGrub | server/build_image.py:159-162 | copies the shipped grub template over `<union>/boot/grub/loopback.cfg` |
| BuildImage.ImageBuilder.CreateIso | server/build_image.py:164-168 | runs `grub-mkrescue` writing the destination ISO from the union |
| BuildImage.ImageBuilder.Provision | server/build_image.py:170-177 | `mkdtemp` registers the temp root once it succeeded, then debootstrap and the union run, each only after the previous one succeeded |
| BuildImage.ImageBuilder.Customize | server/build_image.py:178-181 | package installation, the checkout and the optional shell, each only after the previous one succeeded |
| BuildImage.ImageBuilder.Finish | server/build_image.py:182-184 | the squash, the grub fix and the ISO, each only after the previous one succeeded |
| BuildImage.ImageBuilder.BuildImageStages | server/build_image.py:170-184 | `_BuildImage` runs every stage up to the first failure, registering the temp root and each successful mount |
| BuildImage.ImageBuilder.UnmountAll | server/build_image.py:191-192 | the unmount loop attempts `umount` on the registered paths in order up to the first failure, which it raises |
| BuildImage.ImageBuilder.RemoveTrees | server/build_image.py:193-194 | the removal loop attempts to remove the registered trees in order up to the first failure, which it raises |
| BuildImage.ImageBuilder.Cleanup | server/build_image.py:189-194 | the `finally` block unmounts, then removes trees only if every unmount succeeded, and raises its first failure |
| BuildImage.ImageBuilder.Concluded | server/build_image.py:186-194 | the log, the ledger and the result after the build and its cleanup are those of `RunAndClean` |
| BuildImage.ImageBuilder.BuildImage | server/build_image.py:186-194 | `BuildImage` leaves exactly the log, the ledger and the result of `BuildImageRun`, for which the properties above are proved |

## Left out

- Command-line parsing, `main` and the flag values (`FLAGS`) are left out. The image and boot directories and the `shell` switch become parameters. The server address and the certificates only configure the fetcher, which is an effect here.
- `print` calls are left out; they have no effect on the state modelled.
- The names `tempfile.mkdtemp` and `NamedTemporaryFile` choose are not modelled. The builder's temp root is a parameter. The grub temp file is `tmp` plus a suffix longer than any existing name, which stands for "a fresh name".
- The external tools are not modelled: debootstrap, mount, apt-get, git, mksquashfs, grub-mkrescue, umount and `shutil.rmtree`/`copyfile`. The same holds for the fetcher (`Fetch`, `DeleteOldImages`) and `reboot`. Each is one command or effect, and whether it fails is given by the `failing` set. What they do to the disk is outside the model.
- The answers of `lib.GetCurrentImage`, `lib.GetVolumeID`, `os.listdir`, `socket.gethostname` and `/proc/uptime` are parameters. For the agent they are a function of the trace position at which a report is sent. Two reports made at the same trace position therefore see the same answers. This happens only when the first raised before sending. The uptime is an integer, so the float parsing of `/proc/uptime` is not modelled.
- The websocket transport is left out: connecting, `send`'s JSON encoding, the decoding of incoming messages, and the daemon thread. `ReceivedMessage` takes the decoded message.
- `time.sleep(5.0)` is left out.
- FleetClient.Client.Loop: the endless `while True` loop is modelled as its first `rounds` iterations, because a method must terminate.
- FleetClient.Json: JSON floats are left out, and so is Python's cross-type equality (`1 == True == 1.0`), which would make an integer and a boolean image type compare equal. Equality is structural.
- Decimal.ParseInt accepts an optional sign and ASCII digits only. It does not accept the surrounding whitespace or underscores Python's `int()` allows. The image names it reads are formatted with `'%d'`, and on those it is exact.
- UpdateGrub.NewGrubUpdater: requires both directories to be normalised absolute paths. The `--image-dir` and `--boot-dir` flags also accept a trailing `/`, repeated separators, `.` or `..` components and relative paths, which `os.path.relpath` normalises first. The constructor's result is not stated for those directories, because `os.path.relpath` is modelled only on normalised paths (see Paths.RelPath).
- Paths.RelPath models `os.path.relpath` only for normalised absolute paths where one has the other as a string prefix. The `assert` in the constructor guarantees the prefix; normalisation is a requirement of the model.
- UpdateGrub.FileSystem.Flush: what `flush` and the rename do for durability on disk is not modelled; a flush can only raise. `grub.cfg` changes in one step by the rename, which is the atomicity the source relies on.
- UpdateGrub.FileSystem.ListDir: a listing can raise, but the names it returns are a parameter, not read from `files`.
- The `with` blocks closing files are not modelled; closing has no effect on the contents modelled, and a close that raises is not modelled.
