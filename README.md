# OwnTracks Recorder storage scanner, modelled in Dafny

This project models the scanner at the core of prometheus-owntracks-exporter. The
scanner reads the storage directory of an OwnTracks Recorder and turns it into
the exporter's metrics:
- the number of users, devices, cards, last locations, location rows and waypoints;
- the storage size in bytes;
- the timestamp of the last received message;
- the version record fetched from the Recorder's API.

The model has three layers, as in `metrics.py`:

- **Classifiers** (`classify.dfy`). `json.loads` is an abstract parameter
  `loads: string -> Decoded`. The classifiers decide:
  - whether a payload, or a whole file, holds a record of a given `_type`;
  - whether a line of a `.rec` file holds a location row;
  - how many location rows a `.rec` file holds.
- **Tree walkers** (`walk.dfy`, on the tree model of `fs.dfy`):
  - the visible sub-directories of a directory and their names;
  - the two-level user/device enumeration;
  - the recursive directory size.
- **Extractors** (`extract.dfy`). One member per exported metric. The ones
  that count in a loop are methods, each proved equal to a specification
  function. Lemmas bound those functions and connect them to the walkers.

The storage tree is an immutable datatype:
- a regular file, with its text contents and its size;
- a directory, with its entries in iteration order;
- anything else.

A path is `Option<Node>`: `None` when nothing exists there. `joinpath(name)`
looks up the entry with that name. The Python text builtins the scanner relies
on are written out in `pytext.dfy`:
- `str.split()` with CPython's set of whitespace characters;
- `str.splitlines()`;
- line iteration over a file in universal-newline mode;
- `int()` on a token;
- `str()` of an integer;
- `PurePath.stem`.

`scenarios.dfy` works through small concrete storage trees and monitor files.

Three behaviours of the code are followed exactly:
- Names are stems. `_subdir_names` yields the stem of each visible directory,
  and the walkers re-join the parent with that stem. A user directory named
  `alice.old` therefore counts as a user named `alice`, and its devices are
  looked up under `alice`. Hiddenness is also tested on the stem;
  `PyText.StemHiddenIffNameHidden` proves this is the same as the full name
  starting with a dot.
- Cards are counted without a short-circuit. In every device directory under
  `cards/`, `<user>-<device>.json` and `<user>.json` are each tested, and each
  card adds one (`metrics.py:102-105`). One might expect `<user>.json` to be
  tried only as a fallback when `<user>-<device>.json` is not a card; the loop
  tries both, and `Extract.DeviceCardsEach` states that each adds one on its own.
- The storage size has no existence guard. Unlike the other extractors,
  which answer 0 when their directory or file is missing, `_get_directory_size`
  calls `iterdir()` on the root directly, and that raises on a missing root or a
  non-directory. The size is therefore a `Result` that carries the error.

## Model

| member | source | states |
|---|---|---|
| Base.CountOfIsIndexCount | metrics.py:86-91 | a count kept by `count += 1` over a sequence (`CountOf`) is the number of positions whose element passes the test |
| Classify.TypeFieldOf | metrics.py:28-33 | `data["_type"]` fails with JSONDecodeError exactly on a decoding error, TypeError exactly on a non-object, KeyError exactly on an object without `_type`, and otherwise succeeds, over the two outcomes `loads` has (a value or JSONDecodeError) |
| Classify.IsJsonOfType | metrics.py:28-33 | true exactly when the payload decodes to an object whose `_type` is the string tag; JSONDecodeError, TypeError and KeyError answer false |
| Classify.AtMostOneType | metrics.py:28-33 | a payload is of at most one type |
| Classify.IsJsonFileOfType | metrics.py:36-41 | false unless the path is a regular file; otherwise exactly the type test on the whole contents |
| Classify.RowFields | metrics.py:77-79 | unpacking `row.split()` into three names succeeds exactly when there are three tokens, and yields those tokens |
| Classify.CsvRowIsLocationData | metrics.py:75-80 | a row counts exactly when it splits into three tokens and the third is a location payload |
| Classify.CsvRowOfWords | metrics.py:75-80 | a row `"<ts> <topic> <payload>\n"` counts exactly when its payload is a location |
| Classify.PayloadWithSpaceNeverCounts | metrics.py:75-80 | a payload with white space inside makes a four-token row, which never counts, whatever the payload decodes to |
| Classify.RecLocations | metrics.py:83-91 | a node that is not a regular file has no location rows; a file has at most one per line |
| Classify.LocationsInRecFile | metrics.py:83-91 | 0 for a non-file, and otherwise the number of the file's lines that are location rows |
| Classify.LocationRowsIn | metrics.py:86-91 | the line loop counts exactly the lines that are location rows |
| Walk.VisibleDirs | metrics.py:47-51 | keeps exactly the entries that are directories with a non-hidden stem, as many as there are such entries |
| Walk.Subdirs | metrics.py:44-51 | empty when the path is not a directory; otherwise exactly the child directories whose stem does not start with a dot |
| Walk.SubdirNames | metrics.py:54-56 | one name per visible sub-directory, in order, and each name is that directory's stem |
| Walk.DeviceDirsOfMembers | metrics.py:59-62 | for any list of users, the enumeration yields a triple exactly when it is (root/user/device, user, device) for a listed user and a device listed under root/user |
| Walk.UserDeviceDirsMembers | metrics.py:59-62 | the enumeration yields a triple exactly when it is (root/user/device, user, device) for a user listed under root and a device listed under root/user |
| Walk.DeviceDirsOfCount | metrics.py:59-62 | for any list of users, the enumeration has as many triples as the users' device counts add up to |
| Walk.UserDeviceDirs | metrics.py:59-62 | the enumeration (`_user_device_dirs`) has as many triples as the users' device counts add up to, and none when root is not a directory |
| Walk.GetDirectorySize | metrics.py:65-72 | a missing path raises FileNotFound, a non-directory raises NotADirectory, and a directory gives the sum of the sizes of the regular files at every depth below it |
| Fs.ReachableFileCounted | metrics.py:65-72 | every regular file reachable at any depth has its size among the summed sizes, so it is at most the total |
| Fs.Lookup | metrics.py:61-62 | joining a name finds nothing exactly when no entry has that name; otherwise it finds an entry with that name |
| Fs.LookupEntry | metrics.py:61-62 | in a directory with distinct names, joining an entry's name finds that entry's node |
| Fs.Join | metrics.py:61-62 | nothing exists under a path that is not a directory; whatever is found is an entry of the directory under that name |
| Fs.Glob | metrics.py:143 | `glob("*.rec")` gives exactly the entries directly in the directory whose name ends with the suffix, and nothing for a non-directory |
| Extract.GetUsersCount | metrics.py:152-153 | the number of visible sub-directories of `rec/`, and 0 when `rec/` is not a directory |
| Extract.GetDevicesCount | metrics.py:109-110 | the sum over the users under `rec/` of their device-directory counts, and 0 when `rec/` is not a directory |
| Extract.DeviceCards | metrics.py:101-105 | one device directory adds at most two cards |
| Extract.DeviceCardsEach | metrics.py:102-105 | one device directory adds one for `<user>-<device>.json` being a card plus one for `<user>.json` being a card, each on its own |
| Extract.CardsInDeviceDir | metrics.py:102-105 | the loop over the two file names counts what the device directory adds |
| Extract.UserCardsIn | metrics.py:96-100 | the loop over the user names counts one per user whose `<user>/<user>.json` is a card |
| Extract.CardsInDeviceDirs | metrics.py:101-105 | the loop over the device directories adds up what each one adds |
| Extract.GetCardsCount | metrics.py:94-106 | the count is one per user whose `cards/<user>/<user>.json` is a card, plus what every device directory under `cards/` adds |
| Extract.CardsCountBound | metrics.py:94-106 | at most one card per user plus two per device directory; 0 when `cards/` is not a directory |
| Extract.LastLocationsIn | metrics.py:114-121 | the loop counts exactly the device directories whose `<user>-<device>.json` is a location |
| Extract.GetLastLocationsCount | metrics.py:113-121 | the number of device directories under `last/` whose `<user>-<device>.json` is a location |
| Extract.LastLocationsCountBound | metrics.py:113-121 | at most one last location per device directory under `last/`; 0 when `last/` is not a directory |
| Extract.LocationsInDeviceDir | metrics.py:143-144 | the location rows of the `*.rec` entries directly in one device directory, added up |
| Extract.LocationsInDeviceDirs | metrics.py:139-145 | the loop over the device directories adds up the location rows of each |
| Extract.GetLocationsCount | metrics.py:138-145 | the location rows of every `*.rec` entry in every device directory under `rec/`, added up |
| Extract.DeviceLocationsBound | metrics.py:143-144 | a device directory has no more location rows than lines in its `*.rec` files |
| Extract.LocationsCountBound | metrics.py:138-145 | no more location rows in total than lines in the `.rec` files; 0 when `rec/` is not a directory |
| Extract.DeviceWaypoints | metrics.py:171-173 | a device directory has at most one waypoint per `*.json` entry |
| Extract.WaypointsInDeviceDir | metrics.py:171-173 | the loop counts the waypoint files among the `*.json` entries of one device directory, at most one per entry |
| Extract.WaypointsInDeviceDirs | metrics.py:167-174 | the loop over the device directories adds up the waypoint files of each |
| Extract.GetWaypointsCount | metrics.py:166-174 | the waypoint files of every device directory under `waypoints/`, added up |
| Extract.WaypointsCountBound | metrics.py:166-174 | at most one waypoint per `*.json` entry of a device directory; 0 when `waypoints/` is not a directory |
| Extract.GetStoragedirSize | metrics.py:148-149 | the size of the whole storage directory: the recursive file-size sum, or the error `iterdir()` raises on a missing root or a non-directory |
| Extract.MonitorTimestamp | metrics.py:128-135 | IndexError exactly when the contents are empty; otherwise a ValueError or a timestamp, and a timestamp exactly when the first line splits into two tokens and `int()` accepts the first, in which case it is `int()` of that token |
| Extract.GetLastReceivedTimestamp | metrics.py:124-135 | `int()` of the first token of the monitor file's first line when the file is a regular file, is not empty, its first line splits into exactly two tokens and `int()` accepts the first; 0 in every other case |
| Extract.MonitorRoundTrip | metrics.py:131-133 | a first line `"<str(n)> <word>"` gives back n, whatever follows the first line, for every n that `str()` can write |
| Extract.MonitorWithoutLineBreak | metrics.py:131-133 | contents `"<str(n)> <word>"` with no line break at all give back n |
| Extract.MonitorWithThreeTokens | metrics.py:131-134 | a first line of three or more tokens gives no timestamp, even when the first token is a number |
| Extract.GetVersionInfo | metrics.py:156-163 | the reply's `version` and `git` when both keys are present, and two empty strings when the request failed or a key is missing |
| PyText.Split | metrics.py:77 | `str.split()` yields only non-empty tokens without white space, and nothing exactly when the text is all white space |
| PyText.SplitAtSpace | metrics.py:77 | `str.split()` of two parts joined by a whitespace character is the split of each part, one after the other |
| PyText.SplitWord | metrics.py:77 | a non-empty string without whitespace splits into itself alone |
| PyText.SplitJoinWords | metrics.py:77 | splitting words joined by single spaces gives the words back |
| PyText.SplitDropsTrailingSpace | metrics.py:77 | a trailing whitespace character adds no token |
| PyText.SplitLines | metrics.py:131 | `str.splitlines()` is empty exactly for the empty string; no line holds a line break; the first line runs up to the first line break |
| PyText.FirstOfSplitLines | metrics.py:131 | the first of `splitlines()` is the text before the first line break |
| PyText.ReadLines | metrics.py:88 | iterating the lines of a file gives nothing exactly for empty contents, and never more lines than characters |
| PyText.ParseInt | metrics.py:133 | `int()` accepts exactly an optional sign followed by ASCII digits with single underscores between digits, at most 4300 digits (the default `sys.get_int_max_str_digits()`); the value is the digits' value, negated after a minus sign |
| PyText.ParseIntRoundTrip | metrics.py:133 | `int(str(n)) == n` for every integer n of at most 4300 digits (beyond that `str(n)` raises), and `str(n)` is a single token |
| PyText.Stem | metrics.py:50 | the stem is the name cut before its last dot when that dot neither starts nor ends the name, and the whole name otherwise; it is a non-empty prefix of a non-empty name |
| PyText.StemOfDotless | metrics.py:56 | a name without a dot is listed under the name itself |
| PyText.StemHiddenIffNameHidden | metrics.py:50 | the stem starts with a dot exactly when the name does |
| Scenarios.ExampleVisibility | metrics.py:50 | of `alice/`, `.tmp/` and a file `notes`, only `alice/` is a visible directory |
| Scenarios.UsersExample | metrics.py:152-153 | a `rec/` holding `alice/`, `.tmp/` and a file `notes` has one user |
| Scenarios.StemExample | metrics.py:56 | the directory `alice.old` is listed under the name `alice` |
| Scenarios.MonitorExample | metrics.py:124-135 | the monitor contents `"1700000000 abc\n"` give the timestamp 1700000000 |

## Left out

- `get_version_info`'s HTTP request and `urljoin` (`metrics.py:156-160`) are network I/O. The model takes the decoded reply as a parameter, or `None` when the request or the decoding raised.
- GetVersionInfo: a reply whose `version` or `git` is not a string is not modelled. The reply is a map from strings to strings.
- `aiofiles` and `async`/`await` are left out. A file read is the file's contents, and the extractors run one after another.
- Symlinks and `Path.resolve()` (`metrics.py:56`) are left out: the tree has no links. Symlink cycles in the size walk are left out for the same reason.
- A tree that changes during a scan is left out: the tree is an immutable value.
- The order of `iterdir()` and `glob()` is whatever order the directory lists its entries in. The counts do not depend on it.
- Reading a file can raise `UnicodeDecodeError`, and `stat()` or `iterdir()` can fail on permissions. These are left out: contents are already text, and every entry is readable.
- Classify.IsJsonOfType: `loads` either returns a value or raises JSONDecodeError. The real `json.loads` can raise two more exceptions. It raises RecursionError on deeply nested input such as `"[" * 100000`. It raises a plain ValueError on an integer literal of more than 4300 digits, since the literal goes through `int()`. The `except` at metrics.py:32 catches neither. The `except ValueError` at metrics.py:79 catches the ValueError for a payload from a `.rec` row, so that row answers false in the source too. Nothing catches the RecursionError. So `get_cards_count`, `get_last_locations_count` and `get_waypoints_count` raise on such a `.json` file, and `get_locations_count` raises on a `.rec` row with a deeply nested payload. The model answers false there and goes on counting.
- The internals of `json.loads` are abstract: it is the parameter `loads`. Only the `_type` member of a decoded object is kept.
- PyText.ParseInt: accepts ASCII digits only. `int()` also accepts other Unicode decimal digits, and white space around the token, which `str.split()` has already removed.
- PyText.Stem: uses the classic pathlib rule for a name's last suffix: with `i = name.rfind('.')`, the stem is `name[:i]` when `0 < i < len(name) - 1` and `name` otherwise. So `"a.b"` gives `"a"`, while `".hidden"`, `"trailing."` and `"dotless"` are their own stems.
- PyText.ParseInt: the digit limit is the interpreter's default of 4300. A limit changed with `sys.set_int_max_str_digits()`, or an interpreter older than the limit, is not modelled.
- Entry names are assumed to be well-formed file names: non-empty and without `/`.
- PyText.ReadLines: states only its emptiness and length. The splitting of the contents into lines is its body.
- The Prometheus registry, the refresh scheduler and `asyncio.gather` in `main.py` are not part of this model, and neither is `settings.py`. They are wiring, timing and configuration, with no logic of the scanner.
