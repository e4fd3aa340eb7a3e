/** The metric extractors of metrics.py. Each reduces the storage directory
    of an OwnTracks Recorder to one number: users, devices, cards, last
    locations, locations, waypoints, storage size and the last-received
    timestamp; and the version record fetched from the Recorder's API.
    json.loads is the parameter loads throughout. */
module Extract {
  import opened Base
  import opened PyText
  import opened Fs
  import opened Walk
  import opened Classify

  /** get_users_count: the visible sub-directories of rec/; 0 without one. */
  function GetUsersCount(root: Path): (n: nat)
    ensures !IsDir(Join(root, "rec")) ==> n == 0
    ensures IsDir(Join(root, "rec")) ==> n == CountOf(Join(root, "rec").value.entries, IsVisibleDir)
  {
    |Subdirs(Join(root, "rec"))|
  }

  /** get_devices_count: every user's device count under rec/, added up;
      0 without rec/. */
  function GetDevicesCount(root: Path): (n: nat)
    ensures n == SumOf(SubdirNames(Join(root, "rec")), u => DeviceCount(Join(root, "rec"), u))
    ensures !IsDir(Join(root, "rec")) ==> n == 0
  {
    |UserDeviceDirs(Join(root, "rec"))|
  }

  /** 1 when cards/<user>/<user>.json is a card. */
  function UserCard(loads: string -> Decoded, cards: Path, user: string): nat
  {
    if IsJsonFileOfType(loads, Join(Join(cards, user), user + ".json"), "card") then 1 else 0
  }

  /** The two file names tried in cards/<user>/<device>, in order. */
  function DeviceCardNames(user: string, device: string): seq<string>
  {
    [user + "-" + device + ".json", user + ".json"]
  }

  predicate IsCardIn(loads: string -> Decoded, dir: Path, name: string)
  {
    IsJsonFileOfType(loads, Join(dir, name), "card")
  }

  /** What one device directory adds: each of its two file names that is a
      card adds one, the second whether or not the first did. */
  function DeviceCards(loads: string -> Decoded, e: DeviceDir): (k: nat)
    ensures k <= 2
  {
    CountOf(DeviceCardNames(e.user, e.device), name => IsCardIn(loads, e.dir, name))
  }

  /** The value get_cards_count computes. */
  function CardsCount(loads: string -> Decoded, root: Path): nat
  {
    var cards := Join(root, "cards");
    SumOf(SubdirNames(cards), u => UserCard(loads, cards, u))
      + SumOf(UserDeviceDirs(cards), e => DeviceCards(loads, e))
  }

  /** get_cards_count: one per user whose cards/<user>/<user>.json is a
      card, plus, per device directory, one per card among
      <user>-<device>.json and <user>.json. */
  method GetCardsCount(loads: string -> Decoded, root: Path) returns (count: nat)
    ensures count == CardsCount(loads, root)
  {
    var cardsDir := Join(root, "cards");
    var userCards := UserCardsIn(loads, cardsDir, SubdirNames(cardsDir));
    var deviceCards := CardsInDeviceDirs(loads, UserDeviceDirs(cardsDir));
    count := userCards + deviceCards;
  }

  /** The first loop of get_cards_count, over the user names. */
  method UserCardsIn(loads: string -> Decoded, cardsDir: Path, users: seq<string>) returns (count: nat)
    ensures count == SumOf(users, u => UserCard(loads, cardsDir, u))
  {
    count := 0;
    for i := 0 to |users|
      invariant count == SumOf(users[..i], u => UserCard(loads, cardsDir, u))
    {
      SumOfStep(users, i, u => UserCard(loads, cardsDir, u));
      var jsonFile := Join(Join(cardsDir, users[i]), users[i] + ".json");
      if IsJsonFileOfType(loads, jsonFile, "card") {
        count := count + 1;
      }
    }
    assert users[..|users|] == users;
  }

  /** The second loop of get_cards_count, over the device directories. */
  method CardsInDeviceDirs(loads: string -> Decoded, entries: seq<DeviceDir>) returns (count: nat)
    ensures count == SumOf(entries, e => DeviceCards(loads, e))
  {
    count := 0;
    for i := 0 to |entries|
      invariant count == SumOf(entries[..i], e => DeviceCards(loads, e))
    {
      var k := CardsInDeviceDir(loads, entries[i]);
      count := count + k;
      SumOfStep(entries, i, e => DeviceCards(loads, e));
    }
    assert entries[..|entries|] == entries;
  }

  /** The inner loop of get_cards_count: tries both file names of one
      device directory and counts each card. */
  method CardsInDeviceDir(loads: string -> Decoded, e: DeviceDir) returns (count: nat)
    ensures count == DeviceCards(loads, e)
  {
    var names := DeviceCardNames(e.user, e.device);
    count := 0;
    for j := 0 to |names|
      invariant count == CountOf(names[..j], name => IsCardIn(loads, e.dir, name))
    {
      CountOfStep(names, j, name => IsCardIn(loads, e.dir, name));
      var jsonFile := Join(e.dir, names[j]);
      if IsJsonFileOfType(loads, jsonFile, "card") {
        count := count + 1;
      }
    }
    assert names[..|names|] == names;
  }

  /** Each of the two card files of a device directory adds one on its
      own: the scan does not stop at the first card it finds there. */
  lemma DeviceCardsEach(loads: string -> Decoded, e: DeviceDir)
    ensures DeviceCards(loads, e) ==
              (if IsCardIn(loads, e.dir, e.user + "-" + e.device + ".json") then 1 else 0)
              + (if IsCardIn(loads, e.dir, e.user + ".json") then 1 else 0)
  {
  }

  /** At most one card per user and two per device directory; none without
      cards/. */
  lemma CardsCountBound(loads: string -> Decoded, root: Path)
    ensures CardsCount(loads, root) <= |SubdirNames(Join(root, "cards"))| + 2 * |UserDeviceDirs(Join(root, "cards"))|
    ensures !IsDir(Join(root, "cards")) ==> CardsCount(loads, root) == 0
  {
    var cards := Join(root, "cards");
    var users := SubdirNames(cards);
    var entries := UserDeviceDirs(cards);
    assert SumOf(users, u => UserCard(loads, cards, u)) <= |users| by {
      forall i | 0 <= i < |users|
        ensures UserCard(loads, cards, users[i]) <= 1
      {
      }
      SumOfBound(users, u => UserCard(loads, cards, u), 1);
    }
    assert SumOf(entries, e => DeviceCards(loads, e)) <= 2 * |entries| by {
      forall i | 0 <= i < |entries|
        ensures DeviceCards(loads, entries[i]) <= 2
      {
      }
      SumOfBound(entries, e => DeviceCards(loads, e), 2);
    }
  }

  /** last/<user>/<device>/<user>-<device>.json is a location. */
  predicate HasLastLocation(loads: string -> Decoded, e: DeviceDir)
  {
    IsJsonFileOfType(loads, Join(e.dir, e.user + "-" + e.device + ".json"), "location")
  }

  /** The value get_last_locations_count computes. */
  function LastLocationsCount(loads: string -> Decoded, root: Path): nat
  {
    CountOf(UserDeviceDirs(Join(root, "last")), e => HasLastLocation(loads, e))
  }

  /** get_last_locations_count: the device directories under last/ whose
      <user>-<device>.json is a location. */
  method GetLastLocationsCount(loads: string -> Decoded, root: Path) returns (count: nat)
    ensures count == LastLocationsCount(loads, root)
  {
    var entries := UserDeviceDirs(Join(root, "last"));
    count := LastLocationsIn(loads, entries);
  }

  /** The loop of get_last_locations_count, over the device directories. */
  method LastLocationsIn(loads: string -> Decoded, entries: seq<DeviceDir>) returns (count: nat)
    ensures count == CountOf(entries, e => HasLastLocation(loads, e))
  {
    count := 0;
    for i := 0 to |entries|
      invariant count == CountOf(entries[..i], e => HasLastLocation(loads, e))
    {
      CountOfStep(entries, i, e => HasLastLocation(loads, e));
      var e := entries[i];
      var jsonFile := Join(e.dir, e.user + "-" + e.device + ".json");
      if IsJsonFileOfType(loads, jsonFile, "location") {
        count := count + 1;
      }
    }
    assert entries[..|entries|] == entries;
  }

  /** At most one last location per device directory under last/; none
      without last/. */
  lemma LastLocationsCountBound(loads: string -> Decoded, root: Path)
    ensures LastLocationsCount(loads, root) <= |UserDeviceDirs(Join(root, "last"))|
    ensures !IsDir(Join(root, "last")) ==> LastLocationsCount(loads, root) == 0
  {
  }

  /** The location rows of the *.rec files directly in one device directory. */
  function DeviceLocations(loads: string -> Decoded, e: DeviceDir): nat
  {
    SumOf(Glob(e.dir, ".rec"), (f: Entry) => RecLocations(loads, f.node))
  }

  /** The inner loop of get_locations_count: the location rows of every
      *.rec entry directly in one device directory. */
  method LocationsInDeviceDir(loads: string -> Decoded, e: DeviceDir) returns (count: nat)
    ensures count == DeviceLocations(loads, e)
  {
    var recFiles := Glob(e.dir, ".rec");
    count := 0;
    for j := 0 to |recFiles|
      invariant count == SumOf(recFiles[..j], (f: Entry) => RecLocations(loads, f.node))
    {
      SumOfStep(recFiles, j, (f: Entry) => RecLocations(loads, f.node));
      var k := LocationsInRecFile(loads, Some(recFiles[j].node));
      count := count + k;
    }
    assert recFiles[..|recFiles|] == recFiles;
  }

  /** The value get_locations_count computes. */
  function LocationsCount(loads: string -> Decoded, root: Path): nat
  {
    SumOf(UserDeviceDirs(Join(root, "rec")), e => DeviceLocations(loads, e))
  }

  /** get_locations_count: over the device directories under rec/ and the
      *.rec entries directly in each, the location rows, added up. */
  method GetLocationsCount(loads: string -> Decoded, root: Path) returns (count: nat)
    ensures count == LocationsCount(loads, root)
  {
    var entries := UserDeviceDirs(Join(root, "rec"));
    count := LocationsInDeviceDirs(loads, entries);
  }

  /** The outer loop of get_locations_count, over the device directories. */
  method LocationsInDeviceDirs(loads: string -> Decoded, entries: seq<DeviceDir>) returns (count: nat)
    ensures count == SumOf(entries, e => DeviceLocations(loads, e))
  {
    count := 0;
    for i := 0 to |entries|
      invariant count == SumOf(entries[..i], e => DeviceLocations(loads, e))
    {
      var k := LocationsInDeviceDir(loads, entries[i]);
      count := count + k;
      SumOfStep(entries, i, e => DeviceLocations(loads, e));
    }
    assert entries[..|entries|] == entries;
  }

  /** The lines of one .rec entry; entries that are not regular files have
      none. */
  function RecLines(f: Entry): nat
  {
    if f.node.File? then |ReadLines(f.node.contents)| else 0
  }

  /** The lines of the *.rec files directly in one device directory. */
  function DeviceRecLines(e: DeviceDir): nat
  {
    SumOf(Glob(e.dir, ".rec"), RecLines)
  }

  lemma DeviceLocationsBound(loads: string -> Decoded, e: DeviceDir)
    ensures DeviceLocations(loads, e) <= DeviceRecLines(e)
  {
    SumOfMono(Glob(e.dir, ".rec"), (f: Entry) => RecLocations(loads, f.node), RecLines);
  }

  /** No more location rows than lines in the .rec files; none without rec/. */
  lemma LocationsCountBound(loads: string -> Decoded, root: Path)
    ensures LocationsCount(loads, root) <= SumOf(UserDeviceDirs(Join(root, "rec")), DeviceRecLines)
    ensures !IsDir(Join(root, "rec")) ==> LocationsCount(loads, root) == 0
  {
    var entries := UserDeviceDirs(Join(root, "rec"));
    forall i | 0 <= i < |entries|
      ensures DeviceLocations(loads, entries[i]) <= DeviceRecLines(entries[i])
    {
      DeviceLocationsBound(loads, entries[i]);
    }
    SumOfMono(entries, e => DeviceLocations(loads, e), DeviceRecLines);
  }

  predicate IsWaypointFile(loads: string -> Decoded, f: Entry)
  {
    IsJsonFileOfType(loads, Some(f.node), "waypoint")
  }

  /** The waypoint files among the *.json entries of one device directory. */
  function DeviceWaypoints(loads: string -> Decoded, e: DeviceDir): (k: nat)
    ensures k <= |Glob(e.dir, ".json")|
  {
    CountOf(Glob(e.dir, ".json"), f => IsWaypointFile(loads, f))
  }

  /** The inner loop of get_waypoints_count: the waypoint files among the
      *.json entries directly in one device directory. */
  method WaypointsInDeviceDir(loads: string -> Decoded, e: DeviceDir) returns (count: nat)
    ensures count == DeviceWaypoints(loads, e)
    ensures count <= |Glob(e.dir, ".json")|
  {
    var jsonFiles := Glob(e.dir, ".json");
    count := 0;
    for j := 0 to |jsonFiles|
      invariant count == CountOf(jsonFiles[..j], f => IsWaypointFile(loads, f))
    {
      CountOfStep(jsonFiles, j, f => IsWaypointFile(loads, f));
      if IsJsonFileOfType(loads, Some(jsonFiles[j].node), "waypoint") {
        count := count + 1;
      }
    }
    assert jsonFiles[..|jsonFiles|] == jsonFiles;
  }

  /** The value get_waypoints_count computes. */
  function WaypointsCount(loads: string -> Decoded, root: Path): nat
  {
    SumOf(UserDeviceDirs(Join(root, "waypoints")), e => DeviceWaypoints(loads, e))
  }

  /** get_waypoints_count: over the device directories under waypoints/,
      the *.json entries directly in each that are waypoint files. */
  method GetWaypointsCount(loads: string -> Decoded, root: Path) returns (count: nat)
    ensures count == WaypointsCount(loads, root)
  {
    var entries := UserDeviceDirs(Join(root, "waypoints"));
    count := WaypointsInDeviceDirs(loads, entries);
  }

  /** The *.json entries directly in one device directory. */
  function DeviceJsonEntries(e: DeviceDir): nat
  {
    |Glob(e.dir, ".json")|
  }

  /** At most one waypoint per *.json entry of a device directory; none
      without waypoints/. */
  lemma WaypointsCountBound(loads: string -> Decoded, root: Path)
    ensures WaypointsCount(loads, root) <= SumOf(UserDeviceDirs(Join(root, "waypoints")), DeviceJsonEntries)
    ensures !IsDir(Join(root, "waypoints")) ==> WaypointsCount(loads, root) == 0
  {
    var entries := UserDeviceDirs(Join(root, "waypoints"));
    forall i | 0 <= i < |entries|
      ensures DeviceWaypoints(loads, entries[i]) <= DeviceJsonEntries(entries[i])
    {
    }
    SumOfMono(entries, e => DeviceWaypoints(loads, e), DeviceJsonEntries);
  }

  /** The outer loop of get_waypoints_count, over the device directories. */
  method WaypointsInDeviceDirs(loads: string -> Decoded, entries: seq<DeviceDir>) returns (count: nat)
    ensures count == SumOf(entries, e => DeviceWaypoints(loads, e))
  {
    count := 0;
    for i := 0 to |entries|
      invariant count == SumOf(entries[..i], e => DeviceWaypoints(loads, e))
    {
      var k := WaypointsInDeviceDir(loads, entries[i]);
      count := count + k;
      SumOfStep(entries, i, e => DeviceWaypoints(loads, e));
    }
    assert entries[..|entries|] == entries;
  }

  /** get_storagedir_size: the size of the whole storage directory; raises,
      as the scan does, when the directory is missing or not a directory. */
  method GetStoragedirSize(root: Path) returns (r: Result<nat, FsError>)
    ensures IsDir(root) ==> r == Ok(SumOf(FileSizes(root.value), Id))
    ensures root.None? ==> r == Err(FileNotFound)
    ensures root.Some? && !root.value.Dir? ==> r == Err(NotADirectory)
  {
    r := GetDirectorySize(root);
  }

  /** The timestamp in the monitor file's contents, or the exception that
      ends the attempt: no first line (IndexError), a first line that does
      not split into exactly two tokens, or a first token int() rejects
      (ValueError). */
  function MonitorTimestamp(contents: string): (r: Result<int, PyError>)
    ensures r == Err(IndexError) <==> contents == []
    ensures r.Ok? ==> |Split(SplitLines(contents)[0])| == 2
                      && ParseInt(Split(SplitLines(contents)[0])[0]) == Some(r.value)
    ensures contents != [] && |Split(SplitLines(contents)[0])| == 2
            && ParseInt(Split(SplitLines(contents)[0])[0]).Some? ==>
              r == Ok(ParseInt(Split(SplitLines(contents)[0])[0]).value)
    ensures r.Err? ==> r.error == IndexError || r.error == ValueError
  {
    var lines := SplitLines(contents);
    if lines == [] then Err(IndexError)
    else
      var fields := Split(lines[0]);
      if |fields| != 2 then Err(ValueError)
      else match ParseInt(fields[0])
        case None => Err(ValueError)
        case Some(t) => Ok(t)
  }

  /** get_last_received_timestamp: the timestamp of the monitor file's first
      line, and 0 in every case where reading it fails. */
  function GetLastReceivedTimestamp(root: Path): (t: int)
    ensures !IsFile(Join(root, "monitor")) ==> t == 0
    ensures IsFile(Join(root, "monitor")) ==>
              var contents := Join(root, "monitor").value.contents;
              if contents != [] && |Split(SplitLines(contents)[0])| == 2
                 && ParseInt(Split(SplitLines(contents)[0])[0]).Some?
              then t == ParseInt(Split(SplitLines(contents)[0])[0]).value
              else t == 0
  {
    var monitor := Join(root, "monitor");
    if !IsFile(monitor) then 0
    else match MonitorTimestamp(monitor.value.contents)
      case Ok(v) => v
      case Err(_) => 0
  }

  /** A monitor file whose first line is "<n> <word>" gives n back, whatever
      follows the first line, when str() can write n at all. */
  lemma MonitorRoundTrip(n: int, w: string, c: char, rest: string)
    requires |NatToString(if n < 0 then -n else n)| <= MaxStrDigits
    requires IsWord(w) && IsLineBreak(c)
    ensures MonitorTimestamp(JoinWords([IntToString(n), w]) + [c] + rest) == Ok(n)
  {
    var ws := [IntToString(n), w];
    ParseIntRoundTrip(n);
    JoinWordsHasNoLineBreak(ws);
    FirstOfSplitLines(JoinWords(ws), c, rest);
    SplitJoinWords(ws);
  }

  /** A monitor file holding only "<n> <word>", without a line break, gives
      n back too. */
  lemma MonitorWithoutLineBreak(n: int, w: string)
    requires |NatToString(if n < 0 then -n else n)| <= MaxStrDigits
    requires IsWord(w)
    ensures MonitorTimestamp(JoinWords([IntToString(n), w])) == Ok(n)
  {
    var ws := [IntToString(n), w];
    var s := JoinWords(ws);
    ParseIntRoundTrip(n);
    JoinWordsHasNoLineBreak(ws);
    assert PrefixRun(s, IsNotLineBreak) == |s|;
    assert SplitLines(s)[0] == s;
    SplitJoinWords(ws);
  }

  /** A first line of three or more tokens gives no timestamp, even when
      the first token is a number. */
  lemma MonitorWithThreeTokens(ws: seq<string>, c: char, rest: string)
    requires |ws| >= 3 && forall i :: 0 <= i < |ws| ==> IsWord(ws[i])
    requires IsLineBreak(c)
    ensures MonitorTimestamp(JoinWords(ws) + [c] + rest) == Err(ValueError)
  {
    JoinWordsHasNoLineBreak(ws);
    FirstOfSplitLines(JoinWords(ws), c, rest);
    SplitJoinWords(ws);
  }

  /** get_version_info, with the HTTP request left out: reply is the body
      of /api/0/version decoded as a JSON object of strings, or None when
      the request or the decoding raised. */
  datatype VersionInfo = VersionInfo(version: string, git: string)

  function GetVersionInfo(reply: Option<map<string, string>>): (v: VersionInfo)
    ensures reply.None? ==> v == VersionInfo("", "")
    ensures reply.Some? && "version" in reply.value && "git" in reply.value ==>
              v == VersionInfo(reply.value["version"], reply.value["git"])
    ensures reply.Some? && !("version" in reply.value && "git" in reply.value) ==> v == VersionInfo("", "")
  {
    if reply.Some? && "version" in reply.value && "git" in reply.value then
      VersionInfo(reply.value["version"], reply.value["git"])
    else
      VersionInfo("", "")
  }
}
