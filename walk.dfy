/** The tree walkers of metrics.py: the visible sub-directories of a
    directory, their names, the two-level user/device enumeration, and the
    recursive directory size. */
module Walk {
  import opened Base
  import opened PyText
  import opened Fs

  /** Hidden as the scanner tests it: on the stem of the name. By
      PyText.StemHiddenIffNameHidden this is the same as the name starting
      with a dot. */
  predicate IsHidden(name: string)
  {
    StartsWith(Stem(name), ".")
  }

  /** An entry _subdirs keeps: a directory that is not hidden. */
  predicate IsVisibleDir(e: Entry)
  {
    e.node.Dir? && !IsHidden(e.name)
  }

  /** The entries of es that are visible directories, in order. */
  function VisibleDirs(es: seq<Entry>): (r: seq<Entry>)
    ensures forall e :: e in r <==> e in es && IsVisibleDir(e)
    ensures |r| == CountOf(es, IsVisibleDir)
  {
    if es == [] then []
    else
      var rest := VisibleDirs(es[..|es| - 1]);
      assert forall e :: e in es <==> e in es[..|es| - 1] || e == es[|es| - 1];
      rest + if IsVisibleDir(es[|es| - 1]) then [es[|es| - 1]] else []
  }

  /** _subdirs: the child directories of p whose stem does not start with a
      dot, in iteration order; nothing when p is not a directory. */
  function Subdirs(p: Path): (r: seq<Entry>)
    ensures !IsDir(p) ==> r == []
    ensures IsDir(p) ==> forall e :: e in r <==> e in p.value.entries && IsVisibleDir(e)
    ensures IsDir(p) ==> |r| == CountOf(p.value.entries, IsVisibleDir)
  {
    if IsDir(p) then VisibleDirs(p.value.entries) else []
  }

  /** _subdir_names: the stem of each visible sub-directory. The stem, not
      the full name: a directory "alice.old" is listed as "alice". */
  function SubdirNames(p: Path): (r: seq<string>)
    ensures |r| == |Subdirs(p)|
    ensures forall i :: 0 <= i < |r| ==> r[i] == Stem(Subdirs(p)[i].name)
  {
    var ds := Subdirs(p);
    seq(|ds|, i requires 0 <= i < |ds| => Stem(ds[i].name))
  }

  /** One item of _user_device_dirs: the path root/user/device with the two
      names that built it. */
  datatype DeviceDir = DeviceDir(dir: Path, user: string, device: string)

  /** The items for one user whose directory is up, one per device name. */
  function DeviceDirsFor(up: Path, user: string, devices: seq<string>): (r: seq<DeviceDir>)
    ensures |r| == |devices|
  {
    seq(|devices|, i requires 0 <= i < |devices| => DeviceDir(Join(up, devices[i]), user, devices[i]))
  }

  lemma DeviceDirsForMembers(up: Path, user: string, devices: seq<string>, t: DeviceDir)
    ensures t in DeviceDirsFor(up, user, devices) <==>
              t.user == user && t.device in devices && t.dir == Join(up, t.device)
  {
    var here := DeviceDirsFor(up, user, devices);
    if t.user == user && t.device in devices && t.dir == Join(up, t.device) {
      var i :| 0 <= i < |devices| && devices[i] == t.device;
      assert here[i] == t;
    }
  }

  /** The items for one user: one per device name listed under root/user. */
  function DevicesUnder(root: Path, user: string): (r: seq<DeviceDir>)
    ensures |r| == |SubdirNames(Join(root, user))|
  {
    DeviceDirsFor(Join(root, user), user, SubdirNames(Join(root, user)))
  }

  /** The items for the given users, user after user. */
  function DeviceDirsOf(root: Path, users: seq<string>): seq<DeviceDir>
  {
    if users == [] then []
    else DeviceDirsOf(root, users[..|users| - 1]) + DevicesUnder(root, users[|users| - 1])
  }

  /** _user_device_dirs: for every user name listed under root, every device
      name listed under root/user. */
  function UserDeviceDirs(root: Path): (r: seq<DeviceDir>)
    ensures |r| == SumOf(SubdirNames(root), u => DeviceCount(root, u))
    ensures !IsDir(root) ==> r == []
  {
    DeviceDirsOfCount(root, SubdirNames(root));
    DeviceDirsOf(root, SubdirNames(root))
  }

  /** An item that _user_device_dirs yields for the given users. */
  predicate IsDeviceDirOf(root: Path, users: seq<string>, t: DeviceDir)
  {
    && t.user in users
    && t.device in SubdirNames(Join(root, t.user))
    && t.dir == Join(Join(root, t.user), t.device)
  }

  /** The items for a non-empty list of users: those of all users but the
      last, then those of the last. */
  lemma InLast(users: seq<string>, u: string)
    requires users != []
    ensures u in users <==> u in users[..|users| - 1] || u == users[|users| - 1]
  {
    assert users == users[..|users| - 1] + [users[|users| - 1]];
  }

  lemma DeviceDirsOfLast(root: Path, users: seq<string>, t: DeviceDir)
    requires users != []
    ensures t in DeviceDirsOf(root, users) <==>
              t in DeviceDirsOf(root, users[..|users| - 1]) || t in DevicesUnder(root, users[|users| - 1])
  {
    var init, last := DeviceDirsOf(root, users[..|users| - 1]), DevicesUnder(root, users[|users| - 1]);
    assert DeviceDirsOf(root, users) == init + last;
  }

  lemma {:induction false} DeviceDirsOfMembers(root: Path, users: seq<string>, t: DeviceDir)
    ensures t in DeviceDirsOf(root, users) <==> IsDeviceDirOf(root, users, t)
  {
    if users != [] {
      var last := users[|users| - 1];
      var init := users[..|users| - 1];
      DeviceDirsOfMembers(root, init, t);
      DeviceDirsForMembers(Join(root, last), last, SubdirNames(Join(root, last)), t);
      DeviceDirsOfLast(root, users, t);
      InLast(users, t.user);
    }
  }

  /** _user_device_dirs yields (root/user/device, user, device) exactly for
      the user names listed under root and the device names listed under
      root/user. */
  lemma UserDeviceDirsMembers(root: Path, t: DeviceDir)
    ensures t in UserDeviceDirs(root) <==>
              && t.user in SubdirNames(root)
              && t.device in SubdirNames(Join(root, t.user))
              && t.dir == Join(Join(root, t.user), t.device)
  {
    DeviceDirsOfMembers(root, SubdirNames(root), t);
  }

  /** The number of device names listed under root/user. */
  function DeviceCount(root: Path, user: string): nat
  {
    |SubdirNames(Join(root, user))|
  }

  lemma {:induction false} DeviceDirsOfCount(root: Path, users: seq<string>)
    ensures |DeviceDirsOf(root, users)| == SumOf(users, u => DeviceCount(root, u))
  {
    if users != [] {
      DeviceDirsOfCount(root, users[..|users| - 1]);
    }
  }

  /** _get_directory_size: the sizes of the regular files under p at every
      depth, added up. iterdir() on a missing path or on anything but a
      directory raises, and so does this. */
  method GetDirectorySize(p: Path) returns (r: Result<nat, FsError>)
    ensures p.None? ==> r == Err(FileNotFound)
    ensures p.Some? && !p.value.Dir? ==> r == Err(NotADirectory)
    ensures IsDir(p) ==> r == Ok(SumOf(FileSizes(p.value), Id))
    decreases if p.Some? then p.value else Other
  {
    if p.None? {
      return Err(FileNotFound);
    }
    if !p.value.Dir? {
      return Err(NotADirectory);
    }
    var es := p.value.entries;
    var total: nat := 0;
    for i := 0 to |es|
      invariant total == SumOf(EntriesFileSizes(es[..i]), Id)
    {
      EntriesFileSizesStep(es, i);
      SumOfAppend(EntriesFileSizes(es[..i]), FileSizes(es[i].node), Id);
      match es[i].node {
        case File(_, size) =>
          total := total + size;
        case Dir(_) =>
          var sub := GetDirectorySize(Some(es[i].node));
          total := total + sub.value;
        case Other =>
      }
    }
    assert es[..|es|] == es;
    return Ok(total);
  }
}
