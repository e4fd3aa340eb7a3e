module Scenarios {
  import opened Base
  import opened PyText
  import opened Fs
  import opened Walk
  import opened Classify
  import opened Extract

  /** The entries of an example rec/ directory: a user directory, a hidden
      directory and a file. */
  function ExampleRec(): seq<Entry>
  {
    [Entry("alice", Dir([])), Entry(".tmp", Dir([])), Entry("notes", File("x", 1))]
  }

  /** The count over three elements, one element at a time. */
  lemma CountOfThree<T>(s: seq<T>, p: T -> bool)
    requires |s| == 3
    ensures CountOf(s, p) == (if p(s[0]) then 1 else 0) + (if p(s[1]) then 1 else 0) + (if p(s[2]) then 1 else 0)
  {
    CountOfStep(s, 0, p);
    CountOfStep(s, 1, p);
    CountOfStep(s, 2, p);
    assert s[..0] == [] && s[..3] == s;
  }

  /** Which entries of the example are users. */
  lemma ExampleVisibility()
    ensures IsVisibleDir(ExampleRec()[0])
    ensures !IsVisibleDir(ExampleRec()[1])
    ensures !IsVisibleDir(ExampleRec()[2])
  {
    StemOfDotless("alice");
    assert "alice"[..1][0] != '.';
    StemHiddenIffNameHidden(".tmp");
  }

  lemma ExampleRecCount()
    ensures CountOf(ExampleRec(), IsVisibleDir) == 1
  {
    CountOfThree(ExampleRec(), IsVisibleDir);
    ExampleVisibility();
  }

  /** The example rec/ directory holds one user. */
  lemma UsersExample()
    ensures GetUsersCount(Some(Dir([Entry("rec", Dir(ExampleRec()))]))) == 1
  {
    ExampleRecCount();
    assert Join(Some(Dir([Entry("rec", Dir(ExampleRec()))])), "rec") == Some(Dir(ExampleRec()));
  }

  /** The directory alice.old is listed under the name alice. */
  lemma StemExample()
    ensures Stem("alice.old") == "alice"
  {
    var name := "alice.old";
    assert name[5] == '.' && name[6] == 'o' && name[7] == 'l' && name[8] == 'd';
    LastDotIs(name, 5);
    assert name[..5] == "alice";
  }

  lemma TimestampText()
    ensures IntToString(1700000000) == "1700000000"
  {
    assert NatToString(1) == "1";
    assert NatToString(17) == "17";
    assert NatToString(170) == "170";
    assert NatToString(1700) == "1700";
    assert NatToString(17000) == "17000";
    assert NatToString(170000) == "170000";
    assert NatToString(1700000) == "1700000";
    assert NatToString(17000000) == "17000000";
    assert NatToString(170000000) == "170000000";
  }

  lemma MonitorText()
    ensures JoinWords([IntToString(1700000000), "abc"]) + ['\n'] + "" == "1700000000 abc\n"
  {
    TimestampText();
  }

  /** A monitor file starting with "1700000000 abc" gives 1700000000. */
  lemma MonitorExample()
    ensures MonitorTimestamp("1700000000 abc\n") == Ok(1700000000)
  {
    assert IsWord("abc");
    MonitorText();
    MonitorRoundTrip(1700000000, "abc", '\n', "");
  }
}
