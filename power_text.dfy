/** The widget texts that the power meter's logging path reads back, and the
    fixed-length prefix slicing that recovers the chosen folder and the
    displayed power values from those texts. */
module PowerText {

  /** Text put in front of the chosen folder in the folder label. */
  const FolderPrefix: string := "Folder where logs will be saved: "
  /** The number of characters the log path strips off the folder label. */
  const FolderPrefixLength: nat := 33
  /** The folder label before any folder has been chosen. */
  const FolderNotSet: string := "Folder where logs will be saved: Not set yet"
  /** The filename line edit before the user has typed anything. */
  const FilenameNotSet: string := "Select a filename"

  /** Text put in front of a displayed power value, one per meter. */
  const PowerPrefix1: string := "Current Power 1: "
  const PowerPrefix2: string := "Current Power 2: "
  /** The number of characters the log message strips off each power label. */
  const PowerPrefixLength: nat := 17
  /** Unit put after a displayed power value. */
  const PowerUnit: string := " mW"

  /** Python's `s[n:]` for a non-negative `n`: what follows the first `n`
      characters, and the empty string when `s` is not longer than `n`. */
  function SliceFrom(s: string, n: nat): (r: string)
    ensures |s| <= n ==> r == []
    ensures n <= |s| ==> |r| == |s| - n && s == s[..n] + r
  {
    if n <= |s| then s[n..] else []
  }

  /** The folder label after the user has chosen the directory `dir`. */
  function FolderLabel(dir: string): (r: string)
    ensures |r| == FolderPrefixLength + |dir|
    ensures r[..FolderPrefixLength] == FolderPrefix && r[FolderPrefixLength..] == dir
  {
    FolderPrefix + dir
  }

  /** The file the log handler is configured with: the folder label without
      its first 33 characters, a slash, and the filename text. */
  function LogPath(folderLabel: string, filename: string): (r: string)
    ensures |folderLabel| <= FolderPrefixLength ==> r == "/" + filename
    ensures forall dir :: folderLabel == FolderLabel(dir) ==> r == dir + "/" + filename
  {
    SliceFrom(folderLabel, FolderPrefixLength) + "/" + filename
  }

  /** The power labels of meter 1 and meter 2 showing the formatted value `shown`. */
  function PowerLabel1(shown: string): (r: string)
    ensures |r| == PowerPrefixLength + |shown| + |PowerUnit|
    ensures r[..PowerPrefixLength] == PowerPrefix1 && r[PowerPrefixLength..] == shown + PowerUnit
  {
    PowerPrefix1 + shown + PowerUnit
  }

  function PowerLabel2(shown: string): (r: string)
    ensures |r| == PowerPrefixLength + |shown| + |PowerUnit|
    ensures r[..PowerPrefixLength] == PowerPrefix2 && r[PowerPrefixLength..] == shown + PowerUnit
  {
    PowerPrefix2 + shown + PowerUnit
  }

  /** The logged message: both power labels without their first 17
      characters, joined by a comma. */
  function LogMessage(label1: string, label2: string): (r: string)
    ensures |label1| <= PowerPrefixLength && |label2| <= PowerPrefixLength ==> r == ","
    ensures forall shown1, shown2 :: label1 == PowerLabel1(shown1) && label2 == PowerLabel2(shown2) ==>
      r == shown1 + " mW," + shown2 + " mW"
  {
    SliceFrom(label1, PowerPrefixLength) + "," + SliceFrom(label2, PowerPrefixLength)
  }

  /** One line of the log file: the handler's timestamp, a comma, the message. */
  function LogLine(timestamp: string, message: string): (r: string)
    ensures |r| == |timestamp| + 1 + |message|
    ensures r[..|timestamp|] == timestamp && r[|timestamp|] == ','
    ensures r[|timestamp| + 1..] == message
  {
    timestamp + "," + message
  }

  /** Stripping 33 characters off a folder label gives back the chosen directory. */
  lemma FolderRoundTrip(dir: string)
    ensures SliceFrom(FolderLabel(dir), FolderPrefixLength) == dir
  {
    assert FolderLabel(dir)[FolderPrefixLength..] == dir;
  }

  /** The log file is the chosen directory, a slash and the filename. */
  lemma LogPathOfChosenFolder(dir: string, filename: string)
    ensures LogPath(FolderLabel(dir), filename) == dir + "/" + filename
  {
    FolderRoundTrip(dir);
  }

  /** The string `FolderNotSet` is itself a folder label: the one for a
      directory named "Not set yet". The folder guard therefore refuses
      exactly that directory and accepts every other choice. */
  lemma FolderGuardRefusesExactly(dir: string)
    ensures FolderLabel(dir) == FolderNotSet <==> dir == "Not set yet"
  {
    assert FolderNotSet == FolderLabel("Not set yet");
    if FolderLabel(dir) == FolderNotSet {
      FolderRoundTrip(dir);
      FolderRoundTrip("Not set yet");
    }
  }

  /** A cancelled folder dialog yields the empty directory: the label then
      passes the folder guard and the log file lands directly under "/". */
  lemma CancelledDialogPath(filename: string)
    ensures FolderLabel("") != FolderNotSet
    ensures LogPath(FolderLabel(""), filename) == "/" + filename
  {
    FolderGuardRefusesExactly("");
    LogPathOfChosenFolder("", filename);
  }

  /** Stripping 17 characters off a power label gives the formatted value and its unit. */
  lemma PowerLabelRoundTrip(shown: string)
    ensures SliceFrom(PowerLabel1(shown), PowerPrefixLength) == shown + PowerUnit
    ensures SliceFrom(PowerLabel2(shown), PowerPrefixLength) == shown + PowerUnit
  {
    assert PowerLabel1(shown) == PowerPrefix1 + (shown + PowerUnit);
    assert PowerLabel2(shown) == PowerPrefix2 + (shown + PowerUnit);
  }

  /** Once both meters have shown a reading, the logged message is the two
      formatted values, each with its unit, separated by a comma. */
  lemma LogMessageOfReadings(shown1: string, shown2: string)
    ensures LogMessage(PowerLabel1(shown1), PowerLabel2(shown2))
         == shown1 + " mW," + shown2 + " mW"
  {
    PowerLabelRoundTrip(shown1);
    PowerLabelRoundTrip(shown2);
  }

  /** Before meter 1 has shown a reading its label is empty and contributes
      nothing before the comma; meter 2's value still follows it. */
  lemma LogMessageBeforeFirstReading(shown2: string)
    ensures LogMessage("", "") == ","
    ensures LogMessage("", PowerLabel2(shown2)) == "," + shown2 + " mW"
  {
    PowerLabelRoundTrip(shown2);
  }
}
