/** The configuration side of the GUI in main.py: where a user's settings file
    lives, how the form's display values become the stored values, how the
    settings and account forms update a settings file, the time-slot choices,
    which script a run launches and with which arguments, and how the
    leftover-query result is shown. */
module Gui {
  import opened Web
  import opened Text
  import opened Disk
  import Ticket

  const ConfigPrefix := "config/settings_"
  const JsonSuffix := ".json"

  /** `get_config_file_path(username)`, with `/` as the path separator. */
  function ConfigFilePath(username: string): string {
    ConfigPrefix + username + JsonSuffix
  }

  /** The user a settings path belongs to, if it is a settings path at all. */
  function UserOfConfigPath(path: string): Option<string> {
    if |path| >= |ConfigPrefix| + |JsonSuffix| && path[..|ConfigPrefix|] == ConfigPrefix
       && path[|path| - |JsonSuffix|..] == JsonSuffix
    then Some(path[|ConfigPrefix|..|path| - |JsonSuffix|])
    else None
  }

  /** The venue the settings store for the venue box: its first character, or
      nothing when the box is empty. */
  function ConvertVenue(display: string): string {
    if display != "" then [display[0]] else ""
  }

  /** The court the settings store for the court box. */
  function ConvertCourt(display: string): string {
    if display == "内场" then "in" else if display == "外场" then "out" else ""
  }

  /** The raw contents of the appointment and advanced-settings boxes. */
  datatype AppointmentForm = AppointmentForm(
    date: string, timeSlot: string, venue: string, court: string,
    viewable: string, waitTimeout: string)

  /** The six appointment settings `save_settings` stores, each box stripped
      and venue and court converted. */
  function Appointment(form: AppointmentForm): map<string, string> {
    map["date" := Strip(form.date), "time_slot" := Strip(form.timeSlot),
        "venue" := ConvertVenue(Strip(form.venue)), "court" := ConvertCourt(Strip(form.court)),
        "viewable" := Strip(form.viewable), "wait_timeout_seconds" := Strip(form.waitTimeout)]
  }

  /** The settings that may not be left empty: all but the court. */
  const RequiredKeys: set<string> := {"date", "time_slot", "venue", "viewable", "wait_timeout_seconds"}

  /** The validation of `save_settings`. */
  predicate MissingRequired(form: AppointmentForm) {
    Strip(form.date) == "" || Strip(form.timeSlot) == "" || ConvertVenue(Strip(form.venue)) == ""
    || Strip(form.viewable) == "" || Strip(form.waitTimeout) == ""
  }

  /** The three account settings `save_account` stores. */
  function Account(username: string, password: string, payPass: string): map<string, string> {
    map["username" := username, "password" := password, "pay_pass" := payPass]
  }

  /** How a save ended; the failures are logged or shown, never raised. */
  datatype SaveResult = SavedTo(path: string) | NoUsername | UnreadableConfig(path: string) | MissingField

  /** A save's result, the GUI's current settings file after it, and the settings files. */
  datatype SaveEffect = SaveEffect(result: SaveResult, current: Option<string>, files: map<string, SettingsFile>)

  /** The settings read from `path`, `{}` when there is no such file. */
  function ReadSettings(files: map<string, SettingsFile>, path: string): map<string, string> {
    if path in files && files[path].SettingsJson? then files[path].settings else map[]
  }

  predicate Unreadable(files: map<string, SettingsFile>, path: string) {
    path in files && files[path].SettingsGarbled?
  }

  /** `save_settings`: choose the settings file (the current one, or the
      username's), read it, validate the form, write the file updated with the
      appointment settings. The choice of file sticks even when a later step fails. */
  function SaveSettingsEffect(current: Option<string>, files: map<string, SettingsFile>,
                              usernameField: string, form: AppointmentForm): SaveEffect {
    var cur := if current.Some? then current
               else if Strip(usernameField) == "" then None
               else Some(ConfigFilePath(Strip(usernameField)));
    if cur.None? then SaveEffect(NoUsername, current, files)
    else if Unreadable(files, cur.value) then SaveEffect(UnreadableConfig(cur.value), cur, files)
    else if MissingRequired(form) then SaveEffect(MissingField, cur, files)
    else SaveEffect(SavedTo(cur.value), cur,
                    files[cur.value := SettingsJson(ReadSettings(files, cur.value) + Appointment(form))])
  }

  /** `save_account`: read the current settings file, if any, update it with
      the account settings, and write the result to the settings file of the
      new username, which becomes the current one. */
  function SaveAccountEffect(current: Option<string>, files: map<string, SettingsFile>,
                             usernameField: string, password: string, payPass: string): SaveEffect {
    var username := Strip(usernameField);
    if username == "" then SaveEffect(NoUsername, current, files)
    else if current.Some? && Unreadable(files, current.value) then SaveEffect(UnreadableConfig(current.value), current, files)
    else
      var settings := if current.Some? then ReadSettings(files, current.value) else map[];
      var path := ConfigFilePath(username);
      SaveEffect(SavedTo(path), Some(path), files[path := SettingsJson(settings + Account(username, password, payPass))])
  }

  /** One choice of the time-slot box: `f"{h:02d}:00-{h+1:02d}:00"`. */
  function SlotLabel(hour: nat): string
    requires hour < 99
  {
    TwoDigits(hour) + ":00-" + TwoDigits(hour + 1) + ":00"
  }

  /** The hour a slot label starts at: its first two digits. */
  function LabelStart(slot: string): nat
    requires |slot| >= 2 && AllDigits(slot[..2])
  {
    DecimalValue(slot[..2])
  }

  /** The hour a slot label ends at: the two digits after the dash. */
  function LabelEnd(slot: string): nat
    requires |slot| >= 8 && AllDigits(slot[6..8])
  {
    DecimalValue(slot[6..8])
  }

  datatype Script = BookingScript | LoginScript | LeftoverScript

  /** `script_map.get(mode)`. */
  function ScriptFor(mode: int): Option<Script> {
    if mode == 1 then Some(BookingScript)
    else if mode == 2 then Some(LoginScript)
    else if mode == 3 then Some(LeftoverScript)
    else None
  }

  /** `settings.get('viewable', 'yes')`. */
  function Viewable(settings: map<string, string>): string {
    if "viewable" in settings then settings["viewable"] else "yes"
  }

  /** The `sys.argv` a run hands to the script. */
  function Argv(path: string, settings: map<string, string>, mode: int): seq<string> {
    ["script.py", "--config=" + path]
      + (if IsYes(Viewable(settings)) && (mode == 1 || mode == 2) then ["--headed"] else [])
  }

  /** What `run_script` gets to: a script to call with its arguments, or the
      error it shows instead. */
  datatype Launch =
    | Start(script: Script, argv: seq<string>)
    | NoUsernameSet
    | ConfigMissing(path: string)
    | ConfigUnreadable(path: string)
    | InvalidMode(mode: int)

  /** `run_script(mode)` up to calling the script, with the current settings file after it. */
  function LaunchFor(current: Option<string>, files: map<string, SettingsFile>,
                     usernameField: string, mode: int): (Launch, Option<string>) {
    if current.None? && Strip(usernameField) == "" then (NoUsernameSet, current)
    else
      var path := if current.Some? then current.value else ConfigFilePath(Strip(usernameField));
      if current.None? && path !in files then (ConfigMissing(path), Some(path))
      else if path !in files || files[path].SettingsGarbled? then (ConfigUnreadable(path), Some(path))
      else match ScriptFor(mode)
        case None => (InvalidMode(mode), Some(path))
        case Some(script) => (Start(script, Argv(path, files[path].settings, mode)), Some(path))
  }

  /** One line of the leftover list: `f"{i}. {timeslot}\n"`. */
  function NumberedLine(i: nat, slot: string): string {
    NatToString(i) + ". " + slot + "\n"
  }

  const NoResultFile := "查询失败：未找到结果文件"
  const NoSlots := "当日没有可预订的时间段"
  const SlotsHeader := "当日有票的时间段：\n"

  /** What `display_leftover_timeslots` writes into the result box. */
  function DisplayLines(file: Option<ResultFile>): seq<string> {
    match file
    case None => [NoResultFile]
    case Some(ResultGarbled(message)) => ["查询失败：" + message]
    case Some(ResultJson(slots)) =>
      if slots.None? || slots.value == [] then [NoSlots]
      else [SlotsHeader] + seq(|slots.value|, k requires 0 <= k < |slots.value| => NumberedLine(k + 1, slots.value[k]))
  }

  /** The longest prefix of decimal digits. */
  function DigitPrefix(s: string): (d: string)
    ensures |d| <= |s| && d == s[..|d|] && AllDigits(d)
  {
    if s != [] && IsDigit(s[0]) then [s[0]] + DigitPrefix(s[1..]) else []
  }

  /** Reads a numbered line back: its number and its slot. */
  function ParseLine(line: string): Option<(nat, string)> {
    var d := DigitPrefix(line);
    var rest := line[|d|..];
    if d != [] && |rest| >= 3 && rest[..2] == ". " && rest[|rest| - 1] == '\n'
    then Some((DecimalValue(d), rest[2..|rest| - 1]))
    else None
  }

  // ----- properties -----

  /** The settings path of a user names that user and nobody else: reading the
      user back from the path gives the username. */
  lemma ConfigPathRoundTrip(username: string)
    ensures UserOfConfigPath(ConfigFilePath(username)) == Some(username)
  {
    var p := ConfigFilePath(username);
    assert p[..|ConfigPrefix|] == ConfigPrefix;
    assert p[|p| - |JsonSuffix|..] == JsonSuffix;
    assert p[|ConfigPrefix|..|p| - |JsonSuffix|] == username;
  }

  /** Every path a user is read back from is that user's settings path. */
  lemma ConfigPathOfUser(path: string, username: string)
    requires UserOfConfigPath(path) == Some(username)
    ensures ConfigFilePath(username) == path
  {
    assert path == path[..|ConfigPrefix|] + path[|ConfigPrefix|..|path| - |JsonSuffix|] + path[|path| - |JsonSuffix|..];
  }

  /** The path of a user is in the config directory, contains the username and
      ends in ".json"; two users never share a settings file. */
  lemma ConfigPathShape(username: string, other: string)
    ensures var p := ConfigFilePath(username);
      p[..7] == "config/" && p[|ConfigPrefix|..|ConfigPrefix| + |username|] == username
      && p[|p| - 5..] == ".json"
    ensures ConfigFilePath(username) == ConfigFilePath(other) ==> username == other
  {
    ConfigPathRoundTrip(username);
    ConfigPathRoundTrip(other);
    var p := ConfigFilePath(username);
    assert p[..7] == "config/";
  }

  /** The three venue choices of the form convert to the codes the booking page
      accepts; any display value converts to at most one character. */
  lemma VenueChoices(display: string)
    ensures Ticket.ImageId(ConvertVenue("A - 健身房")).Some?
    ensures Ticket.ImageId(ConvertVenue("B - 羽毛球场")).Some?
    ensures Ticket.ImageId(ConvertVenue("C - 篮球场")).Some?
    ensures |ConvertVenue(display)| <= 1 && (ConvertVenue(display) == "" <==> display == "")
  {
  }

  /** "外场" (outdoor) is the one court choice that books the outdoor court;
      "内场" stores "in", everything else stores "". */
  lemma CourtChoices(display: string)
    ensures ConvertCourt(display) == "out" <==> display == "外场"
    ensures ConvertCourt(display) == "in" <==> display == "内场"
    ensures ConvertCourt(display) != "in" && ConvertCourt(display) != "out" ==> ConvertCourt(display) == ""
    ensures Ticket.CourtFor(Some(ConvertCourt(display))) == Ticket.OutdoorCourt <==> display == "外场"
  {
  }

  /** The form is rejected exactly when one of the required settings it would
      store is empty; an empty court is accepted. */
  lemma MissingRequiredIff(form: AppointmentForm)
    ensures MissingRequired(form) <==> exists k :: k in RequiredKeys && Appointment(form)[k] == ""
    ensures "court" !in RequiredKeys && RequiredKeys < Appointment(form).Keys
  {
    var a := Appointment(form);
    if MissingRequired(form) {
      if Strip(form.date) == "" { assert a["date"] == ""; }
      else if Strip(form.timeSlot) == "" { assert a["time_slot"] == ""; }
      else if ConvertVenue(Strip(form.venue)) == "" { assert a["venue"] == ""; }
      else if Strip(form.viewable) == "" { assert a["viewable"] == ""; }
      else { assert a["wait_timeout_seconds"] == ""; }
    }
  }

  /** A successful `save_settings` writes one file: the settings it read, with
      exactly the six appointment settings overwritten and every other setting
      kept. A failed one writes nothing. */
  lemma SaveSettingsContract(current: Option<string>, files: map<string, SettingsFile>,
                             usernameField: string, form: AppointmentForm)
    ensures var e := SaveSettingsEffect(current, files, usernameField, form);
      e.result.SavedTo? ==>
        var p := e.result.path;
        var old_ := ReadSettings(files, p);
        e.current == Some(p) && !MissingRequired(form)
        && e.files.Keys == files.Keys + {p} && (forall q :: q in files && q != p ==> e.files[q] == files[q])
        && e.files[p].SettingsJson?
        && e.files[p].settings.Keys == old_.Keys + Appointment(form).Keys
        && (forall k :: k in Appointment(form) ==> e.files[p].settings[k] == Appointment(form)[k])
        && (forall k :: k in old_ && k !in Appointment(form) ==> e.files[p].settings[k] == old_[k])
    ensures var e := SaveSettingsEffect(current, files, usernameField, form);
      !e.result.SavedTo? ==> e.files == files
    ensures var e := SaveSettingsEffect(current, files, usernameField, form);
      (e.result == NoUsername <==> current.None? && Strip(usernameField) == "")
      && (e.result == MissingField ==> MissingRequired(form))
      && (current.Some? ==> e.current == current)
    ensures var e := SaveSettingsEffect(current, files, usernameField, form);
      current.Some? || Strip(usernameField) != "" ==>
        var cur := if current.Some? then current.value else ConfigFilePath(Strip(usernameField));
        && e.current == Some(cur)
        && (e.result == UnreadableConfig(cur) <==> Unreadable(files, cur))
        && (e.result == MissingField <==> !Unreadable(files, cur) && MissingRequired(form))
        && (e.result.SavedTo? <==> !Unreadable(files, cur) && !MissingRequired(form))
        && (e.result.SavedTo? ==> e.result.path == cur)
  {
  }

  /** A successful `save_account` writes the settings file of the stripped
      username, which becomes current: the settings of the previously current
      file with the three account settings overwritten. An empty username is
      refused and nothing changes. */
  lemma SaveAccountContract(current: Option<string>, files: map<string, SettingsFile>,
                            usernameField: string, password: string, payPass: string)
    ensures var e := SaveAccountEffect(current, files, usernameField, password, payPass);
      (e.result == NoUsername <==> Strip(usernameField) == "")
      && (!e.result.SavedTo? ==> e.files == files && e.current == current)
      && (e.result.SavedTo? <==> Strip(usernameField) != "" && !(current.Some? && Unreadable(files, current.value)))
      && (e.result.UnreadableConfig? <==>
            Strip(usernameField) != "" && current.Some? && Unreadable(files, current.value))
      && (e.result.UnreadableConfig? ==> e.result.path == current.value)
    ensures var e := SaveAccountEffect(current, files, usernameField, password, payPass);
      e.result.SavedTo? ==>
        var u := Strip(usernameField);
        var p := ConfigFilePath(u);
        var old_ := if current.Some? then ReadSettings(files, current.value) else map[];
        e.result.path == p && e.current == Some(p) && UserOfConfigPath(p) == Some(u)
        && e.files.Keys == files.Keys + {p} && (forall q :: q in files && q != p ==> e.files[q] == files[q])
        && e.files[p].SettingsJson?
        && e.files[p].settings.Keys == old_.Keys + {"username", "password", "pay_pass"}
        && e.files[p].settings["username"] == u && e.files[p].settings["password"] == password
        && e.files[p].settings["pay_pass"] == payPass
        && (forall k :: k in old_ && k !in {"username", "password", "pay_pass"} ==> e.files[p].settings[k] == old_[k])
  {
    var e := SaveAccountEffect(current, files, usernameField, password, payPass);
    if e.result.SavedTo? {
      ConfigPathRoundTrip(Strip(usernameField));
    }
  }

  /** A slot label reads back as the hour it starts at and the next hour. */
  lemma SlotLabelHours(hour: nat)
    requires hour < 99
    ensures var l := SlotLabel(hour);
      |l| == 11 && AllDigits(l[..2]) && AllDigits(l[6..8])
      && LabelStart(l) == hour && LabelEnd(l) == hour + 1
  {
    var l := SlotLabel(hour);
    assert l[..2] == TwoDigits(hour);
    assert l[6..8] == TwoDigits(hour + 1);
  }

  /** The time-slot choices: fourteen one-hour labels from 08:00-09:00 to
      21:00-22:00, in ascending order of their start, each ending where the next begins. */
  lemma TimeSlotChoices(slots: seq<string>)
    requires |slots| == 14 && forall i :: 0 <= i < 14 ==> slots[i] == SlotLabel(8 + i)
    ensures slots[0] == "08:00-09:00" && slots[13] == "21:00-22:00"
    ensures forall i :: 0 <= i < 14 ==> (|slots[i]| == 11 && AllDigits(slots[i][..2]) && AllDigits(slots[i][6..8])
      && LabelStart(slots[i]) == 8 + i && LabelEnd(slots[i]) == LabelStart(slots[i]) + 1)
    ensures forall i, j :: 0 <= i < j < 14 ==> slots[i] != slots[j]
  {
    forall i | 0 <= i < 14
      ensures |slots[i]| == 11 && AllDigits(slots[i][..2]) && AllDigits(slots[i][6..8])
        && LabelStart(slots[i]) == 8 + i && LabelEnd(slots[i]) == LabelStart(slots[i]) + 1
    {
      SlotLabelHours(8 + i);
    }
    assert TwoDigits(8) == "08" && TwoDigits(9) == "09" && TwoDigits(21) == "21" && TwoDigits(22) == "22";
  }

  /** Modes 1, 2 and 3 launch the booking, login and leftover scripts; every
      other mode is refused. */
  lemma ScriptDispatch(mode: int)
    ensures ScriptFor(mode).Some? <==> 1 <= mode <= 3
    ensures ScriptFor(mode) == Some(BookingScript) <==> mode == 1
    ensures ScriptFor(mode) == Some(LoginScript) <==> mode == 2
    ensures ScriptFor(mode) == Some(LeftoverScript) <==> mode == 3
  {
  }

  /** The script's arguments: the program name, `--config=<path>`, and
      `--headed` exactly when the viewable setting, "yes" when missing, reads
      yes in any case and the mode shows a browser (booking or login). */
  lemma ArgvContract(path: string, settings: map<string, string>, mode: int)
    ensures var a := Argv(path, settings, mode);
      2 <= |a| <= 3 && a[0] == "script.py" && a[1] == "--config=" + path
      && (|a| == 3 <==> (IsYes(Viewable(settings)) && (mode == 1 || mode == 2)))
      && (|a| == 3 ==> a[2] == "--headed")
    ensures "viewable" !in settings && (mode == 1 || mode == 2) ==> |Argv(path, settings, mode)| == 3
    ensures mode == 3 ==> |Argv(path, settings, mode)| == 2
  {
    assert IsYes("yes");
  }

  /** A run starts a script only with a readable settings file and a known
      mode, and hands it that file's path. */
  lemma LaunchContract(current: Option<string>, files: map<string, SettingsFile>, usernameField: string, mode: int)
    ensures var (l, cur) := LaunchFor(current, files, usernameField, mode);
      l.Start? ==>
        cur.Some? && cur.value in files && files[cur.value].SettingsJson?
        && (current.Some? ==> cur == current)
        && (current.None? ==> cur == Some(ConfigFilePath(Strip(usernameField))))
        && Some(l.script) == ScriptFor(mode)
        && l.argv[1] == "--config=" + cur.value
    ensures var (l, cur) := LaunchFor(current, files, usernameField, mode);
      l == NoUsernameSet <==> current.None? && Strip(usernameField) == ""
    ensures var (l, cur) := LaunchFor(current, files, usernameField, mode);
      current.Some? || Strip(usernameField) != "" ==>
        var path := if current.Some? then current.value else ConfigFilePath(Strip(usernameField));
        var readable := path in files && files[path].SettingsJson?;
        && cur == Some(path)
        && (l == ConfigMissing(path) <==> current.None? && path !in files)
        && (l == ConfigUnreadable(path) <==> !readable && !(current.None? && path !in files))
        && (l == InvalidMode(mode) <==> readable && ScriptFor(mode).None?)
        && (l.Start? <==> readable && 1 <= mode <= 3)
        && (l.Start? ==> l == Start(ScriptFor(mode).value, Argv(path, files[path].settings, mode)))
  {
  }

  /** A digit string followed by a non-digit has itself as digit prefix. */
  lemma {:induction false} DigitPrefixOf(d: string, rest: string)
    requires AllDigits(d) && rest != [] && !IsDigit(rest[0])
    ensures DigitPrefix(d + rest) == d
    decreases |d|
  {
    if d != [] {
      assert (d + rest)[1..] == d[1..] + rest;
      DigitPrefixOf(d[1..], rest);
    }
  }

  /** Reading a numbered line back gives its number and its slot. */
  lemma ParseNumberedLine(i: nat, slot: string)
    ensures ParseLine(NumberedLine(i, slot)) == Some((i, slot))
  {
    var n := NatToString(i);
    var line := NumberedLine(i, slot);
    assert line == n + (". " + slot + "\n");
    DigitPrefixOf(n, ". " + slot + "\n");
    DecimalRoundTrip(i);
    assert line[|n|..] == ". " + slot + "\n";
  }

  /** The leftover display: a missing file, a `null` and an empty list each give
      one message; otherwise a header and then one line per slot, in order,
      numbered from 1, each reading back as its number and its slot. */
  lemma DisplayContract(file: Option<ResultFile>)
    ensures file.None? ==> DisplayLines(file) == [NoResultFile]
    ensures file == Some(ResultJson(None)) || file == Some(ResultJson(Some([]))) ==> DisplayLines(file) == [NoSlots]
    ensures file.Some? && file.value.ResultJson? && file.value.slots.Some? && file.value.slots.value != [] ==>
      var slots := file.value.slots.value;
      var lines := DisplayLines(file);
      |lines| == |slots| + 1 && lines[0] == SlotsHeader
      && forall k :: 0 <= k < |slots| ==> ParseLine(lines[k + 1]) == Some((k + 1, slots[k]))
  {
    if file.Some? && file.value.ResultJson? && file.value.slots.Some? && file.value.slots.value != [] {
      var slots := file.value.slots.value;
      forall k | 0 <= k < |slots|
        ensures ParseLine(DisplayLines(file)[k + 1]) == Some((k + 1, slots[k]))
      {
        ParseNumberedLine(k + 1, slots[k]);
      }
    }
  }

  /** The time-slot box's choices: the append loop of `setup_settings_tab`. */
  method TimeSlotOptions() returns (slots: seq<string>)
    ensures |slots| == 14 && forall i :: 0 <= i < 14 ==> slots[i] == SlotLabel(8 + i)
  {
    slots := [];
    var hour := 8;
    while hour < 22
      invariant 8 <= hour <= 22 && |slots| == hour - 8
      invariant forall i :: 0 <= i < |slots| ==> slots[i] == SlotLabel(8 + i)
    {
      var start := TwoDigits(hour) + ":00";
      var end := TwoDigits(hour + 1) + ":00";
      slots := slots + [start + "-" + end];
      hour := hour + 1;
    }
  }

  /** The GUI: the settings file it works on, and the config directory. */
  class App {
    var currentConfigFile: Option<string>
    const dir: ConfigDir

    constructor (dir: ConfigDir)
      ensures this.dir == dir && currentConfigFile == None
    {
      this.dir := dir;
      currentConfigFile := None;
    }

    method SaveSettings(usernameField: string, form: AppointmentForm) returns (r: SaveResult)
      modifies this`currentConfigFile, dir`settingsFiles
      ensures SaveEffect(r, currentConfigFile, dir.settingsFiles)
        == SaveSettingsEffect(old(currentConfigFile), old(dir.settingsFiles), usernameField, form)
    {
      if currentConfigFile.None? {
        var username := Strip(usernameField);
        if username == "" {
          return NoUsername;
        }
        currentConfigFile := Some(ConfigFilePath(username));
      }
      var path := currentConfigFile.value;
      var settings: map<string, string> := map[];
      if path in dir.settingsFiles {
        if dir.settingsFiles[path].SettingsGarbled? {
          return UnreadableConfig(path);
        }
        settings := dir.settingsFiles[path].settings;
      }
      if MissingRequired(form) {
        return MissingField;
      }
      settings := settings + Appointment(form);
      dir.WriteSettings(path, settings);
      r := SavedTo(path);
    }

    method SaveAccount(usernameField: string, password: string, payPass: string) returns (r: SaveResult)
      modifies this`currentConfigFile, dir`settingsFiles
      ensures SaveEffect(r, currentConfigFile, dir.settingsFiles)
        == SaveAccountEffect(old(currentConfigFile), old(dir.settingsFiles), usernameField, password, payPass)
    {
      var username := Strip(usernameField);
      if username == "" {
        return NoUsername;
      }
      var settings: map<string, string> := map[];
      if currentConfigFile.Some? && currentConfigFile.value in dir.settingsFiles {
        if dir.settingsFiles[currentConfigFile.value].SettingsGarbled? {
          return UnreadableConfig(currentConfigFile.value);
        }
        settings := dir.settingsFiles[currentConfigFile.value].settings;
      }
      settings := settings + Account(username, password, payPass);
      var path := ConfigFilePath(username);
      dir.WriteSettings(path, settings);
      currentConfigFile := Some(path);
      r := SavedTo(path);
    }

    method RunScript(usernameField: string, mode: int) returns (launch: Launch)
      modifies this`currentConfigFile
      ensures (launch, currentConfigFile) == LaunchFor(old(currentConfigFile), dir.settingsFiles, usernameField, mode)
    {
      if currentConfigFile.None? {
        var username := Strip(usernameField);
        if username == "" {
          return NoUsernameSet;
        }
        currentConfigFile := Some(ConfigFilePath(username));
        if currentConfigFile.value !in dir.settingsFiles {
          return ConfigMissing(currentConfigFile.value);
        }
      }
      var path := currentConfigFile.value;
      if path !in dir.settingsFiles || dir.settingsFiles[path].SettingsGarbled? {
        return ConfigUnreadable(path);
      }
      var settings := dir.settingsFiles[path].settings;
      var script := ScriptFor(mode);
      if script.None? {
        return InvalidMode(mode);
      }
      var headed: seq<string> := [];
      if IsYes(Viewable(settings)) && (mode == 1 || mode == 2) {
        headed := ["--headed"];
      }
      launch := Start(script.value, ["script.py", "--config=" + path] + headed);
    }

    method DisplayLeftover() returns (lines: seq<string>)
      modifies dir`resultFile
      ensures lines == DisplayLines(old(dir.resultFile)) && dir.resultFile == None
    {
      var file := dir.resultFile;
      if file.None? {
        lines := [NoResultFile];
      } else if file.value.ResultGarbled? {
        lines := ["查询失败：" + file.value.message];
      } else if file.value.slots.None? || file.value.slots.value == [] {
        lines := [NoSlots];
      } else {
        var slots := file.value.slots.value;
        lines := [SlotsHeader];
        var i := 0;
        while i < |slots|
          invariant 0 <= i <= |slots| && |lines| == i + 1 && lines[0] == SlotsHeader
          invariant forall k :: 0 <= k < i ==> lines[k + 1] == NumberedLine(k + 1, slots[k])
        {
          lines := lines + [NatToString(i + 1) + ". " + slots[i] + "\n"];
          i := i + 1;
        }
        assert lines == [SlotsHeader] + lines[1..];
        assert lines[1..] == seq(|slots|, k requires 0 <= k < |slots| => NumberedLine(k + 1, slots[k]));
      }
      dir.RemoveResult();
    }
  }
}
