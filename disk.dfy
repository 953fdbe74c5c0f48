/** The `config` directory the bot keeps its files in: the saved session
    (cookies.json, storage.json), the per-user settings files and the result
    file the leftover query hands to the GUI. Each file is either absent, or
    holds JSON of the expected shape, or holds text that is not valid JSON. */
module Disk {
  import opened Web

  /** config/cookies.json: the browser context's cookies. */
  datatype CookieFile = CookieJson(cookies: seq<Cookie>) | CookieGarbled

  /** config/storage.json: a flat JSON object of local-storage entries. */
  datatype StorageFile = StorageJson(entries: Snapshot) | StorageGarbled

  /** config/leftover_result.json: a list of slot labels, or `null`; or text
      that does not decode, with the decoder's message. */
  datatype ResultFile = ResultJson(slots: Option<seq<string>>) | ResultGarbled(message: string)

  /** config/settings_<user>.json: a flat JSON object of settings. */
  datatype SettingsFile = SettingsJson(settings: map<string, string>) | SettingsGarbled

  /** The directory's files. The settings files are keyed by their path. */
  class ConfigDir {
    var cookieFile: Option<CookieFile>
    var storageFile: Option<StorageFile>
    var resultFile: Option<ResultFile>
    var settingsFiles: map<string, SettingsFile>

    constructor (cookieFile: Option<CookieFile>, storageFile: Option<StorageFile>,
                 resultFile: Option<ResultFile>, settingsFiles: map<string, SettingsFile>)
      ensures this.cookieFile == cookieFile && this.storageFile == storageFile
      ensures this.resultFile == resultFile && this.settingsFiles == settingsFiles
    {
      this.cookieFile := cookieFile;
      this.storageFile := storageFile;
      this.resultFile := resultFile;
      this.settingsFiles := settingsFiles;
    }

    /** `json.dump(cookies, f)` to config/cookies.json. */
    method WriteCookies(cookies: seq<Cookie>)
      modifies this`cookieFile
      ensures cookieFile == Some(CookieJson(cookies))
    {
      cookieFile := Some(CookieJson(cookies));
    }

    /** `json.dump(storage, f)` to config/storage.json. */
    method WriteStorage(entries: Snapshot)
      modifies this`storageFile
      ensures storageFile == Some(StorageJson(entries))
    {
      storageFile := Some(StorageJson(entries));
    }

    /** `json.dump(leftover_timeslots, f)` to config/leftover_result.json. */
    method WriteResult(slots: Option<seq<string>>)
      modifies this`resultFile
      ensures resultFile == Some(ResultJson(slots))
    {
      resultFile := Some(ResultJson(slots));
    }

    /** `os.remove(result_file)`. */
    method RemoveResult()
      modifies this`resultFile
      ensures resultFile == None
    {
      resultFile := None;
    }

    /** `json.dump(settings, f, indent=4)` to a settings file. */
    method WriteSettings(path: string, settings: map<string, string>)
      modifies this`settingsFiles
      ensures settingsFiles == old(settingsFiles)[path := SettingsJson(settings)]
    {
      settingsFiles := settingsFiles[path := SettingsJson(settings)];
    }
  }
}
