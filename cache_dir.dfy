/** `_get_default_cache_dir`: where the cache lives, per operating system. */
module CacheDir {

  /** A path as its segments. An environment variable's value is kept as one segment. */
  type Path = seq<string>

  /** The directory for the OS name `platform.system()` reports, the environment and the home directory. */
  function DefaultCacheDir(system: string, env: map<string, string>, home: Path): (r: Path)
    ensures |r| >= 1 && r[|r| - 1] == "CamDB"
  {
    if system == "Windows" then
      (if "APPDATA" in env then [env["APPDATA"]] else home) + ["CamDB"]
    else if system == "Darwin" then
      home + ["Library", "Application Support", "CamDB"]
    else
      (if "XDG_DATA_HOME" in env then [env["XDG_DATA_HOME"]] else home + [".local", "share"]) + ["CamDB"]
  }

  /** Without the OS's environment override the directory lies under the home directory;
      with it, the home directory plays no part. */
  lemma UnderHomeUnlessOverridden(system: string, env: map<string, string>, home: Path, other: Path)
    ensures var key := if system == "Windows" then "APPDATA" else "XDG_DATA_HOME";
      system == "Darwin" || key !in env ==> DefaultCacheDir(system, env, home)[..|home|] == home
    ensures system == "Windows" && "APPDATA" in env ==>
      DefaultCacheDir(system, env, home) == [env["APPDATA"], "CamDB"] == DefaultCacheDir(system, env, other)
    ensures system != "Windows" && system != "Darwin" && "XDG_DATA_HOME" in env ==>
      DefaultCacheDir(system, env, home) == [env["XDG_DATA_HOME"], "CamDB"] == DefaultCacheDir(system, env, other)
  {
  }

  /** The segments below the home directory on each system when no override is set. */
  lemma DefaultSegments(system: string, env: map<string, string>, home: Path)
    ensures system == "Windows" && "APPDATA" !in env ==> DefaultCacheDir(system, env, home) == home + ["CamDB"]
    ensures system == "Darwin" ==> DefaultCacheDir(system, env, home)[|home|..] == ["Library", "Application Support", "CamDB"]
    ensures system != "Windows" && system != "Darwin" && "XDG_DATA_HOME" !in env ==>
      DefaultCacheDir(system, env, home)[|home|..] == [".local", "share", "CamDB"]
  {
  }
}
