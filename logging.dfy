/**
 * The log-line prefix NewLogger installs on Linux and macOS: the log file's
 * base name with its extension removed.
 */
module Logging {
  import opened GoStd

  /** strings.TrimSuffix(filepath.Base(f), filepath.Ext(f)). */
  function LogPrefix(logFilename: string): string
  {
    TrimSuffix(Base(logFilename), Ext(logFilename))
  }

  lemma TrimExtension(stem: string, ext: string)
    ensures TrimSuffix(stem + "." + ext, "." + ext) == stem
  {
    var name, suffix := stem + "." + ext, "." + ext;
    assert name == stem + suffix;
    assert name[|stem|..] == suffix;
    assert name[..|stem|] == stem;
    assert HasSuffix(name, suffix);
  }

  /** A file name stem "." ext gives the stem as prefix. */
  lemma LogPrefixOfFileName(stem: string, ext: string)
    requires '/' !in stem && '/' !in ext && '.' !in ext
    ensures LogPrefix(stem + "." + ext) == stem
  {
    var name := stem + "." + ext;
    assert '/' !in name;
    BaseOfName("", name);
    ExtOfName(stem, ext);
    TrimExtension(stem, ext);
  }

  /** The same file name under a directory gives the same prefix. */
  lemma LogPrefixOfPath(dir: string, stem: string, ext: string)
    requires '/' !in stem && '/' !in ext && '.' !in ext
    ensures LogPrefix(dir + "/" + stem + "." + ext) == stem
  {
    var name := stem + "." + ext;
    assert '/' !in name;
    var full := dir + "/" + stem + "." + ext;
    assert full == dir + "/" + name;
    BaseOfName(dir, name);
    ExtOfName(dir + "/" + stem, ext);
    TrimExtension(stem, ext);
  }

  /** A name without dot and slash is its own prefix. */
  lemma LogPrefixWithoutExtension(name: string)
    requires name != [] && '/' !in name && '.' !in name
    ensures LogPrefix(name) == name
  {
    LastElementNoSlash(name);
    ExtWithoutDot(name);
    assert HasSuffix(name, "");
  }

  /** The updater's own log file, openuem-updater.log, logs under "openuem-updater". */
  lemma UpdaterLogPrefix()
    ensures LogPrefix("openuem-updater.log") == "openuem-updater"
  {
    var stem, ext := "openuem-updater", "log";
    assert stem + "." + ext == "openuem-updater.log";
    assert '/' !in stem && '/' !in ext && '.' !in ext;
    LogPrefixOfFileName(stem, ext);
  }
}
