/** The bot's view of the filesystem: the music folder, which paths exist and
    which of them are regular files, and `os.path.join`. */
module Files {

  /** Song names are resolved relative to this folder. */
  const MusicFolder: string := "music/"

  /** A snapshot of the filesystem: `entries` answer `os.path.exists`,
      `regularFiles` answer `os.path.isfile`. */
  datatype Disk = Disk(entries: set<string>, regularFiles: set<string>)

  predicate Exists(disk: Disk, path: string)
  {
    path in disk.entries
  }

  predicate IsFile(disk: Disk, path: string)
  {
    path in disk.regularFiles
  }

  /** `os.path.join(folder, name)` for two components: an absolute `name`
      discards the folder; otherwise a '/' is put between them unless the
      folder is empty or already ends in one. */
  function PathJoin(folder: string, name: string): (r: string)
    ensures |name| > 0 && name[0] == '/' ==> r == name
    ensures (|name| == 0 || name[0] != '/') ==> |r| >= |folder| + |name| && r[..|folder|] == folder && r[|r| - |name|..] == name
  {
    if |name| > 0 && name[0] == '/' then name
    else if folder == [] || folder[|folder| - 1] == '/' then folder + name
    else folder + "/" + name
  }
}
